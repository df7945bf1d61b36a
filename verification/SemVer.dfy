/** Strict semantic versions (SemVer 2.0.0, items 2, 9 and 10), as the identity's version field uses them. */
module SemVer {
  import opened Prelude
  import opened Numerals
  import opened Text

  /** `pre` and `build` are the text after `-` and `+`, when present. */
  datatype Version = Version(major: nat, minor: nat, patch: nat, pre: Option<string>, build: Option<string>)

  predicate IdentifierChar(c: char) {
    Alphanumeric(c) || c == '-'
  }

  predicate Identifier(s: string) {
    s != [] && Every(s, IdentifierChar)
  }

  /** A numeric pre-release identifier has no leading zero. */
  predicate PreIdentifier(s: string) {
    Identifier(s) && (AllDigits(s, 10) ==> Canonical(s, 10))
  }

  predicate DottedPre(s: string) {
    var pieces := Split(s, '.');
    forall i :: 0 <= i < |pieces| ==> PreIdentifier(pieces[i])
  }

  predicate DottedBuild(s: string) {
    var pieces := Split(s, '.');
    forall i :: 0 <= i < |pieces| ==> Identifier(pieces[i])
  }

  predicate Number(s: string) {
    Canonical(s, 10) && Value(s, 10) < U64_MODULUS
  }

  function Parse(text: string): Option<Version> {
    var (head, build) :=
      match SplitOnce(text, '+')
      case None => (text, None)
      case Some((h, b)) => (h, Some(b));
    var (core, pre) :=
      match SplitOnce(head, '-')
      case None => (head, None)
      case Some((c, p)) => (c, Some(p));
    var numbers := Split(core, '.');
    if |numbers| == 3 && Number(numbers[0]) && Number(numbers[1]) && Number(numbers[2])
       && (pre.Some? ==> DottedPre(pre.value)) && (build.Some? ==> DottedBuild(build.value))
    then Some(Version(Value(numbers[0], 10), Value(numbers[1], 10), Value(numbers[2], 10), pre, build))
    else None
  }

  function ShowCore(v: Version): string {
    Print(v.major, 10) + "." + Print(v.minor, 10) + "." + Print(v.patch, 10)
  }

  function ShowHead(v: Version): string {
    if v.pre.Some? then ShowCore(v) + "-" + v.pre.value else ShowCore(v)
  }

  function Show(v: Version): string {
    if v.build.Some? then ShowHead(v) + "+" + v.build.value else ShowHead(v)
  }

  lemma JoinThree(a: string, b: string, c: string)
    ensures Join([a, b, c], '.') == a + "." + b + "." + c
  {
    var n := [a, b, c];
    assert n[1..] == [b, c] && [b, c][1..] == [c];
    assert Join([c], '.') == c && Join([b, c], '.') == b + ['.'] + c;
    assert a + ['.'] + (b + ['.'] + c) == a + "." + b + "." + c;
  }

  lemma CoreIsPrinted(core: string)
    requires var n := Split(core, '.'); |n| == 3 && Number(n[0]) && Number(n[1]) && Number(n[2])
    ensures var n := Split(core, '.');
            core == Print(Value(n[0], 10), 10) + "." + Print(Value(n[1], 10), 10) + "." + Print(Value(n[2], 10), 10)
  {
    var n := Split(core, '.');
    JoinSplit(core, '.');
    CanonicalIsPrinted(n[0], 10);
    CanonicalIsPrinted(n[1], 10);
    CanonicalIsPrinted(n[2], 10);
    JoinThree(n[0], n[1], n[2]);
    assert n == [n[0], n[1], n[2]];
  }

  /** A strict parse leaves nothing to canonicalise: printing gives the text back. */
  lemma ParseIsCanonical(text: string)
    requires Parse(text).Some?
    ensures Show(Parse(text).value) == text
  {
    SplitOnceSound(text, '+');
    var head := match SplitOnce(text, '+') case None => text case Some((h, _)) => h;
    SplitOnceSound(head, '-');
    var core := match SplitOnce(head, '-') case None => head case Some((c, _)) => c;
    CoreIsPrinted(core);
    assert ShowHead(Parse(text).value) == head;
  }

  lemma {:induction false} DottedHasNoSpace(s: string, c: char)
    requires c != '.' && !IdentifierChar(c)
    requires var pieces := Split(s, '.'); forall i :: 0 <= i < |pieces| ==> Identifier(pieces[i])
    ensures c !in s
  {
    JoinSplit(s, '.');
    JoinFree(Split(s, '.'), '.', c);
  }

  lemma {:induction false} JoinFree(pieces: seq<string>, sep: char, c: char)
    requires |pieces| > 0 && c != sep
    requires forall i :: 0 <= i < |pieces| ==> c !in pieces[i]
    ensures c !in Join(pieces, sep)
    decreases |pieces|
  {
    if |pieces| > 1 {
      JoinFree(pieces[1..], sep, c);
    }
  }

  /** No character outside `[0-9A-Za-z.+-]` occurs in a version. */
  lemma VersionAlphabet(text: string, c: char)
    requires Parse(text).Some?
    requires !Alphanumeric(c) && c != '.' && c != '-' && c != '+'
    ensures c !in text
  {
    SplitOnceSound(text, '+');
    var head := match SplitOnce(text, '+') case None => text case Some((h, _)) => h;
    SplitOnceSound(head, '-');
    var core := match SplitOnce(head, '-') case None => head case Some((co, _)) => co;
    var numbers := Split(core, '.');
    JoinSplit(core, '.');
    assert forall i :: 0 <= i < |numbers| ==> Number(numbers[i]);
    JoinFree(numbers, '.', c);
    var v := Parse(text).value;
    if v.pre.Some? { DottedHasNoSpace(v.pre.value, c); }
    if v.build.Some? { DottedHasNoSpace(v.build.value, c); }
  }

  // ---- exactly which texts are versions ----------------------------------------------

  /** Dot-separated identifiers of items 9 and 10; those of a pre-release have no number with a leading zero. */
  ghost predicate Dotted(text: string, ids: seq<string>, pre: bool) {
    && ids != [] && text == Join(ids, '.')
    && forall i :: 0 <= i < |ids| ==>
         && ids[i] != []
         && (forall j :: 0 <= j < |ids[i]| ==>
               var c := ids[i][j]; '0' <= c <= '9' || 'A' <= c <= 'Z' || 'a' <= c <= 'z' || c == '-')
         && (pre && |ids[i]| > 1 && ids[i][0] == '0' ==> exists j :: 0 <= j < |ids[i]| && !('0' <= ids[i][j] <= '9'))
  }

  /** The grammar, read as a description: three 64-bit numbers, then the optional parts. */
  ghost predicate Spells(text: string, v: Version) {
    && v.major < 18446744073709551616 && v.minor < 18446744073709551616 && v.patch < 18446744073709551616
    && text == Print(v.major, 10) + "." + Print(v.minor, 10) + "." + Print(v.patch, 10)
               + (if v.pre.Some? then "-" + v.pre.value else "") + (if v.build.Some? then "+" + v.build.value else "")
    && (v.pre.Some? ==> exists ids :: Dotted(v.pre.value, ids, true))
    && (v.build.Some? ==> exists ids :: Dotted(v.build.value, ids, false))
  }

  lemma PreIsDotted(text: string)
    ensures DottedPre(text) <==> exists ids :: Dotted(text, ids, true)
  {
    JoinSplit(text, '.');
    if DottedPre(text) {
      assert Dotted(text, Split(text, '.'), true);
    }
    if ids :| Dotted(text, ids, true) {
      SplitJoin(ids, '.');
      forall i | 0 <= i < |ids| ensures PreIdentifier(ids[i]) {
      }
    }
  }

  lemma BuildIsDotted(text: string)
    ensures DottedBuild(text) <==> exists ids :: Dotted(text, ids, false)
  {
    JoinSplit(text, '.');
    if DottedBuild(text) {
      assert Dotted(text, Split(text, '.'), false);
    }
    if ids :| Dotted(text, ids, false) {
      SplitJoin(ids, '.');
    }
  }

  lemma ThreeSplit(a: string, b: string, c: string)
    requires AllDigits(a, 10) && AllDigits(b, 10) && AllDigits(c, 10)
    ensures Split(a + "." + b + "." + c, '.') == [a, b, c]
    ensures '+' !in a + "." + b + "." + c && '-' !in a + "." + b + "." + c
  {
    JoinThree(a, b, c);
    assert '.' !in a && '.' !in b && '.' !in c;
    SplitJoin([a, b, c], '.');
  }

  lemma CoreSplits(v: Version)
    ensures Split(ShowCore(v), '.') == [Print(v.major, 10), Print(v.minor, 10), Print(v.patch, 10)]
    ensures '+' !in ShowCore(v) && '-' !in ShowCore(v)
  {
    PrintIsCanonical(v.major, 10);
    PrintIsCanonical(v.minor, 10);
    PrintIsCanonical(v.patch, 10);
    ThreeSplit(Print(v.major, 10), Print(v.minor, 10), Print(v.patch, 10));
  }

  lemma HeadParts(v: Version)
    requires v.pre.Some? ==> DottedPre(v.pre.value)
    ensures '+' !in ShowHead(v)
    ensures SplitOnce(ShowHead(v), '-') == if v.pre.Some? then Some((ShowCore(v), v.pre.value)) else None
  {
    CoreSplits(v);
    if v.pre.Some? {
      DottedHasNoSpace(v.pre.value, '+');
      SplitOnceAt(ShowCore(v), v.pre.value, '-');
    } else {
      SplitOnceNever(ShowHead(v), '-');
    }
  }

  /** Everything the grammar allows parses to what it spells. */
  lemma ShowParses(v: Version)
    requires v.major < U64_MODULUS && v.minor < U64_MODULUS && v.patch < U64_MODULUS
    requires (v.pre.Some? ==> DottedPre(v.pre.value)) && (v.build.Some? ==> DottedBuild(v.build.value))
    ensures Parse(Show(v)) == Some(v)
  {
    HeadParts(v);
    CoreSplits(v);
    PrintIsCanonical(v.major, 10);
    PrintIsCanonical(v.minor, 10);
    PrintIsCanonical(v.patch, 10);
    if v.build.Some? {
      SplitOnceAt(ShowHead(v), v.build.value, '+');
    } else {
      SplitOnceNever(Show(v), '+');
    }
  }

  lemma ShownParts(core: string, pre: Option<string>, build: Option<string>)
    ensures (if build.Some? then (if pre.Some? then core + "-" + pre.value else core) + "+" + build.value
             else if pre.Some? then core + "-" + pre.value else core)
            == core + (if pre.Some? then "-" + pre.value else "") + (if build.Some? then "+" + build.value else "")
  {
    if pre.Some? {
      assert core + "-" + pre.value == core + ("-" + pre.value);
    } else {
      assert core + "" == core;
    }
    var head := core + if pre.Some? then "-" + pre.value else "";
    if build.Some? {
      assert head + "+" + build.value == head + ("+" + build.value);
    } else {
      assert head + "" == head;
    }
  }

  /** A text parses to exactly the version the grammar reads in it. */
  lemma ParsesExactly(text: string, v: Version)
    ensures Parse(text) == Some(v) <==> Spells(text, v)
  {
    if v.pre.Some? { PreIsDotted(v.pre.value); }
    if v.build.Some? { BuildIsDotted(v.build.value); }
    ShownParts(ShowCore(v), v.pre, v.build);
    if Parse(text) == Some(v) {
      ParseIsCanonical(text);
    }
    if Spells(text, v) {
      ShowParses(v);
    }
  }
}
