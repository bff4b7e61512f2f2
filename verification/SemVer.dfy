/** Version parsing and comparison of the updater, against section 11 of Semantic Versioning 2.0.0. */
module SemVer {
  import opened Wrappers
  import opened Text
  import opened Order

  const MAX_UPDATE_VERSION_LENGTH: nat := 128

  datatype Version = Version(major: string, minor: string, patch: string, prerelease: seq<string>)

  // ----- identifiers -----------------------------------------------------

  predicate IsIdentifierChar(c: char)
  {
    IsDigit(c) || 'A' <= c <= 'Z' || 'a' <= c <= 'z' || c == '-'
  }

  predicate IsIdentifier(s: string)
  {
    s != [] && forall i :: 0 <= i < |s| ==> IsIdentifierChar(s[i])
  }

  predicate IsNumeric(s: string) { s != [] && AllDigits(s) }

  /** A numeral without leading zeros. */
  predicate IsNumeral(s: string) { IsNumeric(s) && (|s| > 1 ==> s[0] != '0') }

  predicate ValidPrerelease(part: string) { IsIdentifier(part) && (IsNumeric(part) ==> IsNumeral(part)) }

  predicate ValidVersion(v: Version)
  {
    && IsNumeral(v.major) && IsNumeral(v.minor) && IsNumeral(v.patch)
    && forall i :: 0 <= i < |v.prerelease| ==> ValidPrerelease(v.prerelease[i])
  }

  /** The pieces of the pattern by code point: `[0-9A-Za-z-]` and `0|[1-9]` followed by digits. */
  lemma PatternPieces(c: char, s: string)
    ensures IsIdentifierChar(c) <==>
            c as int == 45 || 48 <= c as int <= 57 || 65 <= c as int <= 90 || 97 <= c as int <= 122
    ensures IsNumeral(s) <==>
            s == "0" || (s != "" && 49 <= s[0] as int <= 57 && forall k :: 1 <= k < |s| ==> 48 <= s[k] as int <= 57)
  {
  }

  // ----- splitting and joining ------------------------------------------

  /** The position of the first `c`, or the length. */
  function FirstIndex(s: string, c: char): (i: nat)
    ensures i <= |s| && (i < |s| ==> s[i] == c) && c !in s[..i]
  {
    if s == [] || s[0] == c then 0
    else
      var i := FirstIndex(s[1..], c);
      assert s[..i + 1] == [s[0]] + s[1..][..i];
      i + 1
  }

  function Split(s: string, c: char): (parts: seq<string>)
    ensures parts != []
    decreases |s|
  {
    var i := FirstIndex(s, c);
    if i == |s| then [s] else [s[..i]] + Split(s[i + 1..], c)
  }

  function Join(parts: seq<string>, c: char): string
    requires parts != []
  {
    if |parts| == 1 then parts[0] else parts[0] + [c] + Join(parts[1..], c)
  }

  lemma FirstIndexUnique(a: string, c: char, rest: string)
    requires c !in a
    ensures FirstIndex(a + [c] + rest, c) == |a|
  {
    var s := a + [c] + rest;
    var i := FirstIndex(s, c);
    assert s[|a|] == c && forall k :: 0 <= k < |a| ==> s[k] == a[k];
    assert forall k :: 0 <= k < i ==> s[k] == s[..i][k];
  }

  lemma NoIndex(a: string, c: char)
    requires c !in a
    ensures FirstIndex(a, c) == |a|
  {
  }

  lemma {:induction false} SplitJoin(parts: seq<string>, c: char)
    requires parts != [] && forall i :: 0 <= i < |parts| ==> c !in parts[i]
    ensures Split(Join(parts, c), c) == parts
    decreases |parts|
  {
    hide FirstIndex;
    if |parts| == 1 {
      NoIndex(parts[0], c);
    } else {
      SplitJoin(parts[1..], c);
      SplitHead(parts[0], c, Join(parts[1..], c));
      assert parts == [parts[0]] + parts[1..];
    }
  }

  lemma SplitHead(a: string, c: char, rest: string)
    requires c !in a
    ensures Split(a + [c] + rest, c) == [a] + Split(rest, c)
  {
    var s := a + [c] + rest;
    FirstIndexUnique(a, c, rest);
    assert s[..|a|] == a && s[|a| + 1..] == rest;
  }

  lemma {:induction false} JoinSplit(s: string, c: char)
    ensures Join(Split(s, c), c) == s
    ensures forall k :: 0 <= k < |Split(s, c)| ==> c !in Split(s, c)[k]
    decreases |s|
  {
    var i := FirstIndex(s, c);
    if i < |s| {
      JoinSplit(s[i + 1..], c);
      var rest := Split(s[i + 1..], c);
      assert Split(s, c) == [s[..i]] + rest;
      assert Split(s, c)[1..] == rest;
      assert s == s[..i] + [c] + s[i + 1..];
    } else {
      assert s[..i] == s;
    }
  }

  // ----- parsing ---------------------------------------------------------

  /** The text before the first `c`, and the text after it if there is one. */
  function Cut(s: string, c: char): (string, Option<string>)
  {
    var i := FirstIndex(s, c);
    if i == |s| then (s, None) else (s[..i], Some(s[i + 1..]))
  }

  predicate AllIdentifiers(parts: seq<string>) { forall i :: 0 <= i < |parts| ==> IsIdentifier(parts[i]) }

  predicate AllPrerelease(parts: seq<string>) { forall i :: 0 <= i < |parts| ==> ValidPrerelease(parts[i]) }

  /** `parseVersion`: the pattern of the source, then the test for leading zeros. */
  function ParseVersion(text: string): Option<Version>
  {
    if text == [] || |text| > MAX_UPDATE_VERSION_LENGTH then None
    else
      var (plain, build) := Cut(if text[0] == 'v' then text[1..] else text, '+');
      var (core, prerelease) := Cut(plain, '-');
      var numbers := Split(core, '.');
      var parts := if prerelease.Some? then Split(prerelease.value, '.') else [];
      if |numbers| != 3 || !IsNumeral(numbers[0]) || !IsNumeral(numbers[1]) || !IsNumeral(numbers[2]) then None
      else if build.Some? && !AllIdentifiers(Split(build.value, '.')) then None
      else if !AllPrerelease(parts) then None
      else Some(Version(numbers[0], numbers[1], numbers[2], parts))
  }

  /** The text of a version with optional build metadata. */
  function Format(v: Version, build: seq<string>): string
  {
    Join([v.major, v.minor, v.patch], '.')
    + (if v.prerelease == [] then "" else "-" + Join(v.prerelease, '.'))
    + (if build == [] then "" else "+" + Join(build, '.'))
  }

  lemma ParsedIsValid(text: string)
    ensures ParseVersion(text).Some? ==> ValidVersion(ParseVersion(text).value)
  {
  }

  lemma NumeralChars(s: string)
    requires IsNumeral(s)
    ensures '.' !in s && '-' !in s && '+' !in s && s[0] != 'v'
  {
  }

  lemma IdentifierChars(s: string)
    requires IsIdentifier(s)
    ensures '.' !in s && '+' !in s
  {
  }

  lemma {:induction false} JoinedChars(parts: seq<string>, c: char, x: char)
    requires parts != [] && x != c && forall i :: 0 <= i < |parts| ==> x !in parts[i]
    ensures x !in Join(parts, c)
    decreases |parts|
  {
    if |parts| > 1 {
      JoinedChars(parts[1..], c, x);
    }
  }

  lemma CutAt(a: string, c: char, rest: string)
    requires c !in a
    ensures Cut(a + [c] + rest, c) == (a, Some(rest)) && Cut(a, c) == (a, None)
  {
    FirstIndexUnique(a, c, rest);
    NoIndex(a, c);
    var s := a + [c] + rest;
    assert s[..|a|] == a && s[|a| + 1..] == rest;
  }

  lemma CoreText(v: Version)
    requires ValidVersion(v)
    ensures var core := Join([v.major, v.minor, v.patch], '.');
            && Split(core, '.') == [v.major, v.minor, v.patch]
            && '-' !in core && '+' !in core && core != [] && core[0] != 'v'
  {
    var numbers := [v.major, v.minor, v.patch];
    NumeralChars(v.major);
    NumeralChars(v.minor);
    NumeralChars(v.patch);
    SplitJoin(numbers, '.');
    JoinedChars(numbers, '.', '-');
    JoinedChars(numbers, '.', '+');
    assert Join(numbers, '.')[0] == v.major[0];
  }

  lemma PartsText(parts: seq<string>)
    requires parts != [] && AllIdentifiers(parts)
    ensures Split(Join(parts, '.'), '.') == parts && '+' !in Join(parts, '.')
  {
    forall i | 0 <= i < |parts| ensures '.' !in parts[i] && '+' !in parts[i] {
      IdentifierChars(parts[i]);
    }
    SplitJoin(parts, '.');
    JoinedChars(parts, '.', '+');
  }

  /** Every valid version is read back from its text, with or without the leading letter. */
  lemma ParseFormat(v: Version, build: seq<string>, letter: bool)
    requires ValidVersion(v) && AllIdentifiers(build)
    requires |(if letter then "v" else "") + Format(v, build)| <= MAX_UPDATE_VERSION_LENGTH
    ensures ParseVersion((if letter then "v" else "") + Format(v, build)) == Some(v)
  {
    hide Split, Join, FirstIndex, Cut, IsNumeral, IsNumeric;
    var core := Join([v.major, v.minor, v.patch], '.');
    var pre := if v.prerelease == [] then "" else "-" + Join(v.prerelease, '.');
    var plain := core + pre;
    CoreText(v);
    if v.prerelease != [] {
      PartsText(v.prerelease);
      assert plain == core + ['-'] + Join(v.prerelease, '.');
      CutAt(core, '-', Join(v.prerelease, '.'));
    } else {
      assert plain == core;
      CutAt(core, '-', "");
    }
    if build != [] {
      PartsText(build);
      assert Format(v, build) == plain + ['+'] + Join(build, '.');
      CutAt(plain, '+', Join(build, '.'));
    } else {
      assert Format(v, build) == plain;
      CutAt(plain, '+', "");
    }
    assert Format(v, build)[0] == core[0];
    var text := (if letter then "v" else "") + Format(v, build);
    assert (if text[0] == 'v' then text[1..] else text) == Format(v, build);
  }

  lemma CutBack(s: string, c: char)
    ensures var (a, rest) := Cut(s, c); s == if rest.None? then a else a + [c] + rest.value
  {
    var i := FirstIndex(s, c);
    if i < |s| {
      assert s == s[..i] + [c] + s[i + 1..];
    }
  }

  predicate IsTextOf(text: string, v: Version, build: seq<string>, letter: bool)
  {
    AllIdentifiers(build) && text == (if letter then "v" else "") + Format(v, build)
  }

  function Bare(text: string): string { if text != [] && text[0] == 'v' then text[1..] else text }

  /** The pieces an accepted text was cut into. */
  lemma ParsedPieces(text: string)
    requires ParseVersion(text).Some?
    ensures var v := ParseVersion(text).value;
            var (plain, tail) := Cut(Bare(text), '+');
            var (core, prerelease) := Cut(plain, '-');
            && Split(core, '.') == [v.major, v.minor, v.patch]
            && v.prerelease == (if prerelease.Some? then Split(prerelease.value, '.') else [])
            && (tail.Some? ==> AllIdentifiers(Split(tail.value, '.')))
    ensures text != [] && text == (if text[0] == 'v' then "v" else "") + Bare(text)
  {
    hide Split, Cut, IsNumeral, AllIdentifiers, AllPrerelease;
  }

  /** Nothing else is accepted: every accepted text is the text of its version. */
  lemma ParsedIsFormatted(text: string)
    requires ParseVersion(text).Some?
    ensures exists build, letter :: IsTextOf(text, ParseVersion(text).value, build, letter)
  {
    hide ParseVersion, Split, Join, Cut, Bare, AllIdentifiers;
    ParsedPieces(text);
    var v := ParseVersion(text).value;
    var (plain, tail) := Cut(Bare(text), '+');
    var (core, prerelease) := Cut(plain, '-');
    CutBack(Bare(text), '+');
    CutBack(plain, '-');
    JoinSplit(core, '.');
    if prerelease.Some? {
      JoinSplit(prerelease.value, '.');
    }
    var build := if tail.Some? then Split(tail.value, '.') else [];
    if tail.Some? {
      JoinSplit(tail.value, '.');
    }
    NoIdentifiers();
    assert Bare(text) == Format(v, build);
    assert IsTextOf(text, v, build, text[0] == 'v');
  }

  lemma NoIdentifiers()
    ensures AllIdentifiers([])
  {
  }

  // ----- numerals --------------------------------------------------------

  /** `compareNumericIdentifiers`: by length, then by text. */
  function CompareNumerals(left: string, right: string): Ordering
  {
    if |left| != |right| then (if |left| > |right| then GT else LT)
    else if left == right then EQ
    else if Less(right, left) then GT else LT
  }

  function Digit(c: char): nat
    requires IsDigit(c)
  {
    c as int - '0' as int
  }

  lemma {:induction false} ValueHead(s: string)
    requires IsNumeric(s)
    ensures Value(s) == Digit(s[0]) * Pow10(|s| - 1) + Value(s[1..])
    ensures Value(s[1..]) < Pow10(|s| - 1)
  {
    if |s| == 1 {
      assert s[..0] == [];
    } else {
      var front, tail := s[..|s| - 1], s[1..];
      ValueHead(front);
      assert tail[..|tail| - 1] == front[1..];
      assert front[0] == s[0];
      TimesTen(Digit(s[0]), Pow10(|s| - 2));
    }
  }

  lemma TimesTen(d: nat, p: nat)
    ensures 10 * (d * p) == d * (10 * p)
  {
  }

  lemma Bounds(s: string)
    requires IsNumeric(s)
    ensures Value(s) < Pow10(|s|)
    ensures s[0] != '0' ==> Value(s) >= Pow10(|s| - 1)
  {
    ValueHead(s);
    HeadTimes(Digit(s[0]), Pow10(|s| - 1));
  }

  lemma HeadTimes(d: nat, p: nat)
    requires d <= 9
    ensures d * p + p <= 10 * p && (d > 0 ==> d * p >= p)
  {
  }

  lemma {:induction false} PowersGrow(m: nat, n: nat)
    requires m <= n
    ensures Pow10(m) <= Pow10(n)
    decreases n
  {
    if m < n {
      PowersGrow(m, n - 1);
    }
  }

  /** The digits of equal-length numerals order them as their values do. */
  lemma {:induction false} LessIsSmaller(a: string, b: string)
    requires IsNumeric(a) && IsNumeric(b) && |a| == |b| && Less(a, b)
    ensures Value(a) < Value(b)
    decreases |a|
  {
    ValueHead(a);
    ValueHead(b);
    if a[0] == b[0] {
      if |a| > 1 {
        LessIsSmaller(a[1..], b[1..]);
      }
    } else {
      DigitGap(Digit(a[0]), Digit(b[0]), Pow10(|a| - 1));
    }
  }

  lemma DigitGap(d: nat, e: nat, p: nat)
    requires d < e
    ensures d * p + p <= e * p
  {
    assert e * p == d * p + p + (e - d - 1) * p;
  }

  /** By length and text is by number: without leading zeros the two agree. */
  lemma NumeralsByValue(left: string, right: string)
    requires IsNumeral(left) && IsNumeral(right)
    ensures CompareNumerals(left, right) == CompareNat(Value(left), Value(right))
  {
    hide Value, Pow10;
    if |left| < |right| {
      ShorterIsSmaller(left, right);
    } else if |right| < |left| {
      ShorterIsSmaller(right, left);
    } else {
      LessTotal(left, right);
      if Less(left, right) {
        LessAsymmetric(left, right);
        LessIsSmaller(left, right);
        LessIrreflexive(left);
      } else if left != right {
        LessIsSmaller(right, left);
      }
    }
  }

  lemma ShorterIsSmaller(a: string, b: string)
    requires IsNumeral(a) && IsNumeral(b) && |a| < |b|
    ensures Value(a) < Value(b)
  {
    hide Value, Pow10;
    Bounds(a);
    Bounds(b);
    PowersGrow(|a|, |b| - 1);
  }

  /** With leading zeros they would not: the pattern's refusal of them is needed. */
  lemma LeadingZerosDisagree()
    ensures CompareNumerals("02", "1") == GT && CompareNumerals("01", "1") != CompareNat(Value("01"), Value("1"))
  {
    assert "01"[..1] == "0" && "0"[..0] == [] && "1"[..0] == [];
  }

  // ----- precedence, as section 11 has it -------------------------------

  /** Numeric identifiers by number, below the others; the others by text. */
  function CompareIdentifiers(a: string, b: string): Ordering
  {
    if IsNumeric(a) && IsNumeric(b) then CompareNat(Value(a), Value(b))
    else if IsNumeric(a) then LT
    else if IsNumeric(b) then GT
    else CompareText(a, b)
  }

  /** Field by field; a longer list of equal fields is greater. */
  function CompareLists(l: seq<string>, r: seq<string>): Ordering
  {
    if l == [] && r == [] then EQ
    else if l == [] then LT
    else if r == [] then GT
    else Then(CompareIdentifiers(l[0], r[0]), CompareLists(l[1..], r[1..]))
  }

  /** A version with a prerelease comes before the one without. */
  function ComparePrereleases(l: seq<string>, r: seq<string>): Ordering
  {
    if l == [] && r == [] then EQ
    else if l == [] then GT
    else if r == [] then LT
    else CompareLists(l, r)
  }

  function Precedence(l: Version, r: Version): Ordering
    requires ValidVersion(l) && ValidVersion(r)
  {
    Then(CompareNat(Value(l.major), Value(r.major)),
         Then(CompareNat(Value(l.minor), Value(r.minor)),
              Then(CompareNat(Value(l.patch), Value(r.patch)), ComparePrereleases(l.prerelease, r.prerelease))))
  }

  function Sign(o: Ordering): int
  {
    match o
    case LT => -1
    case EQ => 0
    case GT => 1
  }

  // ----- the comparison of the source -----------------------------------

  lemma NumeralsEqual(a: string, b: string)
    requires IsNumeral(a) && IsNumeral(b)
    ensures Value(a) == Value(b) <==> a == b
  {
    NumeralsByValue(a, b);
    LessTotal(a, b);
  }

  lemma IdentifiersEqual(a: string, b: string)
    requires ValidPrerelease(a) && ValidPrerelease(b)
    ensures CompareIdentifiers(a, b) == EQ <==> a == b
  {
    hide Value, IsNumeric;
    if IsNumeric(a) && IsNumeric(b) {
      NumeralsEqual(a, b);
    }
  }

  /** The index loop over the prerelease fields. */
  method ComparePrereleaseFields(l: seq<string>, r: seq<string>) returns (result: int)
    requires AllPrerelease(l) && AllPrerelease(r)
    ensures result == Sign(CompareLists(l, r))
  {
    hide Value, IsNumeric, IsNumeral, IsIdentifier, Less;
    var most := if |l| >= |r| then |l| else |r|;
    for index := 0 to most
      invariant index <= |l| && index <= |r|
      invariant CompareLists(l, r) == CompareLists(l[index..], r[index..])
    {
      if index >= |l| {
        return -1;
      }
      if index >= |r| {
        return 1;
      }
      var left, right := l[index], r[index];
      IdentifiersEqual(left, right);
      assert l[index..][1..] == l[index + 1..] && r[index..][1..] == r[index + 1..];
      if left == right {
        continue;
      }
      if IsNumeric(left) && IsNumeric(right) {
        NumeralsByValue(left, right);
        return Sign(CompareNumerals(left, right));
      }
      if IsNumeric(left) != IsNumeric(right) {
        return if IsNumeric(left) then -1 else 1;
      }
      LessTotal(left, right);
      if Less(right, left) {
        LessAsymmetric(right, left);
        return 1;
      }
      return -1;
    }
    result := 0;
  }

  /** `compareParsedVersions`. */
  method CompareParsedVersions(l: Version, r: Version) returns (result: int)
    requires ValidVersion(l) && ValidVersion(r)
    ensures result == Sign(Precedence(l, r))
  {
    hide Value, IsNumeral, CompareLists;
    NumeralsByValue(l.major, r.major);
    NumeralsByValue(l.minor, r.minor);
    NumeralsByValue(l.patch, r.patch);
    var lefts, rights := [l.major, l.minor, l.patch], [r.major, r.minor, r.patch];
    for key := 0 to 3
      invariant forall k :: 0 <= k < key ==> CompareNumerals(lefts[k], rights[k]) == EQ
    {
      var comparison := CompareNumerals(lefts[key], rights[key]);
      if comparison != EQ {
        assert key > 0 ==> CompareNumerals(lefts[0], rights[0]) == EQ;
        assert key > 1 ==> CompareNumerals(lefts[1], rights[1]) == EQ;
        return Sign(comparison);
      }
    }
    assert forall k :: 0 <= k < 3 ==> CompareNumerals(lefts[k], rights[k]) == EQ;
    assert CompareNumerals(lefts[0], rights[0]) == EQ && CompareNumerals(lefts[1], rights[1]) == EQ;
    assert CompareNumerals(lefts[2], rights[2]) == EQ;
    if l.prerelease == [] && r.prerelease != [] {
      return 1;
    }
    if l.prerelease != [] && r.prerelease == [] {
      return -1;
    }
    result := ComparePrereleaseFields(l.prerelease, r.prerelease);
    NothingToCompare();
  }

  lemma NothingToCompare()
    ensures CompareLists([], []) == EQ
  {
  }

  /** `compareVersions`: nothing unless both texts are versions. */
  method CompareVersions(left: string, right: string) returns (result: Option<int>)
    ensures result.Some? <==> ParseVersion(left).Some? && ParseVersion(right).Some?
    ensures result.Some? ==>
              && ValidVersion(ParseVersion(left).value) && ValidVersion(ParseVersion(right).value)
              && result.value == Sign(Precedence(ParseVersion(left).value, ParseVersion(right).value))
  {
    hide ParseVersion, Precedence, ValidVersion;
    ParsedIsValid(left);
    ParsedIsValid(right);
    var l, r := ParseVersion(left), ParseVersion(right);
    if l.None? || r.None? {
      return None;
    }
    var sign := CompareParsedVersions(l.value, r.value);
    result := Some(sign);
  }

  // ----- section 11, rule by rule ----------------------------------------

  /** Major, minor and patch decide first, each by its number. */
  lemma NumbersDecide(l: Version, r: Version)
    requires ValidVersion(l) && ValidVersion(r)
    ensures Value(l.major) < Value(r.major) ==> Precedence(l, r) == LT
    ensures l.major == r.major && Value(l.minor) < Value(r.minor) ==> Precedence(l, r) == LT
    ensures l.major == r.major && l.minor == r.minor && Value(l.patch) < Value(r.patch) ==> Precedence(l, r) == LT
  {
    hide Value, IsNumeral, ComparePrereleases;
  }

  predicate SameNumbers(l: Version, r: Version) { l.major == r.major && l.minor == r.minor && l.patch == r.patch }

  /** A prerelease comes before its release. */
  lemma PrereleaseComesFirst(l: Version, r: Version)
    requires ValidVersion(l) && ValidVersion(r) && SameNumbers(l, r)
    requires l.prerelease != [] && r.prerelease == []
    ensures Precedence(l, r) == LT && Precedence(r, l) == GT
  {
    hide Value, IsNumeral, CompareLists;
  }

  /** Numbers come before words and are ordered by value, words by the text. */
  predicate Earlier(a: string, b: string)
  {
    if AllDigits(a) && AllDigits(b) then Value(a) < Value(b)
    else if AllDigits(a) || AllDigits(b) then AllDigits(a)
    else Less(a, b)
  }

  lemma EarlierIdentifier(a: string, b: string)
    requires a != "" && b != ""
    ensures CompareIdentifiers(a, b) == LT <==> a != b && Earlier(a, b)
  {
    hide Value, Less;
  }

  /** The first fields that differ decide. */
  lemma {:induction false} FirstDifferenceDecides(l: seq<string>, r: seq<string>, k: nat)
    requires AllPrerelease(l) && AllPrerelease(r) && k < |l| && k < |r| && l[..k] == r[..k] && l[k] != r[k]
    ensures CompareLists(l, r) == CompareIdentifiers(l[k], r[k])
    ensures CompareLists(l, r) == LT <==> Earlier(l[k], r[k])
    decreases k
  {
    hide Value, CompareIdentifiers, Earlier, ValidPrerelease;
    SomeText(l[k]);
    SomeText(r[k]);
    EarlierIdentifier(l[k], r[k]);
    IdentifiersEqual(l[k], r[k]);
    if k > 0 {
      assert l[0] == l[..k][0] == r[..k][0] == r[0];
      IdentifiersEqual(l[0], r[0]);
      assert l[1..][..k - 1] == l[..k][1..] && r[1..][..k - 1] == r[..k][1..];
      FirstDifferenceDecides(l[1..], r[1..], k - 1);
    }
  }

  lemma SomeText(s: string)
    requires ValidPrerelease(s)
    ensures s != ""
  {
  }

  /** If all fields of the shorter list are the first of the longer one, the longer one comes later. */
  lemma {:induction false} LongerComesLater(l: seq<string>, r: seq<string>)
    requires AllPrerelease(r) && |l| < |r| && l == r[..|l|]
    ensures CompareLists(l, r) == LT
    decreases |l|
  {
    hide CompareIdentifiers, ValidPrerelease;
    if l != [] {
      assert l[0] == r[0];
      IdentifiersEqual(l[0], r[0]);
      assert l[1..] == r[1..][..|l| - 1];
      LongerComesLater(l[1..], r[1..]);
    }
  }

  /** Between two prereleases of one release the fields decide: the first different ones, or the number of them. */
  lemma PrereleaseFieldsDecide(l: Version, r: Version, k: nat)
    requires ValidVersion(l) && ValidVersion(r) && SameNumbers(l, r)
    requires k < |r.prerelease| && k <= |l.prerelease| && l.prerelease[..k] == r.prerelease[..k] && l.prerelease != []
    ensures k < |l.prerelease| && l.prerelease[k] != r.prerelease[k] ==>
              (Precedence(l, r) == LT <==> Earlier(l.prerelease[k], r.prerelease[k]))
    ensures k == |l.prerelease| ==> Precedence(l, r) == LT
  {
    hide Value, IsNumeral, CompareLists, Earlier;
    if k == |l.prerelease| {
      LongerComesLater(l.prerelease, r.prerelease);
    } else if l.prerelease[k] != r.prerelease[k] {
      FirstDifferenceDecides(l.prerelease, r.prerelease, k);
    }
  }

  // ----- the order it defines -------------------------------------------

  lemma IdentifierLaws(a: string, b: string, c: string)
    ensures CompareIdentifiers(b, a) == Flip(CompareIdentifiers(a, b))
    ensures Consistent(CompareIdentifiers(a, b), CompareIdentifiers(b, c), CompareIdentifiers(a, c))
  {
    hide Value, IsNumeric, CompareText;
    CompareTextLaws(a, b, c);
    CompareTextLaws(a, c, b);
  }

  lemma {:induction false} ListLaws(a: seq<string>, b: seq<string>, c: seq<string>)
    ensures CompareLists(b, a) == Flip(CompareLists(a, b))
    ensures Consistent(CompareLists(a, b), CompareLists(b, c), CompareLists(a, c))
    decreases |a| + |b| + |c|
  {
    hide CompareIdentifiers;
    if a != [] && b != [] {
      if c != [] {
        ListLaws(a[1..], b[1..], c[1..]);
        IdentifierLaws(a[0], b[0], c[0]);
        ThenConsistent(
          CompareIdentifiers(a[0], b[0]), CompareIdentifiers(b[0], c[0]), CompareIdentifiers(a[0], c[0]),
          CompareLists(a[1..], b[1..]), CompareLists(b[1..], c[1..]), CompareLists(a[1..], c[1..]));
      } else {
        ListLaws(a[1..], b[1..], []);
        IdentifierLaws(a[0], b[0], a[0]);
      }
    }
  }

  lemma {:induction false} ListsEqual(a: seq<string>, b: seq<string>)
    requires AllPrerelease(a) && AllPrerelease(b)
    ensures CompareLists(a, b) == EQ <==> a == b
    decreases |a|
  {
    hide CompareIdentifiers, ValidPrerelease;
    if a != [] && b != [] {
      IdentifiersEqual(a[0], b[0]);
      ListsEqual(a[1..], b[1..]);
      assert a == [a[0]] + a[1..] && b == [b[0]] + b[1..];
    }
  }

  lemma PrereleaseLaws(a: seq<string>, b: seq<string>, c: seq<string>)
    ensures ComparePrereleases(b, a) == Flip(ComparePrereleases(a, b))
    ensures Consistent(ComparePrereleases(a, b), ComparePrereleases(b, c), ComparePrereleases(a, c))
  {
    hide CompareLists;
    ListLaws(a, b, c);
  }

  /**
   The comparison is a total preorder on accepted versions: its sign flips with the arguments,
   it is transitive, and it is zero exactly for versions equal but for build metadata.
   */
  lemma PrecedenceIsTotalPreorder(a: Version, b: Version, c: Version)
    requires ValidVersion(a) && ValidVersion(b) && ValidVersion(c)
    ensures Sign(Precedence(b, a)) == -Sign(Precedence(a, b))
    ensures Precedence(a, b) == EQ <==> a == b
    ensures Sign(Precedence(a, b)) <= 0 && Sign(Precedence(b, c)) <= 0 ==> Sign(Precedence(a, c)) <= 0
    ensures Sign(Precedence(a, b)) < 0 && Sign(Precedence(b, c)) <= 0 ==> Sign(Precedence(a, c)) < 0
    ensures Sign(Precedence(a, b)) <= 0 && Sign(Precedence(b, c)) < 0 ==> Sign(Precedence(a, c)) < 0
  {
    hide Value, IsNumeral, CompareLists, ComparePrereleases;
    PrereleaseLaws(a.prerelease, b.prerelease, c.prerelease);
    PrereleasesEqual(a.prerelease, b.prerelease);
    NumeralsEqual(a.major, b.major);
    NumeralsEqual(a.minor, b.minor);
    NumeralsEqual(a.patch, b.patch);
  }

  lemma PrereleasesEqual(a: seq<string>, b: seq<string>)
    requires AllPrerelease(a) && AllPrerelease(b)
    ensures ComparePrereleases(a, b) == EQ <==> a == b
  {
    hide CompareLists;
    ListsEqual(a, b);
  }
}
