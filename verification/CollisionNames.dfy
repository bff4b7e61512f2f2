/**
 The destination names tried for one received file: the wire name itself, then the
 numbered variants "stem (k).extension" cut to the file-name limit.
 */
module CollisionNames {
  import opened Wrappers
  import opened Text
  import FileNames

  const MAX_COLLISION_ATTEMPTS: nat := 100_000

  /** The indices the loop can count are 32-bit. */
  const INDEX_LIMIT: nat := 0x1_0000_0000

  function SaturatingSub(a: nat, b: nat): nat { if a < b then 0 else a - b }

  // ----- splitting a name at its last dot -------------------------------

  /** The position of the last dot, if there is one. */
  function LastDot(s: string): (r: Option<nat>)
    ensures r.None? ==> '.' !in s
    ensures r.Some? ==> r.value < |s| && s[r.value] == '.' && '.' !in s[r.value + 1..]
  {
    if s == [] then None
    else if s[|s| - 1] == '.' then Some(|s| - 1)
    else
      var front := s[..|s| - 1];
      match LastDot(front)
      case None => None
      case Some(i) =>
        assert s[i + 1..] == front[i + 1..] + [s[|s| - 1]];
        Some(i)
  }

  /** Where `Path::file_stem` and `Path::extension` split: the last dot, unless it leads the name. */
  function SplitPoint(name: string): (r: Option<nat>)
  {
    match LastDot(name)
    case None => None
    case Some(i) => if name == ".." || i == 0 then None else Some(i)
  }

  function FileStem(name: string): string
  {
    match SplitPoint(name)
    case None => name
    case Some(i) => name[..i]
  }

  function Extension(name: string): (r: Option<string>)
    ensures r.Some? ==> '.' !in r.value
  {
    match SplitPoint(name)
    case None => None
    case Some(i) => Some(name[i + 1..])
  }

  // ----- collision_name --------------------------------------------------

  function Suffix(index: nat): string { " (" + Decimal(index) + ")" }

  function WithoutLeadingDot(extension: string): string
  {
    if extension != "" && extension[0] == '.' then extension[1..] else extension
  }

  function ExtensionBudget(index: nat): nat
  {
    SaturatingSub(SaturatingSub(FileNames.MAX_FILENAME_BYTES, Utf8Len(Suffix(index))), 1)
  }

  function CutExtension(extension: string, index: nat): string
  {
    Truncated(WithoutLeadingDot(extension), ExtensionBudget(index))
  }

  function NumberedStem(stem: string, index: nat): string
  {
    Truncated(stem, SaturatingSub(FileNames.MAX_FILENAME_BYTES, Utf8Len(Suffix(index)))) + Suffix(index)
  }

  function StemBudget(extension: string, index: nat): nat
  {
    SaturatingSub(
      SaturatingSub(SaturatingSub(FileNames.MAX_FILENAME_BYTES, Utf8Len(Suffix(index))), Utf8Len(extension)), 1)
  }

  /** The variant number `index` of a stem and an extension. */
  function CollisionName(stem: string, extension: string, index: nat): string
  {
    var cut := CutExtension(extension, index);
    if WithoutLeadingDot(extension) == "" || cut == "" then NumberedStem(stem, index)
    else Truncated(stem, StemBudget(cut, index)) + Suffix(index) + "." + cut
  }

  /** `collision_name`: the budgets are taken in the source's order and cut in place. */
  method MakeCollisionName(stem: string, extension: string, index: nat) returns (name: string)
    ensures name == CollisionName(stem, extension, index)
  {
    var suffix := Suffix(index);
    var bare := if extension != "" && extension[0] == '.' then extension[1..] else extension;
    if bare == "" {
      var cutStem := TruncateUtf8(stem, SaturatingSub(FileNames.MAX_FILENAME_BYTES, Utf8Len(suffix)));
      return cutStem + suffix;
    }
    var budget := SaturatingSub(SaturatingSub(FileNames.MAX_FILENAME_BYTES, Utf8Len(suffix)), 1);
    var cut := TruncateUtf8(bare, budget);
    if cut == "" {
      var cutStem := TruncateUtf8(stem, SaturatingSub(FileNames.MAX_FILENAME_BYTES, Utf8Len(suffix)));
      return cutStem + suffix;
    }
    var cutStem := TruncateUtf8(stem, StemBudget(cut, index));
    name := cutStem + suffix + "." + cut;
  }

  /** The name tried at position `index` of the search for a free destination. */
  function Candidate(name: string, index: nat): string
  {
    if index == 0 then name
    else match Extension(name)
      case None => CollisionName(FileStem(name), "", index)
      case Some(extension) => CollisionName(FileStem(name), extension, index)
  }

  // ----- lengths ---------------------------------------------------------

  lemma SuffixWidth(index: nat)
    requires index < INDEX_LIMIT
    ensures 4 <= Utf8Len(Suffix(index)) <= 13
  {
    assert INDEX_LIMIT < Pow10(10) by {
      assert Pow10(2) == 100 && Pow10(4) == 10_000 && Pow10(6) == 1_000_000;
      assert Pow10(8) == 100_000_000 && Pow10(10) == 10_000_000_000;
    }
    DecimalLength(index, 10);
    var s := Suffix(index);
    forall i | 0 <= i < |s| ensures s[i] as int < 0x80 {
      if 2 <= i < |s| - 1 {
        assert s[i] == Decimal(index)[i - 2];
      }
    }
    Utf8LenAscii(s);
  }

  /** No variant is longer than the file-name limit, whatever the stem and the extension. */
  lemma CollisionNameFits(stem: string, extension: string, index: nat)
    requires index < INDEX_LIMIT
    ensures Utf8Len(CollisionName(stem, extension, index)) <= FileNames.MAX_FILENAME_BYTES
  {
    SuffixWidth(index);
    var suffix := Suffix(index);
    var cut := CutExtension(extension, index);
    if WithoutLeadingDot(extension) == "" || cut == "" {
      Utf8LenConcat(
        Truncated(stem, SaturatingSub(FileNames.MAX_FILENAME_BYTES, Utf8Len(suffix))), suffix);
    } else {
      var cutStem := Truncated(stem, StemBudget(cut, index));
      Utf8LenAscii(".");
      Utf8LenConcat(cutStem, suffix);
      Utf8LenConcat(cutStem + suffix, ".");
      Utf8LenConcat(cutStem + suffix + ".", cut);
    }
  }

  // ----- how a variant is spelled ---------------------------------------

  lemma SplitAtLastDot(stem: string, extension: string)
    requires stem != "" && '.' !in extension && stem + "." + extension != ".."
    ensures var name := stem + "." + extension; FileStem(name) == stem && Extension(name) == Some(extension)
  {
    var name := stem + "." + extension;
    assert name[|stem|] == '.';
    var i := LastDot(name).value;
    assert name == name[..i] + "." + name[i + 1..];
    LastDotUnique(name[..i], name[i + 1..], stem, extension);
    assert i == |stem|;
    assert name[i + 1..] == extension;
  }

  /** A leading dot starts no extension. */
  lemma NoExtension(name: string)
    requires forall j :: 1 <= j < |name| ==> name[j] != '.'
    ensures FileStem(name) == name && Extension(name) == None
  {
  }

  /** Where everything fits, the number stands between the stem and the extension. */
  lemma VariantSpelled(stem: string, extension: string, k: nat)
    requires stem != "" && extension != "" && '.' !in extension && 1 <= k < INDEX_LIMIT
    requires Utf8Len(stem) + 1 + Utf8Len(extension) + |Decimal(k)| + 3 <= FileNames.MAX_FILENAME_BYTES
    ensures Candidate(stem + "." + extension, k) == stem + " (" + Decimal(k) + ")" + "." + extension
  {
    hide Utf8Len, FileStem, Extension;
    SplitAtLastDot(stem, extension);
    SuffixSpelled(k);
    Utf8LenBounds(extension);
    assert CutExtension(extension, k) == extension;
    assert stem + " (" + Decimal(k) + ")" == stem + Suffix(k);
  }

  lemma SuffixSpelled(k: nat)
    ensures Suffix(k) == " (" + Decimal(k) + ")" && Utf8Len(Suffix(k)) == |Decimal(k)| + 3
  {
    var s := Suffix(k);
    forall i | 0 <= i < |s| ensures s[i] as int < 0x80 {
      if 2 <= i < |s| - 1 {
        assert s[i] == Decimal(k)[i - 2];
      }
    }
    Utf8LenAscii(s);
  }

  /** Without an extension it stands at the end, after as much of the name as fits. */
  lemma PlainVariantSpelled(name: string, k: nat)
    requires (forall j :: 1 <= j < |name| ==> name[j] != '.') && 1 <= k < INDEX_LIMIT
    requires |Decimal(k)| + 3 <= FileNames.MAX_FILENAME_BYTES
    ensures Candidate(name, k) ==
            Truncated(name, FileNames.MAX_FILENAME_BYTES - |Decimal(k)| - 3) + " (" + Decimal(k) + ")"
  {
    hide Utf8Len, FileStem, Extension, Truncated;
    NoExtension(name);
    SuffixSpelled(k);
    var cut := Truncated(name, FileNames.MAX_FILENAME_BYTES - |Decimal(k)| - 3);
    assert cut + " (" + Decimal(k) + ")" == cut + Suffix(k);
  }

  // ----- distinctness ----------------------------------------------------

  lemma LastDotUnique(a: string, e: string, b: string, f: string)
    requires '.' !in e && '.' !in f
    requires a + "." + e == b + "." + f
    ensures a == b
  {
    var s := a + "." + e;
    assert s[|a|] == '.' && s[|b|] == '.';
    assert forall i :: |a| < i < |s| ==> s[i] == e[i - |a| - 1];
    assert forall i :: |b| < i < |s| ==> s[i] == f[i - |b| - 1];
    assert |a| == |b|;
    assert a == s[..|a|] && b == s[..|b|];
  }

  lemma NumberedNamesDiffer(a: string, j: nat, b: string, k: nat)
    requires a + Suffix(j) == b + Suffix(k)
    ensures j == k
  {
    var s := a + Suffix(j);
    assert s[..|s| - 1] == (a + " (") + Decimal(j);
    assert s[..|s| - 1] == (b + " (") + Decimal(k);
    LastNumeralUnique(a + " (", Decimal(j), b + " (", Decimal(k));
    DecimalInjective(j, k);
  }

  lemma CutExtensionKeepsSomething(extension: string, index: nat)
    requires index < INDEX_LIMIT && extension != "" && '.' !in extension
    ensures WithoutLeadingDot(extension) == extension
    ensures CutExtension(extension, index) != "" && '.' !in CutExtension(extension, index)
  {
    SuffixWidth(index);
    assert extension[0] != '.';
    assert extension[..1][..0] == [];
    assert Utf8Len(extension[..1]) == Utf8Len(extension[..1][..0]) + Utf8Width(extension[0]);
    TruncatedIsLongest(extension, ExtensionBudget(index), extension[..1]);
  }

  /** Two numbered variants of one name are never the same string. */
  lemma CandidatesDistinct(name: string, j: nat, k: nat)
    requires 1 <= j < k < INDEX_LIMIT
    ensures Candidate(name, j) != Candidate(name, k)
  {
    var stem := FileStem(name);
    if Candidate(name, j) == Candidate(name, k) {
      var width := FileNames.MAX_FILENAME_BYTES;
      if Extension(name).None? || Extension(name).value == "" {
        NumberedNamesDiffer(
          Truncated(stem, SaturatingSub(width, Utf8Len(Suffix(j)))), j,
          Truncated(stem, SaturatingSub(width, Utf8Len(Suffix(k)))), k);
      } else {
        var extension := Extension(name).value;
        CutExtensionKeepsSomething(extension, j);
        CutExtensionKeepsSomething(extension, k);
        var cutJ, cutK := CutExtension(extension, j), CutExtension(extension, k);
        var stemJ, stemK := Truncated(stem, StemBudget(cutJ, j)), Truncated(stem, StemBudget(cutK, k));
        LastDotUnique(stemJ + Suffix(j), cutJ, stemK + Suffix(k), cutK);
        NumberedNamesDiffer(stemJ, j, stemK, k);
      }
      assert false;
    }
  }

  /** Position 0 is outside that claim: a name that already is its own first variant. */
  lemma FirstCandidateMayRepeat()
    ensures exists name :: FileNames.SafeFileName(name) && Candidate(name, 0) == Candidate(name, 1)
  {
    hide FileNames.SafeFileName;
    var body := seq(251, _ => 'a');
    OwnFirstVariant(body);
    NumberedNameIsSafe(body);
    assert Candidate(body + " (1)", 0) == Candidate(body + " (1)", 1);
  }

  lemma OwnFirstVariant(body: string)
    requires |body| == 251 && forall i :: 0 <= i < |body| ==> body[i] == 'a'
    ensures Utf8Len(body + " (1)") == 255
    ensures Candidate(body + " (1)", 1) == body + " (1)"
  {
    var name := body + " (1)";
    assert Suffix(1) == " (1)" by { assert Decimal(1) == "1"; }
    Utf8LenAscii(body);
    Utf8LenAscii(" (1)");
    Utf8LenConcat(body, " (1)");
    assert FileStem(name) == name && Extension(name) == None by { assert '.' !in name; }
    TruncatedIsLongest(name, 251, body);
    var cut := Truncated(name, 251);
    Utf8LenBounds(cut);
    assert cut == body;
  }

  lemma NumberedNameIsSafe(body: string)
    requires |body| == 251 && forall i :: 0 <= i < |body| ==> body[i] == 'a'
    ensures FileNames.SafeFileName(body + " (1)")
  {
    hide Candidate, FileNames.IsReserved, FileNames.SafeFileName;
    var name := body + " (1)";
    OwnFirstVariant(body);
    assert '.' !in name && name[|name| - 1] == ')';
    LongNameNotReserved(name);
    FileNames.SafeUnlessReserved(name);
  }

  lemma LongNameNotReserved(name: string)
    requires |name| > 20 && '.' !in name && name[|name| - 1] != ' '
    ensures !FileNames.IsReserved(name)
  {
    assert FileNames.BeforeDot(name) == name;
    assert FileNames.TrailingMarkers(name) == 0;
    assert |FileNames.AsciiUpper(FileNames.TrimMarkers(name))| > 20;
    assert forall r :: r in FileNames.RESERVED ==> |r| <= 4;
  }

  /** The stem already ends with the suffix of variant `k`. */
  predicate EndsInSuffix(stem: string, k: nat)
  {
    |Suffix(k)| <= |stem| && stem[|stem| - |Suffix(k)|..] == Suffix(k)
  }

  lemma SuffixBytes(k: nat)
    requires k < INDEX_LIMIT
    ensures Utf8Len(Suffix(k)) == |Suffix(k)| <= 13
  {
    SuffixWidth(k);
    var s := Suffix(k);
    forall i | 0 <= i < |s| ensures s[i] as int < 0x80 {
      if 2 <= i < |s| - 1 {
        assert s[i] == Decimal(k)[i - 2];
      }
    }
    Utf8LenAscii(s);
  }

  /** Cutting a stem to a budget and numbering it gives it back exactly if it is numbered and fills the room. */
  lemma NumberedAgain(stem: string, k: nat, room: nat)
    requires k < INDEX_LIMIT && Utf8Len(stem) <= room
    ensures Truncated(stem, SaturatingSub(room, Utf8Len(Suffix(k)))) + Suffix(k) == stem <==>
            Utf8Len(stem) == room && EndsInSuffix(stem, k)
  {
    hide Suffix, Truncated, Utf8Len;
    SuffixBytes(k);
    var suffix := Suffix(k);
    var budget := SaturatingSub(room, |suffix|);
    var cut := Truncated(stem, budget);
    if cut + suffix == stem {
      assert stem[|stem| - |suffix|..] == suffix;
      Utf8LenConcat(cut, suffix);
      SuffixStartsAscii(k);
      assert stem[|cut|] == suffix[0];
      NoRoomLeft(stem, budget);
    }
    if Utf8Len(stem) == room && EndsInSuffix(stem, k) {
      var head := stem[..|stem| - |suffix|];
      assert stem == head + suffix;
      Utf8LenConcat(head, suffix);
      TruncatedIsLongest(stem, budget, head);
      PrefixBytes(stem, head, cut);
    }
  }

  /** The longest prefix leaves no room for an ASCII character that follows it. */
  lemma NoRoomLeft(stem: string, budget: nat)
    requires |Truncated(stem, budget)| < |stem| && stem[|Truncated(stem, budget)|] as int < 0x80
    ensures Utf8Len(Truncated(stem, budget)) >= budget
  {
    hide Truncated;
    var cut := Truncated(stem, budget);
    if Utf8Len(cut) < budget {
      var longer := stem[..|cut| + 1];
      assert longer[..|cut|] == cut;
      TruncatedIsLongest(stem, budget, longer);
    }
  }

  lemma SuffixStartsAscii(k: nat)
    ensures Suffix(k) != "" && Suffix(k)[0] == ' '
  {
  }

  /** Equal byte lengths make a prefix of a prefix the whole of it. */
  lemma PrefixBytes(stem: string, head: string, cut: string)
    requires head <= cut <= stem && Utf8Len(cut) <= Utf8Len(head)
    ensures head == cut
  {
    hide Utf8Len;
    assert cut == head + cut[|head|..];
    Utf8LenConcat(head, cut[|head|..]);
    Utf8LenBounds(cut[|head|..]);
  }

  lemma SafeNameSplits(name: string)
    requires FileNames.SafeFileName(name)
    ensures match Extension(name)
            case None => FileStem(name) == name
            case Some(e) => e != "" && name == FileStem(name) + "." + e
    ensures Utf8Len(name) <= FileNames.MAX_FILENAME_BYTES
  {
    match SplitPoint(name)
    case None =>
    case Some(i) =>
      assert name == name[..i] + "." + name[i + 1..];
  }

  /** A variant built from an extension is the name exactly if neither part was changed. */
  lemma VariantIsName(stem: string, extension: string, k: nat)
    requires k < INDEX_LIMIT && extension != "" && '.' !in extension
    requires Utf8Len(stem) + 1 + Utf8Len(extension) <= FileNames.MAX_FILENAME_BYTES
    ensures CollisionName(stem, extension, k) == stem + "." + extension <==>
            Utf8Len(stem) + 1 + Utf8Len(extension) == FileNames.MAX_FILENAME_BYTES && EndsInSuffix(stem, k)
  {
    hide Suffix, Truncated, Utf8Len;
    CutExtensionKeepsSomething(extension, k);
    SuffixBytes(k);
    var cut := CutExtension(extension, k);
    var room := FileNames.MAX_FILENAME_BYTES - 1 - Utf8Len(extension);
    var numbered := Truncated(stem, StemBudget(cut, k)) + Suffix(k);
    assert CollisionName(stem, extension, k) == numbered + "." + cut;
    if numbered + "." + cut == stem + "." + extension {
      LastDotUnique(numbered, cut, stem, extension);
      assert cut == extension;
      NumberedAgain(stem, k, room);
    }
    if Utf8Len(stem) == room && EndsInSuffix(stem, k) {
      var head := stem[..|stem| - |Suffix(k)|];
      assert stem == head + Suffix(k);
      Utf8LenConcat(head, Suffix(k));
      assert cut == extension;
      NumberedAgain(stem, k, room);
    }
  }

  /**
   Exactly when a numbered variant of a safe name is the name itself: the name fills the limit and
   its stem already ends with that number.
   */
  lemma FirstCandidateRepeats(name: string, k: nat)
    requires FileNames.SafeFileName(name) && 1 <= k < INDEX_LIMIT
    ensures Candidate(name, k) == Candidate(name, 0) <==>
            Utf8Len(name) == FileNames.MAX_FILENAME_BYTES && EndsInSuffix(FileStem(name), k)
  {
    hide FileNames.SafeFileName, Suffix, Truncated, Utf8Len;
    SafeNameSplits(name);
    var stem := FileStem(name);
    match Extension(name) {
      case None =>
        NumberedAgain(stem, k, FileNames.MAX_FILENAME_BYTES);
      case Some(e) =>
        Utf8LenConcat(stem, "." + e);
        Utf8LenConcat(".", e);
        DotWidth();
        assert stem + ("." + e) == stem + "." + e;
        VariantIsName(stem, e, k);
    }
  }

  lemma DotWidth()
    ensures Utf8Len(".") == 1
  {
    Utf8LenAscii(".");
  }

  /** All candidates of a safe name differ exactly if none of its variants is the name itself. */
  lemma AllCandidatesDiffer(name: string)
    requires FileNames.SafeFileName(name)
    ensures (forall j: nat, k: nat :: j < k < INDEX_LIMIT ==> Candidate(name, j) != Candidate(name, k)) <==>
            !(Utf8Len(name) == FileNames.MAX_FILENAME_BYTES &&
              exists k: nat :: 1 <= k < INDEX_LIMIT && EndsInSuffix(FileStem(name), k))
  {
    hide FileNames.SafeFileName, Candidate, Utf8Len, EndsInSuffix, FileStem;
    forall k: nat | 1 <= k < INDEX_LIMIT
      ensures Candidate(name, k) == Candidate(name, 0) <==>
              Utf8Len(name) == FileNames.MAX_FILENAME_BYTES && EndsInSuffix(FileStem(name), k)
    {
      FirstCandidateRepeats(name, k);
    }
    forall j: nat, k: nat | 1 <= j < k < INDEX_LIMIT ensures Candidate(name, j) != Candidate(name, k) {
      CandidatesDistinct(name, j, k);
    }
  }

  // ----- the candidates stay in the folder ------------------------------

  /** A candidate of an accepted name has no separator and is no path step. */
  lemma CandidateStaysInFolder(name: string, index: nat)
    requires FileNames.SafeFileName(name) && index < INDEX_LIMIT
    ensures Candidate(name, index) !in {"", ".", ".."}
    ensures Plain(Candidate(name, index))
  {
    if index > 0 {
      assert Plain(name);
      var extension := if Extension(name).Some? then Extension(name).value else "";
      assert Plain(FileStem(name)) && Plain(extension);
      CollisionNameStaysInFolder(FileStem(name), extension, index);
    }
  }

  lemma CollisionNameStaysInFolder(stem: string, extension: string, index: nat)
    requires Plain(stem) && Plain(extension)
    ensures Plain(CollisionName(stem, extension, index)) && |CollisionName(stem, extension, index)| >= 4
  {
    SuffixIsPlain(index);
    var suffix := Suffix(index);
    var cut := CutExtension(extension, index);
    assert Plain(WithoutLeadingDot(extension)) && Plain(cut);
    if WithoutLeadingDot(extension) == "" || cut == "" {
      var t := Truncated(stem, SaturatingSub(FileNames.MAX_FILENAME_BYTES, Utf8Len(suffix)));
      assert Plain(t);
    } else {
      var t := Truncated(stem, StemBudget(cut, index));
      assert Plain(t) && Plain(".");
    }
  }

  predicate Plain(s: string) { forall i :: 0 <= i < |s| ==> !FileNames.IsSeparator(s[i]) }

  lemma SuffixIsPlain(index: nat)
    ensures Plain(Suffix(index)) && |Suffix(index)| >= 4
  {
    var s := Suffix(index);
    forall i | 0 <= i < |s| ensures !FileNames.IsSeparator(s[i]) {
      if 2 <= i < |s| - 1 {
        assert s[i] == Decimal(index)[i - 2];
      }
    }
  }

  // ----- the search ------------------------------------------------------

  function Variants(name: string, count: nat): (names: set<string>)
  {
    set k: nat | 1 <= k <= count :: Candidate(name, k)
  }

  lemma {:induction false} VariantsCount(name: string, count: nat)
    requires count < INDEX_LIMIT
    ensures |Variants(name, count)| == count
  {
    if count == 0 {
      assert Variants(name, 0) == {};
    } else {
      VariantsCount(name, count - 1);
      NewestVariantIsNew(name, count);
      VariantsGrow(name, count);
    }
  }

  lemma NewestVariantIsNew(name: string, count: nat)
    requires 1 <= count < INDEX_LIMIT
    ensures Candidate(name, count) !in Variants(name, count - 1)
  {
    forall k: nat | 1 <= k <= count - 1 ensures Candidate(name, k) != Candidate(name, count) {
      CandidatesDistinct(name, k, count);
    }
  }

  lemma VariantsGrow(name: string, count: nat)
    requires 1 <= count
    ensures Variants(name, count) == Variants(name, count - 1) + {Candidate(name, count)}
  {
    hide Candidate;
    forall c | c in Variants(name, count)
      ensures c in Variants(name, count - 1) + {Candidate(name, count)}
    {
      var k: nat :| 1 <= k <= count && c == Candidate(name, k);
      assert k == count || k <= count - 1;
    }
  }

  /** If all variants are taken there are at least 100,000 taken names. */
  lemma ExhaustedMeansFull(name: string, taken: set<string>)
    requires forall k: nat :: 1 <= k <= MAX_COLLISION_ATTEMPTS ==> Candidate(name, k) in taken
    ensures |taken| >= MAX_COLLISION_ATTEMPTS
  {
    var all := Variants(name, MAX_COLLISION_ATTEMPTS);
    VariantsCount(name, MAX_COLLISION_ATTEMPTS);
    assert all <= taken;
    SubsetCardinality(all, taken);
  }

  lemma {:induction false} SubsetCardinality<T>(a: set<T>, b: set<T>)
    requires a <= b
    ensures |a| <= |b|
  {
    if a != {} {
      var x :| x in a;
      SubsetCardinality(a - {x}, b - {x});
    }
  }
}
