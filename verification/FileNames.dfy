/**
 Wire file names: which names the receiver accepts (`safe_file_name`) and how the
 sender turns a local name into one of them (`portable_file_name`).
 Unicode normalisation (NFC) is the input of this module, not part of it.
 */
module FileNames {
  import opened Text

  const MAX_FILENAME_BYTES: nat := 255

  predicate IsControl(c: char) { c as int < 0x20 || 0x7f <= c as int <= 0x9f }

  predicate IsSeparator(c: char) { c == '/' || c == '\\' }

  predicate IsWindowsForbidden(c: char) { c in ":*?\"<>|" }

  predicate IsMarker(c: char) { c == ' ' || c == '.' }

  predicate Unportable(c: char) { IsControl(c) || IsSeparator(c) || IsWindowsForbidden(c) }

  /** Names Windows keeps for devices, compared without ASCII case. */
  const RESERVED: set<string> := {
    "CON", "PRN", "AUX", "NUL",
    "COM1", "COM2", "COM3", "COM4", "COM5", "COM6", "COM7", "COM8", "COM9",
    "LPT1", "LPT2", "LPT3", "LPT4", "LPT5", "LPT6", "LPT7", "LPT8", "LPT9",
    "COM\U{00B9}", "COM\U{00B2}", "COM\U{00B3}", "LPT\U{00B9}", "LPT\U{00B2}", "LPT\U{00B3}"
  }

  function AsciiUpperChar(c: char): char {
    if 'a' <= c <= 'z' then (c as int - 32) as char else c
  }

  function AsciiUpper(s: string): (r: string)
    ensures |r| == |s|
  {
    seq(|s|, i requires 0 <= i < |s| => AsciiUpperChar(s[i]))
  }

  /** The part before the first dot. */
  function BeforeDot(name: string): (r: string)
    ensures r <= name && '.' !in r
    ensures r == name || name[|r|] == '.'
  {
    if name == [] || name[0] == '.' then [] else [name[0]] + BeforeDot(name[1..])
  }

  /** How many characters at the end are spaces or dots. */
  function TrailingMarkers(s: string): (k: nat)
    ensures k <= |s|
    ensures forall i :: |s| - k <= i < |s| ==> IsMarker(s[i])
    ensures k < |s| ==> !IsMarker(s[|s| - k - 1])
  {
    if s != [] && IsMarker(s[|s| - 1]) then 1 + TrailingMarkers(s[..|s| - 1]) else 0
  }

  function TrimMarkers(s: string): (r: string)
    ensures r <= s
  {
    s[..|s| - TrailingMarkers(s)]
  }

  /** `is_windows_reserved_name`. */
  predicate IsReserved(name: string) { AsciiUpper(TrimMarkers(BeforeDot(name))) in RESERVED }

  /** `Path::file_name` of a relative path without a separator. */
  function LastComponent(name: string): (r: string)
  {
    if name == "." || name == ".." then "" else name
  }

  /** `safe_file_name`: the names a receiver accepts from the wire. */
  predicate SafeFileName(name: string)
  {
    && name != ""
    && name != "."
    && name != ".."
    && Utf8Len(name) <= MAX_FILENAME_BYTES
    && (forall i :: 0 <= i < |name| ==> !IsSeparator(name[i]))
    && (forall i :: 0 <= i < |name| ==> !IsWindowsForbidden(name[i]))
    && (forall i :: 0 <= i < |name| ==> !IsControl(name[i]))
    && !IsMarker(name[|name| - 1])
    && LastComponent(name) == name
    && !IsReserved(name)
  }

  function Mapped(s: string): (r: string)
    ensures |r| == |s|
  {
    seq(|s|, i requires 0 <= i < |s| => if Unportable(s[i]) then '_' else s[i])
  }

  function Underscores(k: nat): (r: string)
    ensures |r| == k
  {
    seq(k, _ => '_')
  }

  /** Trailing spaces and dots, each replaced by an underscore. */
  function WithoutTrailingMarkers(s: string): (r: string)
    ensures |r| == |s|
  {
    TrimMarkers(s) + Underscores(TrailingMarkers(s))
  }

  function OrUnderscore(s: string): string { if s == "" then "_" else s }

  /** The edits that do not depend on the reserved names. */
  function Bounded(nfc: string): string
  {
    var trimmed := WithoutTrailingMarkers(OrUnderscore(Mapped(nfc)));
    WithoutTrailingMarkers(OrUnderscore(Truncated(trimmed, MAX_FILENAME_BYTES)))
  }

  /** The edit of a reserved name. */
  function Unreserved(name: string): string
  {
    WithoutTrailingMarkers(Truncated("_" + name, MAX_FILENAME_BYTES))
  }

  /** Everything `portable_file_name` does before its final safety test. */
  function Sanitized(nfc: string): string
  {
    var bounded := Bounded(nfc);
    if IsReserved(bounded) then Unreserved(bounded) else bounded
  }

  /** `portable_file_name` after normalisation. */
  function Portable(nfc: string): string
  {
    if SafeFileName(Sanitized(nfc)) then Sanitized(nfc) else "_"
  }

  // ----- the loops of the source ----------------------------------------

  /** `replace_trailing_windows_markers`: count from the end, cut, refill. */
  method ReplaceTrailingMarkers(value: string) returns (r: string)
    ensures r == WithoutTrailingMarkers(value)
  {
    var trailing := 0;
    while trailing < |value| && IsMarker(value[|value| - 1 - trailing])
      invariant trailing <= |value|
      invariant TrailingMarkers(value) == trailing + TrailingMarkers(value[..|value| - trailing])
    {
      var rest := value[..|value| - trailing];
      assert rest[..|rest| - 1] == value[..|value| - (trailing + 1)];
      trailing := trailing + 1;
    }
    r := value[..|value| - trailing];
    var filled := 0;
    while filled < trailing
      invariant filled <= trailing
      invariant r == value[..|value| - trailing] + Underscores(filled)
    {
      r := r + "_";
      filled := filled + 1;
    }
  }

  /** The character map of `portable_file_name`. */
  method MapCharacters(nfc: string) returns (portable: string)
    ensures portable == Mapped(nfc)
  {
    portable := "";
    for i := 0 to |nfc|
      invariant portable == Mapped(nfc)[..i]
    {
      portable := portable + [if Unportable(nfc[i]) then '_' else nfc[i]];
    }
  }

  /** The first three edits of `portable_file_name`, in the source's order. */
  method BoundName(nfc: string) returns (portable: string)
    ensures portable == Bounded(nfc)
  {
    portable := MapCharacters(nfc);
    if portable == "" {
      portable := portable + "_";
    }
    portable := ReplaceTrailingMarkers(portable);
    portable := TruncateUtf8(portable, MAX_FILENAME_BYTES);
    if portable == "" {
      portable := portable + "_";
    }
    portable := ReplaceTrailingMarkers(portable);
  }

  /** `portable_file_name`: the result is safe, and a safe name is left alone. */
  method PortableFileName(nfc: string) returns (portable: string)
    ensures portable == Portable(nfc) == Sanitized(nfc)
    ensures SafeFileName(portable)
    ensures SafeFileName(nfc) ==> portable == nfc
  {
    SanitizedIsSafe(nfc);
    SafeNamesUnchanged(nfc);
    portable := BoundName(nfc);
    if IsReserved(portable) {
      portable := "_" + portable;
      portable := TruncateUtf8(portable, MAX_FILENAME_BYTES);
      portable := ReplaceTrailingMarkers(portable);
    }
    if !SafeFileName(portable) {
      portable := "_";
    }
  }

  // ----- what the edits guarantee ---------------------------------------

  predicate Clean(s: string) { forall i :: 0 <= i < |s| ==> !Unportable(s[i]) }

  predicate EndsWell(s: string) { s != "" && !IsMarker(s[|s| - 1]) }

  lemma {:induction false} MarkerWidths(s: string)
    ensures Utf8Len(s) == Utf8Len(TrimMarkers(s)) + TrailingMarkers(s)
  {
    if s != [] && IsMarker(s[|s| - 1]) {
      var front := s[..|s| - 1];
      MarkerWidths(front);
      assert TrimMarkers(s) == TrimMarkers(front);
    } else {
      assert TrimMarkers(s) == s;
    }
  }

  /** Refilling keeps the byte length, removes the markers and brings in nothing unportable. */
  lemma RefillFacts(s: string)
    requires s != "" && Clean(s)
    ensures var r := WithoutTrailingMarkers(s);
            Clean(r) && EndsWell(r) && Utf8Len(r) == Utf8Len(s)
    ensures s[0] == '_' ==> WithoutTrailingMarkers(s)[0] == '_'
  {
    var k := TrailingMarkers(s);
    var r := WithoutTrailingMarkers(s);
    MarkerWidths(s);
    Utf8LenAscii(Underscores(k));
    Utf8LenConcat(TrimMarkers(s), Underscores(k));
    forall i | 0 <= i < |r| ensures !Unportable(r[i]) {
      assert r[i] == if i < |s| - k then s[i] else '_';
    }
  }

  lemma RefillKeeps(s: string)
    requires EndsWell(s)
    ensures WithoutTrailingMarkers(s) == s
  {
    assert TrailingMarkers(s) == 0;
  }

  lemma TruncatedNonEmpty(s: string)
    requires s != ""
    ensures s[..1] <= Truncated(s, MAX_FILENAME_BYTES)
  {
    assert s[..1][..0] == [];
    assert Utf8Len(s[..1]) == Utf8Len(s[..1][..0]) + Utf8Width(s[0]);
    TruncatedIsLongest(s, MAX_FILENAME_BYTES, s[..1]);
  }

  /** Every reserved name starts with a letter, so a leading underscore clears it. */
  lemma UnderscoreNotReserved(name: string)
    requires name != "" && name[0] == '_'
    ensures !IsReserved(name)
  {
    var stem := BeforeDot(name);
    assert stem != [] && stem[0] == '_';
    var trimmed := TrimMarkers(stem);
    assert !IsMarker(stem[0]);
    assert TrailingMarkers(stem) < |stem|;
    assert AsciiUpper(trimmed)[0] == '_';
    assert forall r :: r in RESERVED ==> r != [] && r[0] != '_';
  }

  lemma MappedIsClean(s: string)
    ensures Clean(Mapped(s))
  {
  }

  lemma SafeUnlessReserved(name: string)
    requires Clean(name) && EndsWell(name) && Utf8Len(name) <= MAX_FILENAME_BYTES
    requires !IsReserved(name)
    ensures SafeFileName(name)
  {
  }

  lemma BoundedFacts(nfc: string)
    ensures var b := Bounded(nfc);
            Clean(b) && EndsWell(b) && Utf8Len(b) <= MAX_FILENAME_BYTES
  {
    MappedIsClean(nfc);
    var first := OrUnderscore(Mapped(nfc));
    RefillFacts(first);
    var trimmed := WithoutTrailingMarkers(first);
    TruncatedNonEmpty(trimmed);
    RefillFacts(Truncated(trimmed, MAX_FILENAME_BYTES));
  }

  lemma UnreservedFacts(name: string)
    requires Clean(name) && EndsWell(name)
    ensures var b := Unreserved(name);
            Clean(b) && EndsWell(b) && Utf8Len(b) <= MAX_FILENAME_BYTES && b[0] == '_'
  {
    var marked := "_" + name;
    TruncatedNonEmpty(marked);
    var short := Truncated(marked, MAX_FILENAME_BYTES);
    assert short[0] == marked[..1][0] == '_';
    RefillFacts(short);
  }

  /** The "_" fallback is never taken: what the edits leave is always a safe name. */
  lemma SanitizedIsSafe(nfc: string)
    ensures SafeFileName(Sanitized(nfc))
  {
    var bounded := Bounded(nfc);
    BoundedFacts(nfc);
    if IsReserved(bounded) {
      UnreservedFacts(bounded);
      UnderscoreNotReserved(Unreserved(bounded));
      SafeUnlessReserved(Unreserved(bounded));
    } else {
      SafeUnlessReserved(bounded);
    }
  }

  /** A name the receiver would accept is sent as it is. */
  lemma SafeNamesUnchanged(name: string)
    ensures SafeFileName(name) ==> Sanitized(name) == name
  {
    if SafeFileName(name) {
      assert Mapped(name) == name;
      RefillKeeps(name);
    }
  }

  // ----- which names are safe -------------------------------------------

  /** One character, or the two cases of one ASCII letter. */
  predicate SameLetter(a: char, b: char)
  {
    a == b || ('a' <= a <= 'z' && b as int == a as int - 32) || ('a' <= b <= 'z' && a as int == b as int - 32)
  }

  /** The name up to its first dot, without trailing spaces, is a device name in some case. */
  predicate NamesDevice(name: string, device: string)
  {
    var stem := TrimMarkers(BeforeDot(name));
    |stem| == |device| && forall k :: 0 <= k < |stem| ==> SameLetter(stem[k], device[k])
  }

  lemma DeviceIsUpper(device: string)
    requires device in RESERVED
    ensures forall k :: 0 <= k < |device| ==> !('a' <= device[k] <= 'z')
  {
  }

  lemma ReservedIsDevice(name: string)
    ensures IsReserved(name) <==> exists device :: device in RESERVED && NamesDevice(name, device)
  {
    hide TrimMarkers, BeforeDot;
    var stem := TrimMarkers(BeforeDot(name));
    if IsReserved(name) {
      assert NamesDevice(name, AsciiUpper(stem));
    }
    forall device | device in RESERVED && NamesDevice(name, device) ensures AsciiUpper(stem) == device {
      DeviceIsUpper(device);
    }
  }

  /** A name is accepted exactly if it is short enough, ends well, and holds nothing forbidden and no device. */
  lemma AcceptedNames(name: string)
    ensures SafeFileName(name) <==>
            && name != "" && Utf8Len(name) <= MAX_FILENAME_BYTES
            && (forall k :: 0 <= k < |name| ==> !Forbidden(name[k]))
            && name[|name| - 1] != ' ' && name[|name| - 1] != '.'
            && !exists device :: device in RESERVED && NamesDevice(name, device)
  {
    hide IsReserved, NamesDevice;
    ReservedIsDevice(name);
    forall k | 0 <= k < |name| ensures Forbidden(name[k]) <==> Unportable(name[k]) {
      ForbiddenIsUnportable(name[k]);
    }
  }

  // ----- which characters are kept ---------------------------------------

  /** From `i` to `n` there is nothing but spaces and dots. */
  predicate AllMarkers(s: string, i: nat, n: nat)
    requires i <= n <= |s|
  {
    forall k :: i <= k < n ==> s[k] == ' ' || s[k] == '.'
  }

  /** The characters no portable name may hold. */
  predicate Forbidden(c: char)
  {
    || c == '/' || c == '\\' || c == ':' || c == '*' || c == '?' || c == '"' || c == '<' || c == '>' || c == '|'
    || c as int < 0x20 || 0x7f <= c as int <= 0x9f
  }

  lemma ForbiddenIsUnportable(c: char)
    ensures Forbidden(c) <==> Unportable(c)
  {
  }

  lemma RefilledAt(s: string, i: nat)
    requires i < |s|
    ensures WithoutTrailingMarkers(s)[i] == if AllMarkers(s, i, |s|) then '_' else s[i]
  {
    var k := TrailingMarkers(s);
    assert i < |s| - k ==> !IsMarker(s[|s| - k - 1]);
  }

  lemma MarkersAfter(s: string, t: string, i: nat, n: nat)
    requires i < n <= |s| && n <= |t| && (forall k :: i <= k < n ==> (IsMarker(s[k]) <==> IsMarker(t[k])))
    ensures AllMarkers(s, i, n) <==> AllMarkers(t, i, n)
  {
  }

  /** Refilling before the cut and after it comes to refilling what the cut leaves. */
  lemma RefilledTwice(s: string, n: nat, i: nat)
    requires i < n <= |s|
    ensures var once := WithoutTrailingMarkers(s);
            WithoutTrailingMarkers(once[..n])[i] == if AllMarkers(s, i, n) then '_' else s[i]
  {
    var once := WithoutTrailingMarkers(s);
    RefilledAt(once[..n], i);
    forall k | i <= k < n ensures once[k] == if AllMarkers(s, k, |s|) then '_' else s[k] {
      RefilledAt(s, k);
    }
    if AllMarkers(s, i, n) && !AllMarkers(s, i, |s|) {
      assert forall k :: i <= k < n ==> !AllMarkers(s, k, |s|);
    }
  }

  /**
   The edits keep every character that is allowed and stands before the last one that is no space
   and no dot; they put an underscore for any other, and only cut off what does not fit.
   */
  lemma KeptCharacters(nfc: string, i: nat)
    requires nfc != "" && i < |Bounded(nfc)|
    ensures |Bounded(nfc)| <= |nfc| && (Utf8Len(nfc) <= MAX_FILENAME_BYTES ==> |Bounded(nfc)| == |nfc|)
    ensures Bounded(nfc)[i] ==
            if Forbidden(nfc[i]) || AllMarkers(nfc, i, |Bounded(nfc)|) then '_' else nfc[i]
  {
    hide Forbidden, Unportable, AllMarkers, WithoutTrailingMarkers, IsReserved;
    var mapped := Mapped(nfc);
    var once := WithoutTrailingMarkers(mapped);
    var cut := Truncated(once, MAX_FILENAME_BYTES);
    TruncatedNonEmpty(once);
    assert Bounded(nfc) == WithoutTrailingMarkers(cut);
    assert cut == once[..|cut|];
    RefilledTwice(mapped, |cut|, i);
    ForbiddenIsUnportable(nfc[i]);
    MappedMarkers(nfc, i, |cut|);
    MappedWidth(nfc);
    MappedIsClean(nfc);
    RefillFacts(mapped);
  }

  /** A replaced character is a marker no more, and no other one changes. */
  lemma MappedMarkers(s: string, i: nat, n: nat)
    requires i < n <= |s|
    ensures AllMarkers(Mapped(s), i, n) <==> AllMarkers(s, i, n)
  {
    forall k | i <= k < n ensures IsMarker(Mapped(s)[k]) <==> IsMarker(s[k]) {
      assert Mapped(s)[k] == if Unportable(s[k]) then '_' else s[k];
    }
    MarkersAfter(Mapped(s), s, i, n);
  }

  lemma {:induction false} MappedWidth(s: string)
    ensures Utf8Len(Mapped(s)) <= Utf8Len(s)
  {
    if s != [] {
      var front := s[..|s| - 1];
      MappedWidth(front);
      assert Mapped(s)[..|s| - 1] == Mapped(front);
    }
  }

  /** Unless it is a device name, that is the portable name; a device name gets an underscore in front. */
  lemma PortableIsBounded(nfc: string)
    ensures !IsReserved(Bounded(nfc)) ==> Portable(nfc) == Bounded(nfc)
    ensures IsReserved(Bounded(nfc)) ==> Portable(nfc) != "" && Portable(nfc)[0] == '_'
    ensures IsReserved(Bounded(nfc)) && Utf8Len(Bounded(nfc)) < MAX_FILENAME_BYTES ==>
              Portable(nfc) == "_" + Bounded(nfc)
  {
    hide IsReserved, Bounded, SafeFileName;
    SanitizedIsSafe(nfc);
    BoundedFacts(nfc);
    var bounded := Bounded(nfc);
    if IsReserved(bounded) {
      UnreservedFacts(bounded);
      Utf8LenAscii("_");
      Utf8LenConcat("_", bounded);
      RefillKeeps("_" + bounded);
    }
  }

  /** Sanitising twice is sanitising once. */
  lemma PortableIdempotent(nfc: string)
    ensures SafeFileName(Portable(nfc)) && Portable(Portable(nfc)) == Portable(nfc)
  {
    SanitizedIsSafe(nfc);
    SafeNamesUnchanged(Portable(nfc));
  }
}
