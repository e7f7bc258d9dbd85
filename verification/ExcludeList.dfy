/** Exclude patterns: storage, validation and matching (knFcExclude.cpp, knFcComm.cpp lines 423-486). */
module ExcludeList {
  import opened WideText

  const MAX_PATTERNS: nat := 64
  const MAX_PATTERN_CHARS: nat := 128
  const REQUEST_HEADER_BYTES: nat := 12

  datatype Status = Success | InvalidParameter | NameTooLong | InsufficientResources | QuotaExceeded | Faulted

  /** Whether the caller's memory can be read, header and text, and whether the handler finds room for its copy. */
  datatype UserBuffer = UserBuffer(headerReadable: bool, copyOk: bool, textReadable: bool)

  // ----- what a pattern means -----

  ghost predicate ContainsFolded(up: CaseMap, path: WString, pattern: WString) {
    exists a: WString, b: WString :: Upcase(up, path) == a + Upcase(up, pattern) + b
  }

  ghost predicate EndsFolded(up: CaseMap, path: WString, pattern: WString) {
    exists a: WString :: Upcase(up, path) == a + Upcase(up, pattern)
  }

  ghost predicate Hits(up: CaseMap, pattern: WString, path: WString) {
    if pattern != [] && pattern[0] == DOT then EndsFolded(up, path, pattern) else ContainsFolded(up, path, pattern)
  }

  ghost predicate Excluded(up: CaseMap, patterns: seq<WString>, path: WString) {
    path != [] && exists i :: 0 <= i < |patterns| && Hits(up, patterns[i], path)
  }

  /** RtlEqualUnicodeString, ignoring case, on the window of the pattern's length at k. */
  predicate WindowEquals(up: CaseMap, path: WString, pattern: WString, k: nat)
    requires k + |pattern| <= |path|
  {
    Upcase(up, path[k..k + |pattern|]) == Upcase(up, pattern)
  }

  lemma ContainsAt(up: CaseMap, path: WString, pattern: WString, k: nat)
    requires k + |pattern| <= |path| && WindowEquals(up, path, pattern, k)
    ensures ContainsFolded(up, path, pattern)
  {
    var p := Upcase(up, path);
    UpcaseSlice(up, path, k, k + |pattern|);
    assert p == p[..k] + Upcase(up, pattern) + p[k + |pattern|..];
  }

  lemma ContainsSomewhere(up: CaseMap, path: WString, pattern: WString) returns (k: nat)
    requires ContainsFolded(up, path, pattern)
    ensures k + |pattern| <= |path| && WindowEquals(up, path, pattern, k)
  {
    var a, b :| Upcase(up, path) == a + Upcase(up, pattern) + b;
    k := |a|;
    UpcaseSlice(up, path, k, k + |pattern|);
  }

  // ----- the scanning primitives -----

  function ByteLength(s: UString): (r: UShort)
    ensures r as int == 2 * |s|
  {
    (2 * |s|) as UShort
  }

  /** knFcSuffixCi. */
  predicate SuffixCi(up: CaseMap, hay: UString, needle: UString) {
    if |needle| == 0 then true
    else if |hay| < |needle| then false
    else Upcase(up, hay[|hay| - |needle|..]) == Upcase(up, needle)
  }

  lemma SuffixCiIsEndsFolded(up: CaseMap, hay: UString, needle: UString)
    ensures SuffixCi(up, hay, needle) <==> EndsFolded(up, hay, needle)
  {
    var h := Upcase(up, hay);
    if SuffixCi(up, hay, needle) {
      UpcaseSlice(up, hay, |hay| - |needle|, |hay|);
      assert h == h[..|hay| - |needle|] + Upcase(up, needle);
    }
    if EndsFolded(up, hay, needle) {
      var a :| h == a + Upcase(up, needle);
      UpcaseSlice(up, hay, |a|, |hay|);
      assert hay[|a|..|hay|] == hay[|hay| - |needle|..];
    }
  }

  /**
   knFcSubstringCi.  The index counts bytes in a USHORT; lengths are even and the needle is not
   empty, so the last increment stays in range and the loop cannot wrap.
   */
  method SubstringCi(up: CaseMap, hay: UString, needle: UString) returns (found: bool)
    ensures found <==> ContainsFolded(up, hay, needle)
  {
    if ByteLength(needle) == 0 {
      assert Upcase(up, hay) == [] + Upcase(up, needle) + Upcase(up, hay);
      return true;
    }
    if ByteLength(hay) < ByteLength(needle) {
      if ContainsFolded(up, hay, needle) {
        var k := ContainsSomewhere(up, hay, needle);
      }
      return false;
    }
    var span: UShort := ByteLength(hay) - ByteLength(needle);
    var i: UShort := 0;
    while i <= span
      invariant i % 2 == 0 && i <= span + 2
      invariant forall k: nat :: 2 * k < i as int && k + |needle| <= |hay| ==> !WindowEquals(up, hay, needle, k)
      decreases span as int + 2 - i as int
    {
      var k := i as int / 2;
      if WindowEquals(up, hay, needle, k) {
        ContainsAt(up, hay, needle, k);
        return true;
      }
      i := i + 2;
    }
    if ContainsFolded(up, hay, needle) {
      var k := ContainsSomewhere(up, hay, needle);
      assert false;
    }
    return false;
  }

  // ----- the list -----

  class Patterns {
    const up: CaseMap
    const slots: array<UString>
    var count: nat
    var matchedCount: nat

    ghost predicate Valid()
      reads this, slots
    {
      && slots.Length == MAX_PATTERNS && count <= MAX_PATTERNS
      && forall i :: 0 <= i < count ==> 0 < |slots[i]| <= MAX_PATTERN_CHARS
    }

    ghost function List(): seq<WString>
      reads this, slots
      requires Valid()
    {
      slots[..count]
    }

    constructor (up: CaseMap)
      ensures Valid() && fresh(slots) && List() == [] && this.up == up && matchedCount == 0
    {
      this.up := up;
      slots := new UString[MAX_PATTERNS](_ => []);
      count := 0;
      matchedCount := 0;
    }

    /** knFcExcludeAdd; poolOk is the outcome of the allocation. */
    method Add(pattern: UString, poolOk: bool) returns (status: Status)
      requires Valid()
      modifies this`count, slots
      ensures Valid()
      ensures status == AddStatus(|old(List())|, pattern, poolOk)
      ensures List() == if status.Success? then old(List()) + [pattern] else old(List())
    {
      if pattern == [] { return InvalidParameter; }
      if |pattern| > MAX_PATTERN_CHARS { return NameTooLong; }
      if !poolOk { return InsufficientResources; }
      if count >= MAX_PATTERNS { return QuotaExceeded; }
      slots[count] := pattern;
      count := count + 1;
      return Success;
    }

    method Clear()
      requires Valid()
      modifies this`count, slots
      ensures Valid() && List() == []
    {
      for i := 0 to count
      {
        slots[i] := [];
      }
      count := 0;
    }

    /** knFcExcludeMatches. */
    method Matches(path: UString) returns (matched: bool)
      requires Valid()
      modifies this`matchedCount
      ensures Valid() && List() == old(List())
      ensures matched <==> Excluded(up, List(), path)
      ensures matchedCount == old(matchedCount) + if matched then 1 else 0
    {
      matched := false;
      if path == [] { return; }
      var i := 0;
      while i < count && !matched
        invariant i <= count
        invariant matchedCount == old(matchedCount)
        invariant matched ==> i < count && Hits(up, slots[i], path)
        invariant forall j :: 0 <= j < i ==> !Hits(up, slots[j], path)
        decreases count - i, !matched
      {
        var p := slots[i];
        if |p| >= 1 && p[0] == DOT {
          SuffixCiIsEndsFolded(up, path, p);
          matched := SuffixCi(up, path, p);
        } else {
          matched := SubstringCi(up, path, p);
        }
        if !matched {
          i := i + 1;
        }
      }
      if matched {
        assert List()[i] == slots[i];
        matchedCount := matchedCount + 1;
      }
    }

    /**
     knFcHandleAddExclude: the request carries a byte length and, after its header, the text.
     Only a non-empty, even length that fits both the limit and the buffer reaches Add, and only if
     neither reading of the caller's memory faults.
     */
    method HandleAddExclude(requestBytes: nat, lengthBytes: nat, text: WString, u: UserBuffer, poolOk: bool)
        returns (status: Status)
      requires Valid()
      requires |text| == if requestBytes < REQUEST_HEADER_BYTES then 0 else (requestBytes - REQUEST_HEADER_BYTES) / 2
      modifies this`count, slots
      ensures Valid()
      ensures status == RequestStatus(|old(List())|, requestBytes, lengthBytes, u, poolOk)
      ensures lengthBytes / 2 <= |text| || !status.Success?
      ensures List() == if status.Success? then old(List()) + [text[..lengthBytes / 2]] else old(List())
    {
      if requestBytes < REQUEST_HEADER_BYTES { return InvalidParameter; }
      if !u.headerReadable { return Faulted; }
      if lengthBytes == 0 || lengthBytes % 2 != 0 || lengthBytes > MAX_PATTERN_CHARS * 2 { return InvalidParameter; }
      if requestBytes < REQUEST_HEADER_BYTES + lengthBytes { return InvalidParameter; }
      if !u.copyOk { return InsufficientResources; }
      if !u.textReadable { return Faulted; }
      status := Add(text[..lengthBytes / 2], poolOk);
    }
  }

  function AddStatus(count: nat, pattern: WString, poolOk: bool): Status {
    if pattern == [] then InvalidParameter
    else if |pattern| > MAX_PATTERN_CHARS then NameTooLong
    else if !poolOk then InsufficientResources
    else if count >= MAX_PATTERNS then QuotaExceeded
    else Success
  }

  function RequestStatus(count: nat, requestBytes: nat, lengthBytes: nat, u: UserBuffer, poolOk: bool): Status {
    if requestBytes < REQUEST_HEADER_BYTES then InvalidParameter
    else if !u.headerReadable then Faulted
    else if requestBytes < REQUEST_HEADER_BYTES + lengthBytes || lengthBytes == 0 || lengthBytes % 2 != 0
       || lengthBytes > MAX_PATTERN_CHARS * 2 then InvalidParameter
    else if !u.copyOk then InsufficientResources
    else if !u.textReadable then Faulted
    else if !poolOk then InsufficientResources
    else if count >= MAX_PATTERNS then QuotaExceeded
    else Success
  }
}
