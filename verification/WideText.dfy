/**
 UTF-16 text as the driver and the .NET side see it: sequences of 16-bit units, with the
 system's case map as a parameter.
 */
module WideText {
  newtype WChar = x: int | 0 <= x < 0x1_0000

  type WString = seq<WChar>

  /** What a UNICODE_STRING can hold: its byte length is a USHORT. */
  type UString = s: WString | |s| <= 32767 witness []

  newtype UShort = x: int | 0 <= x < 0x1_0000

  const BACKSLASH: WChar := 92
  const SLASH: WChar := 47
  const DOT: WChar := 46
  const SPACE: WChar := 32
  const COLON: WChar := 58
  const DOLLAR: WChar := 36

  /** RtlUpcaseUnicodeChar, whose table belongs to the system. */
  type CaseMap = WChar -> WChar

  /** All that the path code needs of it: the separator is caseless. */
  ghost predicate KeepsSeparator(up: CaseMap) {
    forall c :: up(c) == BACKSLASH <==> c == BACKSLASH
  }

  function Upcase(up: CaseMap, s: WString): (r: WString)
    ensures |r| == |s|
    ensures forall i :: 0 <= i < |s| ==> r[i] == up(s[i])
  {
    seq(|s|, i requires 0 <= i < |s| => up(s[i]))
  }

  lemma UpcaseConcat(up: CaseMap, a: WString, b: WString)
    ensures Upcase(up, a + b) == Upcase(up, a) + Upcase(up, b)
  {}

  lemma UpcaseSlice(up: CaseMap, s: WString, i: nat, j: nat)
    requires i <= j <= |s|
    ensures Upcase(up, s[i..j]) == Upcase(up, s)[i..j]
  {}

  /** An ASCII literal as wide text. */
  function Wide(s: string): (r: WString)
    requires forall i :: 0 <= i < |s| ==> s[i] < 128 as char
    ensures |r| == |s|
    ensures forall i :: 0 <= i < |s| ==> r[i] as int == s[i] as int
  {
    seq(|s|, i requires 0 <= i < |s| => s[i] as int as WChar)
  }
}
