/** The JSON-lines journal (ManifestWriter.cs) and a reader that recovers exactly what was written. */
module Manifest {
  import opened Options
  import opened WideText
  import opened Numerals

  const QUOTE: WChar := 34
  const NEWLINE: WChar := 10
  const MINUS: WChar := 45
  const LETTER_U: WChar := 117

  // ----- JSON strings -----

  function HexDigit(d: nat): WChar
    requires d < 16
  {
    if d < 10 then 48 + d as WChar else 87 + d as WChar
  }

  /** The x4 format of a unit below 0x20. */
  function Hex4(c: WChar): (r: WString)
    requires c < 0x20
    ensures |r| == 4
  {
    [48, 48, HexDigit(c as int / 16), HexDigit(c as int % 16)]
  }

  function EscapeUnit(c: WChar): WString {
    if c == BACKSLASH then [BACKSLASH, BACKSLASH]
    else if c == QUOTE then [BACKSLASH, QUOTE]
    else if c == 10 then [BACKSLASH, 110]
    else if c == 13 then [BACKSLASH, 114]
    else if c == 9 then [BACKSLASH, 116]
    else if c < 0x20 then [BACKSLASH, LETTER_U] + Hex4(c)
    else [c]
  }

  function Escape(s: WString): WString {
    if s == [] then [] else EscapeUnit(s[0]) + Escape(s[1..])
  }

  lemma {:induction false} EscapeSnoc(s: WString, c: WChar)
    ensures Escape(s + [c]) == Escape(s) + EscapeUnit(c)
  {
    if s != [] {
      assert (s + [c])[1..] == s[1..] + [c];
      EscapeSnoc(s[1..], c);
    }
  }

  /** JsonEscape. */
  method JsonEscape(s: WString) returns (r: WString)
    ensures r == Escape(s)
  {
    r := [];
    for i := 0 to |s|
      invariant r == Escape(s[..i])
    {
      var c := s[i];
      ghost var before := r;
      if c == BACKSLASH { r := r + [BACKSLASH, BACKSLASH]; }
      else if c == QUOTE { r := r + [BACKSLASH, QUOTE]; }
      else if c == 10 { r := r + [BACKSLASH, 110]; }
      else if c == 13 { r := r + [BACKSLASH, 114]; }
      else if c == 9 { r := r + [BACKSLASH, 116]; }
      else if c < 0x20 { r := r + [BACKSLASH, LETTER_U] + Hex4(c); }
      else { r := r + [c]; }
      assert r == before + EscapeUnit(c);
      EscapeSnoc(s[..i], c);
      assert s[..i + 1] == s[..i] + [c];
    }
    assert s[..|s|] == s;
  }

  function HexValue(c: WChar): Option<nat> {
    if 48 <= c <= 57 then Some(c as int - 48)
    else if 97 <= c <= 102 then Some(c as int - 87)
    else if 65 <= c <= 70 then Some(c as int - 55)
    else None
  }

  /** The unit named by a two-character escape, section 7 of RFC 8259. */
  function ShortEscape(c: WChar): Option<WChar> {
    if c == QUOTE || c == BACKSLASH || c == SLASH then Some(c)
    else if c == 98 then Some(8)
    else if c == 102 then Some(12)
    else if c == 110 then Some(10)
    else if c == 114 then Some(13)
    else if c == 116 then Some(9)
    else None
  }

  /** One possibly escaped unit, and how many units it took. */
  function ReadUnit(s: WString): Option<(WChar, nat)> {
    if s == [] || s[0] < 0x20 || s[0] == QUOTE then None
    else if s[0] != BACKSLASH then Some((s[0], 1))
    else if |s| < 2 then None
    else if s[1] != LETTER_U then
      var c :- ShortEscape(s[1]);
      Some((c, 2))
    else if |s| < 6 then None
    else
      var a :- HexValue(s[2]);
      var b :- HexValue(s[3]);
      var c :- HexValue(s[4]);
      var d :- HexValue(s[5]);
      Some(((((a * 16 + b) * 16 + c) * 16 + d) as WChar, 6))
  }

  /** The text of a JSON string up to its closing quote, and what follows the quote. */
  function ReadString(s: WString): Option<(WString, WString)> {
    if s == [] then None
    else if s[0] == QUOTE then Some(([], s[1..]))
    else
      match ReadUnit(s)
      case None => None
      case Some(u) =>
        if u.1 == 0 || u.1 > |s| then None
        else
          match ReadString(s[u.1..])
          case None => None
          case Some(r) => Some(([u.0] + r.0, r.1))
  }

  lemma ReadEscapedUnit(c: WChar, rest: WString)
    ensures ReadUnit(EscapeUnit(c) + rest) == Some((c, |EscapeUnit(c)|))
    ensures EscapeUnit(c)[0] != QUOTE && |EscapeUnit(c)| > 0
  {
    var s := EscapeUnit(c) + rest;
    if c < 0x20 && c != 10 && c != 13 && c != 9 {
      assert s[2..6] == Hex4(c);
      assert s[2] == 48 && s[3] == 48 && s[4] == HexDigit(c as int / 16) && s[5] == HexDigit(c as int % 16);
    }
  }

  /** Unescaping inverts escaping on every sequence of UTF-16 units. */
  lemma {:induction false} UnescapeInvertsEscape(s: WString, rest: WString)
    ensures ReadString(Escape(s) + [QUOTE] + rest) == Some((s, rest))
  {
    hide ReadUnit, EscapeUnit;
    var t := Escape(s) + [QUOTE] + rest;
    if s == [] {
      assert t == [QUOTE] + rest;
    } else {
      var u := EscapeUnit(s[0]);
      ReadEscapedUnit(s[0], Escape(s[1..]) + [QUOTE] + rest);
      assert t == u + (Escape(s[1..]) + [QUOTE] + rest) && t[0] == u[0];
      UnescapeInvertsEscape(s[1..], rest);
      assert t[|u|..] == Escape(s[1..]) + [QUOTE] + rest;
      assert [s[0]] + s[1..] == s;
    }
  }

  predicate NoNewline(s: WString) { NEWLINE !in s }

  lemma {:induction false} EscapeHasNoNewline(s: WString)
    ensures NoNewline(Escape(s))
  {
    if s != [] {
      EscapeHasNoNewline(s[1..]);
    }
  }

  // ----- entries -----

  /** One journal entry; ts is the formatted time stamp. */
  datatype Entry = Entry(
    id: nat, ts: WString, pid: nat, rootPid: nat, flags: nat, sizeHint: nat, src: WString, dest: WString, status: int)

  /** The time stamp format produces no unit that JSON would escape. */
  predicate PlainText(s: WString) { Escape(s) == s }

  const ID: WString := Wide("{\"id\":")
  const TS: WString := Wide(",\"ts\":\"")
  const PID: WString := Wide(",\"pid\":")
  const ROOT_PID: WString := Wide(",\"root_pid\":")
  const FLAGS: WString := Wide(",\"flags\":")
  const SIZE_HINT: WString := Wide(",\"size_hint\":")
  const SRC: WString := Wide(",\"src\":\"")
  const DEST: WString := Wide(",\"dest\":\"")
  const STATUS: WString := Wide(",\"status\":")
  const CLOSE: WString := Wide("}")

  function Integer(n: int): WString {
    if n < 0 then [MINUS] + Decimal(-n) else Decimal(n)
  }

  function NumberField(name: WString, n: nat, rest: WString): WString {
    name + (Decimal(n) + rest)
  }

  function TextField(name: WString, text: WString, rest: WString): WString {
    name + (Escape(text) + [QUOTE] + rest)
  }

  /** The object WriteEntry prints, from its last field backwards. */
  function EndOf(e: Entry): WString { STATUS + (Integer(e.status) + CLOSE) }
  function FromDest(e: Entry): WString { TextField(DEST, e.dest, EndOf(e)) }
  function FromSrc(e: Entry): WString { TextField(SRC, e.src, FromDest(e)) }
  function FromSizeHint(e: Entry): WString { NumberField(SIZE_HINT, e.sizeHint, FromSrc(e)) }
  function FromFlags(e: Entry): WString { NumberField(FLAGS, e.flags, FromSizeHint(e)) }
  function FromRootPid(e: Entry): WString { NumberField(ROOT_PID, e.rootPid, FromFlags(e)) }
  function FromPid(e: Entry): WString { NumberField(PID, e.pid, FromRootPid(e)) }
  function FromTs(e: Entry): WString { TextField(TS, e.ts, FromPid(e)) }
  function ObjectOf(e: Entry): WString { NumberField(ID, e.id, FromTs(e)) }

  function LineOf(e: Entry): WString { ObjectOf(e) + [NEWLINE] }

  // ----- reading an entry back -----

  function Expect(name: WString, s: WString): Option<WString> {
    if name <= s then Some(s[|name|..]) else None
  }

  function ReadDecimal(s: WString): Option<(nat, WString)> {
    var d := LeadingDigits(s);
    if d == [] then None else Some((Value(d), s[|d|..]))
  }

  function ReadNumber(name: WString, s: WString): Option<(nat, WString)> {
    var s :- Expect(name, s);
    ReadDecimal(s)
  }

  function ReadText(name: WString, s: WString): Option<(WString, WString)> {
    var s :- Expect(name, s);
    ReadString(s)
  }

  function ReadStatus(s: WString): Option<int> {
    var s :- Expect(STATUS, s);
    var negative := s != [] && s[0] == MINUS;
    var n :- ReadDecimal(if negative then s[1..] else s);
    if n.1 == CLOSE then Some((if negative then -1 else 1) * n.0) else None
  }

  function ReadObject(s: WString): Option<Entry> {
    var id :- ReadNumber(ID, s);
    var ts :- ReadText(TS, id.1);
    var pid :- ReadNumber(PID, ts.1);
    var rootPid :- ReadNumber(ROOT_PID, pid.1);
    var flags :- ReadNumber(FLAGS, rootPid.1);
    var sizeHint :- ReadNumber(SIZE_HINT, flags.1);
    var src :- ReadText(SRC, sizeHint.1);
    var dest :- ReadText(DEST, src.1);
    var status :- ReadStatus(dest.1);
    Some(Entry(id.0, ts.0, pid.0, rootPid.0, flags.0, sizeHint.0, src.0, dest.0, status))
  }

  lemma ReadDecimalOf(n: nat, rest: WString)
    requires rest != [] && !IsDigit(rest[0])
    ensures ReadDecimal(Decimal(n) + rest) == Some((n, rest))
  {
    LeadingDigitsBefore(Decimal(n), rest);
    ValueOfDecimal(n);
    assert (Decimal(n) + rest)[|Decimal(n)|..] == rest;
  }

  lemma ReadNumberOf(name: WString, n: nat, rest: WString)
    requires rest != [] && !IsDigit(rest[0])
    ensures ReadNumber(name, NumberField(name, n, rest)) == Some((n, rest))
  {
    ReadDecimalOf(n, rest);
    assert (name + (Decimal(n) + rest))[|name|..] == Decimal(n) + rest;
  }

  lemma ReadTextOf(name: WString, text: WString, rest: WString)
    ensures ReadText(name, TextField(name, text, rest)) == Some((text, rest))
  {
    UnescapeInvertsEscape(text, rest);
    assert (name + (Escape(text) + [QUOTE] + rest))[|name|..] == Escape(text) + [QUOTE] + rest;
  }

  lemma ReadStatusOf(e: Entry)
    ensures ReadStatus(EndOf(e)) == Some(e.status)
  {
    var body := Integer(e.status) + CLOSE;
    assert EndOf(e)[|STATUS|..] == body;
    if e.status < 0 {
      ReadDecimalOf(-e.status, CLOSE);
      assert body[1..] == Decimal(-e.status) + CLOSE;
    } else {
      ReadDecimalOf(e.status, CLOSE);
      assert IsDigit(body[0]);
    }
  }

  /** Reading inverts writing, field by field. */
  lemma ReadObjectOf(e: Entry)
    ensures ReadObject(ObjectOf(e)) == Some(e)
  {
    ReadNumberOf(ID, e.id, FromTs(e));
    ReadTextOf(TS, e.ts, FromPid(e));
    ReadNumberOf(PID, e.pid, FromRootPid(e));
    ReadNumberOf(ROOT_PID, e.rootPid, FromFlags(e));
    ReadNumberOf(FLAGS, e.flags, FromSizeHint(e));
    ReadNumberOf(SIZE_HINT, e.sizeHint, FromSrc(e));
    ReadTextOf(SRC, e.src, FromDest(e));
    ReadTextOf(DEST, e.dest, EndOf(e));
    ReadStatusOf(e);
  }

  // ----- the journal -----

  function Journal(entries: seq<Entry>): WString {
    if entries == [] then [] else LineOf(entries[0]) + Journal(entries[1..])
  }

  /** The text before the first newline. */
  function FirstLine(s: WString): (r: WString)
    ensures r <= s && NoNewline(r)
  {
    if s == [] || s[0] == NEWLINE then [] else [s[0]] + FirstLine(s[1..])
  }

  /** Splits at newlines and reads each line; the last line must be closed. */
  function ReadJournal(s: WString): Option<seq<Entry>> {
    if s == [] then Some([])
    else
      var line := FirstLine(s);
      if |line| == |s| then None
      else
        var e :- ReadObject(line);
        var rest :- ReadJournal(s[|line| + 1..]);
        Some([e] + rest)
  }

  lemma {:induction false} FirstLineOf(line: WString, rest: WString)
    requires NoNewline(line)
    ensures FirstLine(line + [NEWLINE] + rest) == line
  {
    if line != [] {
      assert (line + [NEWLINE] + rest)[1..] == line[1..] + [NEWLINE] + rest;
      FirstLineOf(line[1..], rest);
    }
  }

  lemma NumberFieldHasNoNewline(name: WString, n: nat, rest: WString)
    requires NoNewline(name) && NoNewline(rest)
    ensures NoNewline(NumberField(name, n, rest))
  {}

  lemma TextFieldHasNoNewline(name: WString, text: WString, rest: WString)
    requires NoNewline(name) && NoNewline(rest)
    ensures NoNewline(TextField(name, text, rest))
  {
    EscapeHasNoNewline(text);
  }

  lemma ObjectHasNoNewline(e: Entry)
    ensures NoNewline(ObjectOf(e))
  {
    TextFieldHasNoNewline(DEST, e.dest, EndOf(e));
    TextFieldHasNoNewline(SRC, e.src, FromDest(e));
    NumberFieldHasNoNewline(SIZE_HINT, e.sizeHint, FromSrc(e));
    NumberFieldHasNoNewline(FLAGS, e.flags, FromSizeHint(e));
    NumberFieldHasNoNewline(ROOT_PID, e.rootPid, FromFlags(e));
    NumberFieldHasNoNewline(PID, e.pid, FromRootPid(e));
    TextFieldHasNoNewline(TS, e.ts, FromPid(e));
    NumberFieldHasNoNewline(ID, e.id, FromTs(e));
  }

  /** Splitting the journal at newlines and reading each line recovers exactly the entries written. */
  lemma {:induction false} JournalRoundTrip(entries: seq<Entry>)
    ensures ReadJournal(Journal(entries)) == Some(entries)
  {
    hide ObjectOf, ReadObject;
    if entries != [] {
      var e, rest := entries[0], Journal(entries[1..]);
      var s := Journal(entries);
      ObjectHasNoNewline(e);
      assert s == ObjectOf(e) + [NEWLINE] + rest;
      FirstLineOf(ObjectOf(e), rest);
      ReadObjectOf(e);
      assert s[|ObjectOf(e)| + 1..] == rest;
      JournalRoundTrip(entries[1..]);
      assert [e] + entries[1..] == entries;
    }
  }

  lemma {:induction false} JournalSnoc(entries: seq<Entry>, e: Entry)
    ensures Journal(entries + [e]) == Journal(entries) + LineOf(e)
  {
    hide LineOf;
    if entries == [] {
      assert entries + [e] == [e];
      assert [e][1..] == [];
    } else {
      assert (entries + [e])[1..] == entries[1..] + [e];
      JournalSnoc(entries[1..], e);
    }
  }

  method AppendNumber(sb: WString, name: WString, n: nat, ghost rest: WString) returns (r: WString)
    ensures r + rest == sb + NumberField(name, n, rest)
  {
    r := sb + name;
    r := r + Decimal(n);
  }

  method AppendText(sb: WString, name: WString, text: WString, ghost rest: WString) returns (r: WString)
    ensures r + rest == sb + TextField(name, text, rest)
  {
    r := sb + name;
    var escaped := JsonEscape(text);
    r := r + escaped;
    r := r + [QUOTE];
  }

  method AppendPlain(sb: WString, name: WString, text: WString, ghost rest: WString) returns (r: WString)
    requires PlainText(text)
    ensures r + rest == sb + TextField(name, text, rest)
  {
    r := sb + name;
    r := r + text;
    r := r + [QUOTE];
  }

  method CloseObject(sb: WString, e: Entry) returns (r: WString)
    ensures r == sb + EndOf(e) + [NEWLINE]
  {
    r := sb + STATUS;
    r := r + Integer(e.status);
    r := r + CLOSE;
    r := r + [NEWLINE];
  }

  /** The StringBuilder of WriteEntry, field after field (lines 40-52). */
  method Line(e: Entry) returns (sb: WString)
    requires PlainText(e.ts)
    ensures sb == LineOf(e)
  {
    hide NumberField, TextField, Integer, Wide;
    sb := AppendNumber([], ID, e.id, FromTs(e));
    sb := AppendPlain(sb, TS, e.ts, FromPid(e));
    sb := AppendNumber(sb, PID, e.pid, FromRootPid(e));
    sb := AppendNumber(sb, ROOT_PID, e.rootPid, FromFlags(e));
    sb := AppendNumber(sb, FLAGS, e.flags, FromSizeHint(e));
    sb := AppendNumber(sb, SIZE_HINT, e.sizeHint, FromSrc(e));
    sb := AppendText(sb, SRC, e.src, FromDest(e));
    sb := AppendText(sb, DEST, e.dest, EndOf(e));
    assert sb + EndOf(e) == ObjectOf(e);
    sb := CloseObject(sb, e);
  }

  class Writer {
    /** The text in the stream, or None when it is not open. */
    var stream: Option<WString>
    ghost var entries: seq<Entry>

    ghost predicate Valid()
      reads this
    {
      stream.Some? ==> stream.value == Journal(entries)
    }

    /** The journal of a fresh session. */
    constructor ()
      ensures Valid() && stream == Some([]) && entries == []
    {
      stream := Some([]);
      entries := [];
    }

    /** WriteEntry: one line per entry, appended under the lock; nothing once the stream is closed. */
    method WriteEntry(e: Entry)
      requires Valid() && PlainText(e.ts)
      modifies this
      ensures Valid() && entries == if old(stream).None? then old(entries) else old(entries) + [e]
      ensures stream == if old(stream).None? then None else Some(old(stream).value + LineOf(e))
    {
      hide LineOf;
      var sb := Line(e);
      if stream.None? { return; }
      stream := Some(stream.value + sb);
      JournalSnoc(entries, e);
      entries := entries + [e];
    }

    method Dispose()
      modifies this
      ensures stream == None
    {
      stream := None;
    }
  }
}
