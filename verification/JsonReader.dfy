/** A reader of flat JSON objects that knows nothing of the journal, and what it finds in a journal line. */
module JsonReader {
  import opened Options
  import opened WideText
  import opened Numerals
  import opened Manifest

  const COMMA: WChar := 44
  const OPEN_BRACE: WChar := 123
  const CLOSE_BRACE: WChar := 125

  datatype Json = Text(text: WString) | Number(value: int)

  type Member = (WString, Json)

  function Signed(negative: bool, n: int): int { if negative then -n else n }

  /** A string or an integer, and what follows it. */
  function ReadValue(s: WString): Option<(Json, WString)> {
    if s != [] && s[0] == QUOTE then
      var t :- ReadString(s[1..]);
      Some((Text(t.0), t.1))
    else
      var negative := s != [] && s[0] == MINUS;
      var n :- ReadDecimal(if negative then s[1..] else s);
      Some((Number(Signed(negative, n.0)), n.1))
  }

  /** A quoted key, a colon and a value. */
  function ReadMember(s: WString): Option<(Member, WString)> {
    if s == [] || s[0] != QUOTE then None
    else
      var key :- ReadString(s[1..]);
      if key.1 == [] || key.1[0] != COLON then None
      else
        var v :- ReadValue(key.1[1..]);
        Some(((key.0, v.0), v.1))
  }

  /** Members separated by commas, up to the brace that ends the text. */
  function ReadMembers(s: WString): Option<seq<Member>>
    decreases |s|
  {
    var m :- ReadMember(s);
    if m.1 == [CLOSE_BRACE] then Some([m.0])
    else if m.1 == [] || m.1[0] != COMMA || |m.1| > |s| then None
    else
      var ms :- ReadMembers(m.1[1..]);
      Some([m.0] + ms)
  }

  function ReadJson(s: WString): Option<seq<Member>> {
    if s == [] || s[0] != OPEN_BRACE then None else ReadMembers(s[1..])
  }

  // ----- keys -----

  predicate Plain(s: WString) {
    forall i :: 0 <= i < |s| ==> s[i] >= 0x20 && s[i] != QUOTE && s[i] != BACKSLASH
  }

  lemma {:induction false} PlainIsUnescaped(s: WString)
    requires Plain(s)
    ensures Escape(s) == s
  {
    if s != [] {
      PlainIsUnescaped(s[1..]);
    }
  }

  lemma ReadKey(key: WString, rest: WString)
    requires Plain(key)
    ensures ReadString(key + [QUOTE] + rest) == Some((key, rest))
  {
    PlainIsUnescaped(key);
    UnescapeInvertsEscape(key, rest);
  }

  /** A name of the journal: a separator, the quoted key, a colon. */
  predicate Names(name: WString, sep: WChar, key: WString) {
    Plain(key) && name == [sep, QUOTE] + key + [QUOTE, COLON]
  }

  lemma ReadMemberOf(name: WString, sep: WChar, key: WString, value: WString, v: Json, rest: WString)
    requires Names(name, sep, key) && ReadValue(value + rest) == Some((v, rest))
    ensures ReadMember((name + (value + rest))[1..]) == Some(((key, v), rest))
  {
    hide ReadString, ReadValue, Plain;
    var s := (name + (value + rest))[1..];
    assert s == [QUOTE] + (key + [QUOTE] + ([COLON] + (value + rest)));
    assert s[1..] == key + [QUOTE] + ([COLON] + (value + rest));
    ReadKey(key, [COLON] + (value + rest));
    assert ([COLON] + (value + rest))[1..] == value + rest;
  }

  lemma UnsignedValue(n: nat, rest: WString)
    requires rest != [] && !IsDigit(rest[0])
    ensures ReadValue(Decimal(n) + rest) == Some((Number(n), rest))
  {
    assert IsDigit((Decimal(n) + rest)[0]);
    ReadDecimalOf(n, rest);
    hide ReadDecimal;
  }

  lemma NegativeValue(n: int, rest: WString)
    requires n < 0 && rest != [] && !IsDigit(rest[0])
    ensures ReadValue([MINUS] + Decimal(-n) + rest) == Some((Number(n), rest))
  {
    ReadDecimalOf(-n, rest);
    assert [MINUS] + Decimal(-n) + rest == [MINUS] + (Decimal(-n) + rest);
    hide ReadDecimal, Decimal;
    MinusValue(Decimal(-n) + rest, -n, rest);
  }

  lemma MinusValue(body: WString, n: nat, rest: WString)
    requires ReadDecimal(body) == Some((n, rest))
    ensures ReadValue([MINUS] + body) == Some((Number(-(n as int)), rest))
  {
    hide ReadDecimal, ReadString;
    assert ([MINUS] + body)[1..] == body;
  }

  lemma NumberValue(n: int, rest: WString)
    requires rest != [] && !IsDigit(rest[0])
    ensures ReadValue(Integer(n) + rest) == Some((Number(n), rest))
  {
    hide ReadValue, Decimal;
    if n < 0 { NegativeValue(n, rest); } else { UnsignedValue(n, rest); }
  }

  lemma TextValue(text: WString, rest: WString)
    ensures ReadValue([QUOTE] + (Escape(text) + [QUOTE] + rest)) == Some((Text(text), rest))
  {
    var s := [QUOTE] + (Escape(text) + [QUOTE] + rest);
    assert s[1..] == Escape(text) + [QUOTE] + rest;
    UnescapeInvertsEscape(text, rest);
  }

  // ----- the fields of an entry -----

  lemma NumberMember(name: WString, sep: WChar, key: WString, n: nat, rest: WString, ms: seq<Member>)
    requires Names(name, sep, key) && rest != [] && rest[0] == COMMA && ReadMembers(rest[1..]) == Some(ms)
    ensures ReadMembers(NumberField(name, n, rest)[1..]) == Some([(key, Number(n))] + ms)
  {
    NumberValue(n, rest);
    ReadMemberOf(name, sep, key, Decimal(n), Number(n), rest);
    hide ReadMember, Decimal, Names;
    Continues(NumberField(name, n, rest)[1..], (key, Number(n)), rest, ms);
  }

  lemma TextMember(name: WString, sep: WChar, key: WString, text: WString, rest: WString, ms: seq<Member>)
    requires Names(name, sep, key) && rest != [] && rest[0] == COMMA && ReadMembers(rest[1..]) == Some(ms)
    ensures ReadMembers(TextField(name + [QUOTE], text, rest)[1..]) == Some([(key, Text(text))] + ms)
  {
    var value := [QUOTE] + (Escape(text) + [QUOTE]);
    TextValue(text, rest);
    Regroup(name, Escape(text), rest);
    ReadMemberOf(name, sep, key, value, Text(text), rest);
    hide ReadMember, ReadValue, Escape, Names;
    Continues(TextField(name + [QUOTE], text, rest)[1..], (key, Text(text)), rest, ms);
  }

  lemma Regroup(name: WString, escaped: WString, rest: WString)
    ensures [QUOTE] + (escaped + [QUOTE]) + rest == [QUOTE] + (escaped + [QUOTE] + rest)
    ensures name + [QUOTE] + (escaped + [QUOTE] + rest) == name + ([QUOTE] + (escaped + [QUOTE]) + rest)
  {}

  lemma Continues(s: WString, m: Member, rest: WString, ms: seq<Member>)
    requires ReadMember(s) == Some((m, rest)) && rest != [] && rest[0] == COMMA && |rest| <= |s|
    requires ReadMembers(rest[1..]) == Some(ms)
    ensures ReadMembers(s) == Some([m] + ms)
  {
    hide ReadMember;
  }

  // The members of an entry from each field on.
  function StatusOn(e: Entry): seq<Member> { [(Wide("status"), Number(e.status))] }
  function DestOn(e: Entry): seq<Member> { [(Wide("dest"), Text(e.dest))] + StatusOn(e) }
  function SrcOn(e: Entry): seq<Member> { [(Wide("src"), Text(e.src))] + DestOn(e) }
  function SizeHintOn(e: Entry): seq<Member> { [(Wide("size_hint"), Number(e.sizeHint))] + SrcOn(e) }
  function FlagsOn(e: Entry): seq<Member> { [(Wide("flags"), Number(e.flags))] + SizeHintOn(e) }
  function RootPidOn(e: Entry): seq<Member> { [(Wide("root_pid"), Number(e.rootPid))] + FlagsOn(e) }
  function PidOn(e: Entry): seq<Member> { [(Wide("pid"), Number(e.pid))] + RootPidOn(e) }
  function TsOn(e: Entry): seq<Member> { [(Wide("ts"), Text(e.ts))] + PidOn(e) }
  function IdOn(e: Entry): seq<Member> { [(Wide("id"), Number(e.id))] + TsOn(e) }

  lemma ReadStatusField(e: Entry)
    ensures ReadMembers(EndOf(e)[1..]) == Some(StatusOn(e))
  {
    NumberValue(e.status, CLOSE);
    ReadMemberOf(STATUS, COMMA, Wide("status"), Integer(e.status), Number(e.status), CLOSE);
  }

  lemma NumberNames()
    ensures Names(ID, OPEN_BRACE, Wide("id")) && Names(PID, COMMA, Wide("pid"))
    ensures Names(ROOT_PID, COMMA, Wide("root_pid")) && Names(FLAGS, COMMA, Wide("flags"))
    ensures Names(SIZE_HINT, COMMA, Wide("size_hint"))
  {}

  /** The name of a text field ends with the quote that opens its value. */
  lemma TextNames()
    ensures TS == TS[..6] + [QUOTE] && Names(TS[..6], COMMA, Wide("ts"))
    ensures SRC == SRC[..7] + [QUOTE] && Names(SRC[..7], COMMA, Wide("src"))
    ensures DEST == DEST[..8] + [QUOTE] && Names(DEST[..8], COMMA, Wide("dest"))
  {}

  predicate LedBy(s: WString, c: WChar) { s != [] && s[0] == c }

  lemma Leads(e: Entry)
    ensures LedBy(EndOf(e), COMMA) && LedBy(FromDest(e), COMMA) && LedBy(FromSrc(e), COMMA)
    ensures LedBy(FromSizeHint(e), COMMA) && LedBy(FromFlags(e), COMMA) && LedBy(FromRootPid(e), COMMA)
    ensures LedBy(FromPid(e), COMMA) && LedBy(FromTs(e), COMMA) && LedBy(ObjectOf(e), OPEN_BRACE)
  {}

  lemma ReadDest(e: Entry)
    ensures ReadMembers(FromDest(e)[1..]) == Some(DestOn(e))
  {
    ReadStatusField(e);
    Leads(e);
    TextNames();
    hide Names, Wide, ReadMembers, TextField, EndOf, StatusOn;
    TextMember(DEST[..8], COMMA, Wide("dest"), e.dest, EndOf(e), StatusOn(e));
  }

  lemma ReadSrc(e: Entry)
    ensures ReadMembers(FromSrc(e)[1..]) == Some(SrcOn(e))
  {
    ReadDest(e);
    Leads(e);
    TextNames();
    hide Names, Wide, ReadMembers, TextField, FromDest, DestOn;
    TextMember(SRC[..7], COMMA, Wide("src"), e.src, FromDest(e), DestOn(e));
  }

  lemma ReadSizeHint(e: Entry)
    ensures ReadMembers(FromSizeHint(e)[1..]) == Some(SizeHintOn(e))
  {
    ReadSrc(e);
    Leads(e);
    NumberNames();
    hide Names, Wide, ReadMembers, NumberField, FromSrc, SrcOn;
    NumberMember(SIZE_HINT, COMMA, Wide("size_hint"), e.sizeHint, FromSrc(e), SrcOn(e));
  }

  lemma ReadFlags(e: Entry)
    ensures ReadMembers(FromFlags(e)[1..]) == Some(FlagsOn(e))
  {
    ReadSizeHint(e);
    Leads(e);
    NumberNames();
    hide Names, Wide, ReadMembers, NumberField, FromSizeHint, SizeHintOn;
    NumberMember(FLAGS, COMMA, Wide("flags"), e.flags, FromSizeHint(e), SizeHintOn(e));
  }

  lemma ReadRootPid(e: Entry)
    ensures ReadMembers(FromRootPid(e)[1..]) == Some(RootPidOn(e))
  {
    ReadFlags(e);
    Leads(e);
    NumberNames();
    hide Names, Wide, ReadMembers, NumberField, FromFlags, FlagsOn;
    NumberMember(ROOT_PID, COMMA, Wide("root_pid"), e.rootPid, FromFlags(e), FlagsOn(e));
  }

  lemma ReadPid(e: Entry)
    ensures ReadMembers(FromPid(e)[1..]) == Some(PidOn(e))
  {
    ReadRootPid(e);
    Leads(e);
    NumberNames();
    hide Names, Wide, ReadMembers, NumberField, FromRootPid, RootPidOn;
    NumberMember(PID, COMMA, Wide("pid"), e.pid, FromRootPid(e), RootPidOn(e));
  }

  lemma ReadTs(e: Entry)
    ensures ReadMembers(FromTs(e)[1..]) == Some(TsOn(e))
  {
    ReadPid(e);
    Leads(e);
    TextNames();
    hide Names, Wide, ReadMembers, TextField, FromPid, PidOn;
    TextMember(TS[..6], COMMA, Wide("ts"), e.ts, FromPid(e), PidOn(e));
  }

  lemma ReadId(e: Entry)
    ensures ReadMembers(ObjectOf(e)[1..]) == Some(IdOn(e))
  {
    ReadTs(e);
    Leads(e);
    NumberNames();
    hide Names, Wide, ReadMembers, NumberField, FromTs, TsOn;
    NumberMember(ID, OPEN_BRACE, Wide("id"), e.id, FromTs(e), TsOn(e));
  }

  /** A journal line is a JSON object with these nine members, in this order, whatever their values. */
  lemma ObjectMembers(e: Entry)
    ensures ReadJson(ObjectOf(e)) == Some([
        (Wide("id"), Number(e.id)), (Wide("ts"), Text(e.ts)), (Wide("pid"), Number(e.pid)),
        (Wide("root_pid"), Number(e.rootPid)), (Wide("flags"), Number(e.flags)),
        (Wide("size_hint"), Number(e.sizeHint)), (Wide("src"), Text(e.src)), (Wide("dest"), Text(e.dest)),
        (Wide("status"), Number(e.status))])
  {
    ReadId(e);
    Leads(e);
    hide ReadMembers, ObjectOf, Wide;
    Nine((Wide("id"), Number(e.id)), (Wide("ts"), Text(e.ts)), (Wide("pid"), Number(e.pid)),
         (Wide("root_pid"), Number(e.rootPid)), (Wide("flags"), Number(e.flags)),
         (Wide("size_hint"), Number(e.sizeHint)), (Wide("src"), Text(e.src)), (Wide("dest"), Text(e.dest)),
         (Wide("status"), Number(e.status)));
  }

  lemma Nine(a: Member, b: Member, c: Member, d: Member, e: Member, f: Member, g: Member, h: Member, i: Member)
    ensures [a] + ([b] + ([c] + ([d] + ([e] + ([f] + ([g] + ([h] + [i]))))))) == [a, b, c, d, e, f, g, h, i]
  {}
}
