/**
 * The QR payload a ticket holder shows at the door: a JSON object text
 * (RFC 8259, section 4) whose member values are JSON strings (RFC 8259,
 * section 7). The encoder is `JSON.stringify` of an object literal whose
 * values are strings; the decoder is `JSON.parse` restricted to objects of
 * string-valued members, followed by a lookup of the three keys.
 */
module TicketToken {

  import opened Wrappers

  /** One object member: its key and its string value, in text order. */
  type Member = (string, string)

  /** The three keys the scanner destructures from the parsed object. */
  datatype Payload = Payload(ticketId: Option<string>, partyId: Option<string>, userId: Option<string>)

  // ---------------------------------------------------------------------------
  // Encoding (JSON.stringify)
  // ---------------------------------------------------------------------------

  function HexLower(d: nat): char
    requires d < 16
  {
    if d < 10 then ('0' as int + d) as char else ('a' as int + d - 10) as char
  }

  /**
   * How `JSON.stringify` writes one character inside a string: the two-character
   * escapes for quotation mark, reverse solidus, backspace, tab, line feed,
   * form feed and carriage return, `\u00xx` with lower-case hex digits for the
   * other control characters, and the character itself otherwise.
   */
  function EscapeChar(c: char): string
  {
    if c == '"' then ['\\', '"']
    else if c == '\\' then ['\\', '\\']
    else if c == 8 as char then ['\\', 'b']
    else if c == 9 as char then ['\\', 't']
    else if c == 10 as char then ['\\', 'n']
    else if c == 12 as char then ['\\', 'f']
    else if c == 13 as char then ['\\', 'r']
    else if (c as int) < 0x20 then ['\\', 'u', '0', '0', HexLower(c as int / 16), HexLower(c as int % 16)]
    else [c]
  }

  function EscapeString(s: string): string
  {
    if s == [] then [] else EscapeChar(s[0]) + EscapeString(s[1..])
  }

  /** A JSON string literal holding exactly `s`. */
  function Quote(s: string): string
  {
    ['"'] + EscapeString(s) + ['"']
  }

  function EncodeMember(m: Member): string
  {
    Quote(m.0) + ":" + Quote(m.1)
  }

  /** The members after the first, each preceded by a comma. */
  function EncodeMoreMembers(ms: seq<Member>): string
  {
    if ms == [] then "" else "," + EncodeMember(ms[0]) + EncodeMoreMembers(ms[1..])
  }

  /** `JSON.stringify` of an object whose members are `ms`, in order, with no whitespace. */
  function EncodeObject(ms: seq<Member>): string
  {
    if ms == [] then "{}" else "{" + EncodeMember(ms[0]) + EncodeMoreMembers(ms[1..]) + "}"
  }

  /**
   * The members of the QR object literal, in the order written: `ticketId`,
   * `partyId`, then `userId`. `JSON.stringify` drops a member whose value is
   * `undefined`, so without a signed-in user there is no `userId` member.
   */
  function PayloadMembers(ticketId: string, partyId: string, userId: Option<string>): seq<Member>
  {
    [("ticketId", ticketId), ("partyId", partyId)] + (if userId.Some? then [("userId", userId.value)] else [])
  }

  function Encode(ticketId: string, partyId: string, userId: Option<string>): string
  {
    EncodeObject(PayloadMembers(ticketId, partyId, userId))
  }

  // ---------------------------------------------------------------------------
  // Decoding (JSON.parse, restricted to objects of string members)
  // ---------------------------------------------------------------------------

  /** Insignificant whitespace of RFC 8259, section 2. */
  predicate IsWs(c: char) {
    c == ' ' || c == 9 as char || c == 10 as char || c == 13 as char
  }

  function SkipWs(s: string): (r: string)
    ensures |r| <= |s|
    ensures r == [] || !IsWs(r[0])
  {
    if |s| > 0 && IsWs(s[0]) then SkipWs(s[1..]) else s
  }

  function HexValue(c: char): Option<nat>
  {
    if '0' <= c <= '9' then Some(c as int - '0' as int)
    else if 'a' <= c <= 'f' then Some(c as int - 'a' as int + 10)
    else if 'A' <= c <= 'F' then Some(c as int - 'A' as int + 10)
    else None
  }

  /** The value of four hex digits; `None` unless all four are hex digits. */
  function Hex4(s: string): (r: Option<nat>)
    requires |s| == 4
    ensures r.Some? ==> r.value < 0x10000
  {
    match (HexValue(s[0]), HexValue(s[1]), HexValue(s[2]), HexValue(s[3]))
    case (Some(a), Some(b), Some(c), Some(d)) =>
      if a < 16 && b < 16 && c < 16 && d < 16 then Some(((a * 16 + b) * 16 + c) * 16 + d) else None
    case _ => None
  }

  /** The character a two-character escape `\e` stands for. */
  function SimpleEscape(e: char): Option<char>
  {
    if e == '"' then Some('"')
    else if e == '\\' then Some('\\')
    else if e == '/' then Some('/')
    else if e == 'b' then Some(8 as char)
    else if e == 'f' then Some(12 as char)
    else if e == 'n' then Some(10 as char)
    else if e == 'r' then Some(13 as char)
    else if e == 't' then Some(9 as char)
    else None
  }

  function Prepend(c: char, r: Option<(string, string)>): (p: Option<(string, string)>)
    ensures p.Some? <==> r.Some?
    ensures p.Some? ==> p.value == ([c] + r.value.0, r.value.1)
  {
    match r
    case None => None
    case Some((v, rest)) => Some(([c] + v, rest))
  }

  /**
   * The characters of a string literal after its opening quotation mark,
   * up to and including the closing one: the decoded text and what follows.
   * An unescaped control character, an unknown escape or a missing closing
   * quotation mark makes it fail.
   */
  function ParseStringBody(s: string): (r: Option<(string, string)>)
    ensures r.Some? ==> |r.value.1| < |s|
    decreases |s|
  {
    if |s| == 0 then None
    else if s[0] == '"' then Some(([], s[1..]))
    else if s[0] == '\\' then
      if |s| < 2 then None
      else if s[1] == 'u' then
        if |s| < 6 then None
        else match Hex4(s[2..6])
          case None => None
          case Some(v) =>
            if 0xD800 <= v < 0xE000 then None
            else Prepend(v as char, ParseStringBody(s[6..]))
      else match SimpleEscape(s[1])
        case None => None
        case Some(c) => Prepend(c, ParseStringBody(s[2..]))
    else if (s[0] as int) < 0x20 then None
    else Prepend(s[0], ParseStringBody(s[1..]))
  }

  function ParseString(s: string): (r: Option<(string, string)>)
    ensures r.Some? ==> |r.value.1| < |s|
  {
    if |s| > 0 && s[0] == '"' then ParseStringBody(s[1..]) else None
  }

  /** A member `"key" : "value"`, with optional whitespace around the colon. */
  function ParseMember(s: string): (r: Option<(Member, string)>)
    ensures r.Some? ==> |r.value.1| < |s|
  {
    var key := ParseString(s);
    if key.None? then None
    else
      var t := SkipWs(key.value.1);
      if |t| == 0 || t[0] != ':' then None
      else
        var value := ParseString(SkipWs(t[1..]));
        if value.None? then None
        else Some(((key.value.0, value.value.0), value.value.1))
  }

  /** After a member: either `}` ends the object, or `,` and another member follow. */
  function ParseMoreMembers(s: string, acc: seq<Member>): (r: Option<(seq<Member>, string)>)
    decreases |s|
  {
    var t := SkipWs(s);
    if |t| > 0 && t[0] == '}' then Some((acc, t[1..]))
    else if |t| > 0 && t[0] == ',' then
      var next := ParseMember(SkipWs(t[1..]));
      if next.None? then None
      else ParseMoreMembers(next.value.1, acc + [next.value.0])
    else None
  }

  /** The members of a JSON object text, in text order; `None` if it is not one. */
  function ParseObject(s: string): Option<seq<Member>>
  {
    var t := SkipWs(s);
    if |t| == 0 || t[0] != '{' then None
    else
      var u := SkipWs(t[1..]);
      if |u| > 0 && u[0] == '}' then
        if SkipWs(u[1..]) == [] then Some([]) else None
      else
        var first := ParseMember(u);
        if first.None? then None
        else
          var more := ParseMoreMembers(first.value.1, [first.value.0]);
          if more.None? || SkipWs(more.value.1) != [] then None else Some(more.value.0)
  }

  /** `JSON.parse` keeps the last of several members with the same key. */
  function Lookup(ms: seq<Member>, key: string): (r: Option<string>)
    ensures r.Some? <==> exists i :: 0 <= i < |ms| && ms[i].0 == key
    ensures r.Some? ==>
      exists i :: 0 <= i < |ms| && ms[i] == (key, r.value) && forall j :: i < j < |ms| ==> ms[j].0 != key
  {
    if ms == [] then None
    else if ms[|ms| - 1].0 == key then Some(ms[|ms| - 1].1)
    else Lookup(ms[..|ms| - 1], key)
  }

  /** `JSON.parse` of the scanned text, then `const { ticketId, partyId, userId } = qrData`. */
  function Decode(data: string): Option<Payload>
  {
    match ParseObject(data)
    case None => None
    case Some(ms) => Some(Payload(Lookup(ms, "ticketId"), Lookup(ms, "partyId"), Lookup(ms, "userId")))
  }

  // ---------------------------------------------------------------------------
  // Round trip
  // ---------------------------------------------------------------------------

  lemma HexLowerValue(d: nat)
    requires d < 16
    ensures HexValue(HexLower(d)) == Some(d)
  {
  }

  lemma ShortEscapeParses(e: char, c: char, rest: string)
    requires e != 'u' && SimpleEscape(e) == Some(c)
    ensures ParseStringBody(['\\', e] + rest) == Prepend(c, ParseStringBody(rest))
  {
    assert (['\\', e] + rest)[2..] == rest;
  }

  lemma UnicodeEscapeParses(c: char, rest: string)
    requires (c as int) < 0x20
    ensures ParseStringBody(['\\', 'u', '0', '0', HexLower(c as int / 16), HexLower(c as int % 16)] + rest)
      == Prepend(c, ParseStringBody(rest))
  {
    var s := ['\\', 'u', '0', '0', HexLower(c as int / 16), HexLower(c as int % 16)] + rest;
    HexLowerValue(c as int / 16);
    HexLowerValue(c as int % 16);
    assert s[2..6] == ['0', '0', HexLower(c as int / 16), HexLower(c as int % 16)];
    assert Hex4(s[2..6]) == Some(c as int);
    assert s[6..] == rest;
  }

  lemma PlainCharParses(c: char, rest: string)
    requires c != '"' && c != '\\' && (c as int) >= 0x20
    ensures ParseStringBody([c] + rest) == Prepend(c, ParseStringBody(rest))
  {
    assert ([c] + rest)[1..] == rest;
  }

  /** Each escaped character reads back as itself, and reading goes on right after it. */
  lemma EscapeCharParses(c: char, rest: string)
    ensures ParseStringBody(EscapeChar(c) + rest) == Prepend(c, ParseStringBody(rest))
  {
    if c == '"' {
      ShortEscapeParses('"', c, rest);
    } else if c == '\\' {
      ShortEscapeParses('\\', c, rest);
    } else if c == 8 as char {
      ShortEscapeParses('b', c, rest);
    } else if c == 9 as char {
      ShortEscapeParses('t', c, rest);
    } else if c == 10 as char {
      ShortEscapeParses('n', c, rest);
    } else if c == 12 as char {
      ShortEscapeParses('f', c, rest);
    } else if c == 13 as char {
      ShortEscapeParses('r', c, rest);
    } else if (c as int) < 0x20 {
      UnicodeEscapeParses(c, rest);
    } else {
      PlainCharParses(c, rest);
    }
  }

  lemma {:induction false} EscapeStringParses(s: string, rest: string)
    ensures ParseStringBody(EscapeString(s) + ['"'] + rest) == Some((s, rest))
    decreases |s|
  {
    if s == [] {
      assert EscapeString(s) + ['"'] + rest == ['"'] + rest;
    } else {
      var tail := EscapeString(s[1..]) + ['"'] + rest;
      assert EscapeString(s) + ['"'] + rest == EscapeChar(s[0]) + tail;
      EscapeCharParses(s[0], tail);
      EscapeStringParses(s[1..], rest);
      assert [s[0]] + s[1..] == s;
    }
  }

  /** A quoted string reads back as the original text. */
  lemma QuoteParses(s: string, rest: string)
    ensures ParseString(Quote(s) + rest) == Some((s, rest))
  {
    var q := Quote(s) + rest;
    assert q[1..] == EscapeString(s) + ['"'] + rest;
    EscapeStringParses(s, rest);
  }

  lemma SkipWsStops(s: string)
    requires |s| > 0 && !IsWs(s[0])
    ensures SkipWs(s) == s
  {
  }

  /** Parsing a member is parsing its key, a colon, then its value. */
  lemma ParseMemberSteps(s: string, k: string, valueText: string, v: string, rest: string)
    requires ParseString(s) == Some((k, ":" + valueText))
    requires |valueText| > 0 && valueText[0] == '"'
    requires ParseString(valueText) == Some((v, rest))
    ensures ParseMember(s) == Some(((k, v), rest))
  {
    SkipWsStops(":" + valueText);
    assert (":" + valueText)[1..] == valueText;
    SkipWsStops(valueText);
  }

  lemma MemberParses(m: Member, rest: string)
    ensures ParseMember(EncodeMember(m) + rest) == Some((m, rest))
  {
    var valueText := Quote(m.1) + rest;
    assert EncodeMember(m) + rest == Quote(m.0) + (":" + valueText);
    QuoteParses(m.0, ":" + valueText);
    QuoteParses(m.1, rest);
    ParseMemberSteps(EncodeMember(m) + rest, m.0, valueText, m.1, rest);
  }

  lemma ParseMoreMembersEnd(rest: string, acc: seq<Member>)
    ensures ParseMoreMembers("}" + rest, acc) == Some((acc, rest))
  {
    SkipWsStops("}" + rest);
    assert ("}" + rest)[1..] == rest;
  }

  /** After a comma, reading goes on with the next member. */
  lemma ParseMoreMembersStep(text: string, t: string, acc: seq<Member>, m: Member, rest: string)
    requires text == "," + t
    requires |t| > 0 && t[0] == '"'
    requires ParseMember(t) == Some((m, rest))
    ensures ParseMoreMembers(text, acc) == ParseMoreMembers(rest, acc + [m])
  {
    SkipWsStops(text);
    assert text[0] == ',';
    assert text[1..] == t;
    SkipWsStops(t);
    assert SkipWs(text[1..]) == t;
  }

  lemma EncodeMemberStart(m: Member, rest: string)
    ensures var t := EncodeMember(m) + rest; |t| > 0 && t[0] == '"'
  {
    assert EncodeMember(m) + rest == ['"'] + (EscapeString(m.0) + ['"'] + ":" + Quote(m.1) + rest);
  }

  lemma EncodeMoreMembersCons(ms: seq<Member>, rest: string)
    requires ms != []
    ensures EncodeMoreMembers(ms) + "}" + rest == "," + (EncodeMember(ms[0]) + (EncodeMoreMembers(ms[1..]) + "}" + rest))
  {
  }

  /** Reading an encoded member list moves its first member into the accumulator. */
  lemma MoreMembersShift(ms: seq<Member>, acc: seq<Member>, rest: string)
    requires ms != []
    ensures ParseMoreMembers(EncodeMoreMembers(ms) + "}" + rest, acc)
      == ParseMoreMembers(EncodeMoreMembers(ms[1..]) + "}" + rest, acc + [ms[0]])
  {
    var after := EncodeMoreMembers(ms[1..]) + "}" + rest;
    var t := EncodeMember(ms[0]) + after;
    EncodeMoreMembersCons(ms, rest);
    EncodeMemberStart(ms[0], after);
    MemberParses(ms[0], after);
    ParseMoreMembersStep(EncodeMoreMembers(ms) + "}" + rest, t, acc, ms[0], after);
  }

  lemma AccumulateFirst(acc: seq<Member>, ms: seq<Member>)
    requires ms != []
    ensures acc + [ms[0]] + ms[1..] == acc + ms
  {
    assert ms == [ms[0]] + ms[1..];
  }

  lemma {:induction false} MoreMembersParse(ms: seq<Member>, acc: seq<Member>, rest: string)
    ensures ParseMoreMembers(EncodeMoreMembers(ms) + "}" + rest, acc) == Some((acc + ms, rest))
    decreases |ms|
  {
    if ms == [] {
      assert EncodeMoreMembers(ms) + "}" + rest == "}" + rest;
      ParseMoreMembersEnd(rest, acc);
      assert acc + ms == acc;
    } else {
      MoreMembersParse(ms[1..], acc + [ms[0]], rest);
      MoreMembersShift(ms, acc, rest);
      AccumulateFirst(acc, ms);
    }
  }

  lemma ParseObjectSteps(t: string, m: Member, rest: string, ms: seq<Member>)
    requires |t| > 0 && t[0] == '"'
    requires ParseMember(t) == Some((m, rest))
    requires ParseMoreMembers(rest, [m]) == Some((ms, ""))
    ensures ParseObject("{" + t) == Some(ms)
  {
    var s := "{" + t;
    SkipWsStops(s);
    assert s[0] == '{';
    assert s[1..] == t;
    SkipWsStops(t);
    assert SkipWs(s[1..]) == t;
    assert SkipWs("") == "";
  }

  /** The object text of any member list reads back as that list. */
  lemma ObjectParses(ms: seq<Member>)
    ensures ParseObject(EncodeObject(ms)) == Some(ms)
  {
    if ms == [] {
      SkipWsStops("{}");
      SkipWsStops("}");
      assert "{}"[1..] == "}";
      assert "}"[1..] == "";
    } else {
      var after := EncodeMoreMembers(ms[1..]) + "}" + "";
      var t := EncodeMember(ms[0]) + after;
      assert EncodeObject(ms) == "{" + t;
      EncodeMemberStart(ms[0], after);
      MemberParses(ms[0], after);
      MoreMembersParse(ms[1..], [ms[0]], "");
      assert [ms[0]] + ms[1..] == ms;
      ParseObjectSteps(t, ms[0], after, ms);
    }
  }

  /** The scanner's three lookups on the encoder's member list. */
  lemma LookupPayloadMembers(ticketId: string, partyId: string, userId: Option<string>)
    ensures var ms := PayloadMembers(ticketId, partyId, userId);
      Lookup(ms, "ticketId") == Some(ticketId) && Lookup(ms, "partyId") == Some(partyId)
      && Lookup(ms, "userId") == userId
  {
    var ms := PayloadMembers(ticketId, partyId, userId);
    var two := [("ticketId", ticketId), ("partyId", partyId)];
    assert two[..1] == [("ticketId", ticketId)];
    assert [("ticketId", ticketId)][..0] == [];
    if userId.Some? {
      assert ms[..|ms| - 1] == two;
      assert Lookup(ms, "ticketId") == Lookup(two, "ticketId");
      assert Lookup(ms, "partyId") == Lookup(two, "partyId");
      assert Lookup(two, "ticketId") == Some(ticketId);
      assert Lookup(two, "partyId") == Some(partyId);
      assert Lookup(ms, "userId") == userId;
    } else {
      assert ms == two;
    }
  }

  /**
   * Decoding an encoded payload recovers the three values: the encoder writes
   * exactly the keys the scanner destructures.
   */
  lemma DecodeEncode(ticketId: string, partyId: string, userId: Option<string>)
    ensures Decode(Encode(ticketId, partyId, userId)) == Some(Payload(Some(ticketId), Some(partyId), userId))
  {
    var ms := PayloadMembers(ticketId, partyId, userId);
    ObjectParses(ms);
    LookupPayloadMembers(ticketId, partyId, userId);
  }
}
