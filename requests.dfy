/** The two request builders of the attendee service: the roster page request,
    whose query string is assembled parameter by parameter, and the check-in
    request, whose body is the JSON text of `{attendeeId}`. */
module Requests {
  import opened Api

  datatype Verb = Get | Post

  /** An HTTP request as the client hands it to the platform: the verb, the path
      below the base URL and an optional body. Headers are fixed and left out. */
  datatype Request = Request(verb: Verb, path: string, body: Option<string>)

  /** The body of a check-in request. */
  datatype CheckinRequest = CheckinRequest(attendeeId: string)

  // ---------------------------------------------------------------------------
  // Decimal text of an integer, as `String(n)` prints it.

  predicate IsDigit(c: char)
  {
    '0' <= c <= '9'
  }

  predicate AllDigits(s: string)
  {
    forall i :: 0 <= i < |s| ==> IsDigit(s[i])
  }

  function DigitChar(d: int): (c: char)
    requires 0 <= d < 10
    ensures IsDigit(c) && c as int - '0' as int == d
  {
    ('0' as int + d) as char
  }

  /** Decimal digits of a natural number, most significant first, no leading zero. */
  function NatText(n: nat): (s: string)
    ensures |s| > 0 && AllDigits(s)
    ensures |s| > 1 ==> s[0] != '0'
    decreases n
  {
    if n < 10 then [DigitChar(n)] else NatText(n / 10) + [DigitChar(n % 10)]
  }

  /** `String(n)` for an integer-valued number: a minus sign before the digits
      of a negative value. */
  function DecimalText(n: int): (s: string)
    ensures |s| > 0
    ensures s[0] == '-' <==> n < 0
    ensures n >= 0 ==> AllDigits(s)
    ensures n < 0 ==> AllDigits(s[1..]) && |s| > 1
  {
    if n < 0 then "-" + NatText(-n) else NatText(n)
  }

  /** The value of a string of decimal digits (the empty string is 0). */
  function DigitsValue(s: string): nat
    requires AllDigits(s)
  {
    if s == [] then 0 else DigitsValue(s[..|s| - 1]) * 10 + (s[|s| - 1] as int - '0' as int)
  }

  /** Reads back what DecimalText writes: optional minus, then at least one digit. */
  function ParseDecimal(s: string): Option<int>
  {
    if |s| > 1 && s[0] == '-' && AllDigits(s[1..]) then Some(0 - DigitsValue(s[1..]))
    else if |s| > 0 && AllDigits(s) then Some(DigitsValue(s))
    else None
  }

  lemma {:induction false} NatTextValue(n: nat)
    ensures DigitsValue(NatText(n)) == n
    decreases n
  {
    if n >= 10 {
      var s := NatText(n);
      assert s[..|s| - 1] == NatText(n / 10);
      NatTextValue(n / 10);
    }
  }

  /** `page` and `limit` travel as decimal text that reads back as the number sent. */
  lemma DecimalRoundTrip(n: int)
    ensures ParseDecimal(DecimalText(n)) == Some(n)
  {
    if n < 0 {
      var s := DecimalText(n);
      assert s[1..] == NatText(-n);
      NatTextValue(-n);
    } else {
      NatTextValue(n);
    }
  }

  // ---------------------------------------------------------------------------
  // URLSearchParams: an ordered list of name/value pairs.

  type Param = (string, string)

  function Names(ps: seq<Param>): (ns: seq<string>)
    ensures |ns| == |ps|
  {
    seq(|ps|, i requires 0 <= i < |ps| => ps[i].0)
  }

  /** `params.get(k)`: the value of the first pair named `k`. */
  function Lookup(ps: seq<Param>, k: string): (r: Option<string>)
    ensures r.None? <==> k !in Names(ps)
  {
    if ps == [] then None
    else if ps[0].0 == k then
      assert Names(ps)[0] == k;
      Some(ps[0].1)
    else
      assert Names(ps) == [ps[0].0] + Names(ps[1..]);
      Lookup(ps[1..], k)
  }

  /** Every pair named `k` removed, the others kept in order. */
  function RemoveName(ps: seq<Param>, k: string): (r: seq<Param>)
    ensures k !in Names(r)
    ensures forall k' :: k' != k ==> Lookup(r, k') == Lookup(ps, k')
  {
    if ps == [] then []
    else
      var rest := RemoveName(ps[1..], k);
      if ps[0].0 == k then rest
      else
        assert Names([ps[0]] + rest) == [ps[0].0] + Names(rest);
        [ps[0]] + rest
  }

  /** The first pair named `k` gets value `v`, later pairs named `k` are dropped. */
  function ReplaceFirst(ps: seq<Param>, k: string, v: string): (r: seq<Param>)
    requires k in Names(ps)
    ensures Lookup(r, k) == Some(v)
    ensures multiset(Names(r))[k] == 1
    ensures forall k' :: k' != k ==> Lookup(r, k') == Lookup(ps, k')
  {
    assert Names(ps) == [ps[0].0] + Names(ps[1..]);
    if ps[0].0 == k then
      var rest := RemoveName(ps[1..], k);
      assert Names([(k, v)] + rest) == [k] + Names(rest);
      [(k, v)] + rest
    else
      var rest := ReplaceFirst(ps[1..], k, v);
      assert Names([ps[0]] + rest) == [ps[0].0] + Names(rest);
      [ps[0]] + rest
  }

  /** `params.set(k, v)`: replace the first pair named `k` and drop the others,
      or append `(k, v)` when there is none. */
  function SetParam(ps: seq<Param>, k: string, v: string): (r: seq<Param>)
    ensures Lookup(r, k) == Some(v)
    ensures multiset(Names(r))[k] == 1
    ensures forall k' :: k' != k ==> Lookup(r, k') == Lookup(ps, k')
    ensures k !in Names(ps) ==> r == ps + [(k, v)]
  {
    if k in Names(ps) then ReplaceFirst(ps, k, v)
    else
      var r := ps + [(k, v)];
      assert Names(r) == Names(ps) + [k];
      LookupAppend(ps, k, v);
      r
  }

  lemma {:induction false} LookupAppend(ps: seq<Param>, k: string, v: string)
    requires k !in Names(ps)
    ensures Lookup(ps + [(k, v)], k) == Some(v)
    ensures forall k' :: k' != k ==> Lookup(ps + [(k, v)], k') == Lookup(ps, k')
  {
    if ps != [] {
      assert Names(ps) == [ps[0].0] + Names(ps[1..]);
      assert (ps + [(k, v)])[1..] == ps[1..] + [(k, v)];
      LookupAppend(ps[1..], k, v);
    }
  }

  /** The parameters `getAttendees` collects: `search` only when it is non-empty,
      then `page` and `limit` as decimal text, in that order. */
  function AttendeeParams(search: string, page: int, limit: int): (ps: seq<Param>)
    ensures ps == (if search != "" then [("search", search)] else [])
                  + [("page", DecimalText(page)), ("limit", DecimalText(limit))]
    ensures Lookup(ps, "search").Some? <==> search != ""
    ensures search != "" ==> Lookup(ps, "search") == Some(search)
    ensures Lookup(ps, "page") == Some(DecimalText(page))
    ensures Lookup(ps, "limit") == Some(DecimalText(limit))
  {
    var empty: seq<Param> := [];
    var withSearch := if search != "" then SetParam(empty, "search", search) else empty;
    assert "page" !in Names(withSearch);
    var withPage := SetParam(withSearch, "page", DecimalText(page));
    assert Names(withPage) == Names(withSearch) + ["page"];
    SetParam(withPage, "limit", DecimalText(limit))
  }

  // ---------------------------------------------------------------------------
  // `params.toString()`: name=value pairs joined by '&', each part passed
  // through the form encoder, which is a parameter of the model.

  predicate IsUnreservedChar(c: char)
  {
    ('a' <= c <= 'z') || ('A' <= c <= 'Z') || IsDigit(c) || c in "*-._"
  }

  predicate Unreserved(s: string)
  {
    forall i :: 0 <= i < |s| ==> IsUnreservedChar(s[i])
  }

  /** What the model assumes of application/x-www-form-urlencoded: decoding
      undoes encoding, an encoded part never holds the separators '&' and '=',
      and a string of unreserved characters is left as it is. */
  ghost predicate FormCodec(enc: string -> string, dec: string -> string)
  {
    && (forall s :: dec(enc(s)) == s)
    && (forall s :: '&' !in enc(s) && '=' !in enc(s))
    && (forall s :: Unreserved(s) ==> enc(s) == s)
  }

  function EncodePair(p: Param, enc: string -> string): string
  {
    enc(p.0) + "=" + enc(p.1)
  }

  /** `params.toString()`; QueryRoundTrip states its inverse. */
  function Serialize(ps: seq<Param>, enc: string -> string): (q: string)
    ensures q == "" <==> ps == []
  {
    if ps == [] then ""
    else if |ps| == 1 then EncodePair(ps[0], enc)
    else EncodePair(ps[0], enc) + "&" + Serialize(ps[1..], enc)
  }

  /** Splits at every occurrence of `sep`; always at least one piece. */
  function SplitOn(s: string, sep: char): (parts: seq<string>)
    ensures |parts| >= 1
  {
    if s == [] then [""]
    else
      var rest := SplitOn(s[1..], sep);
      if s[0] == sep then [""] + rest else [[s[0]] + rest[0]] + rest[1..]
  }

  /** Splits at the first `sep`; without one, all of `s` is the first half. */
  function CutAt(s: string, sep: char): (string, string)
  {
    if s == [] then ("", "")
    else if s[0] == sep then ("", s[1..])
    else
      var cut := CutAt(s[1..], sep);
      ([s[0]] + cut.0, cut.1)
  }

  /** Reads a query string back into its pairs: the reference decoder the
      serializer is checked against. */
  function ParseQuery(q: string, dec: string -> string): seq<Param>
  {
    if q == [] then []
    else
      var parts := SplitOn(q, '&');
      seq(|parts|, i requires 0 <= i < |parts| =>
        var cut := CutAt(parts[i], '=');
        (dec(cut.0), dec(cut.1)))
  }

  lemma {:induction false} SplitOnPlain(a: string, sep: char)
    requires sep !in a
    ensures SplitOn(a, sep) == [a]
  {
    if a != [] {
      SplitOnPlain(a[1..], sep);
      assert [a[0]] + a[1..] == a;
    }
  }

  lemma {:induction false} SplitOnFirst(a: string, sep: char, b: string)
    requires sep !in a
    ensures SplitOn(a + [sep] + b, sep) == [a] + SplitOn(b, sep)
  {
    if a == [] {
      assert a + [sep] + b == [sep] + b;
      assert ([sep] + b)[1..] == b;
    } else {
      assert (a + [sep] + b)[1..] == a[1..] + [sep] + b;
      SplitOnFirst(a[1..], sep, b);
      assert [a[0]] + a[1..] == a;
    }
  }

  lemma {:induction false} CutAtFirst(a: string, sep: char, b: string)
    requires sep !in a
    ensures CutAt(a + [sep] + b, sep) == (a, b)
  {
    if a == [] {
      assert a + [sep] + b == [sep] + b;
      assert ([sep] + b)[1..] == b;
    } else {
      assert (a + [sep] + b)[1..] == a[1..] + [sep] + b;
      CutAtFirst(a[1..], sep, b);
      assert [a[0]] + a[1..] == a;
    }
  }

  lemma {:induction false} SplitSerialized(ps: seq<Param>, enc: string -> string, dec: string -> string)
    requires FormCodec(enc, dec)
    requires ps != []
    ensures SplitOn(Serialize(ps, enc), '&') == seq(|ps|, i requires 0 <= i < |ps| => EncodePair(ps[i], enc))
  {
    var first := EncodePair(ps[0], enc);
    assert '&' !in enc(ps[0].0) && '&' !in enc(ps[0].1);
    assert '&' !in first;
    if |ps| == 1 {
      SplitOnPlain(first, '&');
    } else {
      SplitOnFirst(first, '&', Serialize(ps[1..], enc));
      SplitSerialized(ps[1..], enc, dec);
    }
  }

  /** The query string reads back as exactly the pairs that were set, in order. */
  lemma QueryRoundTrip(ps: seq<Param>, enc: string -> string, dec: string -> string)
    requires FormCodec(enc, dec)
    ensures ParseQuery(Serialize(ps, enc), dec) == ps
  {
    if ps != [] {
      var q := Serialize(ps, enc);
      assert q != [] by {
        assert |EncodePair(ps[0], enc)| > 0;
        if |ps| > 1 { assert q == EncodePair(ps[0], enc) + "&" + Serialize(ps[1..], enc); }
      }
      SplitSerialized(ps, enc, dec);
      var parsed := ParseQuery(q, dec);
      assert |parsed| == |ps|;
      forall i | 0 <= i < |ps| ensures parsed[i] == ps[i] {
        var k, v := enc(ps[i].0), enc(ps[i].1);
        assert '=' !in k;
        CutAtFirst(k, '=', v);
        assert EncodePair(ps[i], enc) == k + ['='] + v;
      }
    }
  }

  // ---------------------------------------------------------------------------
  // The roster page request.

  function AttendeesPathPrefix(eventId: string): string
  {
    "/events/" + eventId + "/attendees?"
  }

  /** `getAttendees(eventId, search = '', page = 1, limit = 20)`: a GET without
      body whose path is the roster path of the event followed by the query. */
  function GetAttendees(enc: string -> string, eventId: string,
                        search: string := "", page: int := 1, limit: int := 20): (r: Request)
    ensures r.verb == Get && r.body == None
    ensures |AttendeesPathPrefix(eventId)| <= |r.path|
    ensures r.path[..|AttendeesPathPrefix(eventId)|] == AttendeesPathPrefix(eventId)
  {
    Request(Get, AttendeesPathPrefix(eventId) + Serialize(AttendeeParams(search, page, limit), enc), None)
  }

  /** The query of the roster request reads back as `search` (only when
      non-empty), `page` and `limit`, in that order. */
  lemma GetAttendeesQuery(enc: string -> string, dec: string -> string,
                          eventId: string, search: string, page: int, limit: int)
    requires FormCodec(enc, dec)
    ensures var r := GetAttendees(enc, eventId, search, page, limit);
            ParseQuery(r.path[|AttendeesPathPrefix(eventId)|..], dec) == AttendeeParams(search, page, limit)
  {
    var r := GetAttendees(enc, eventId, search, page, limit);
    var ps := AttendeeParams(search, page, limit);
    assert r.path[|AttendeesPathPrefix(eventId)|..] == Serialize(ps, enc);
    QueryRoundTrip(ps, enc, dec);
  }

  /** The default page 1 and limit 20 print as `1` and `20`. */
  lemma DecimalTextOneTwenty()
    ensures DecimalText(1) == "1" && DecimalText(20) == "20"
  {
    assert NatText(20) == NatText(2) + [DigitChar(0)];
  }

  /** The parameter names and the default page and limit are made of
      unreserved characters, so form encoding leaves them as they are. */
  lemma KeepsUnreserved(enc: string -> string, dec: string -> string)
    requires FormCodec(enc, dec)
    ensures enc("page") == "page" && enc("limit") == "limit"
    ensures enc("1") == "1" && enc("20") == "20"
  {
    assert Unreserved("page") && Unreserved("limit");
    assert Unreserved("1") && Unreserved("20");
  }

  /** With the defaults the roster request is for the first page of twenty,
      unfiltered. */
  lemma GetAttendeesDefaults(enc: string -> string, dec: string -> string, eventId: string)
    requires FormCodec(enc, dec)
    ensures GetAttendees(enc, eventId).path == "/events/" + eventId + "/attendees?page=1&limit=20"
  {
    DecimalTextOneTwenty();
    KeepsUnreserved(enc, dec);
    var ps := AttendeeParams("", 1, 20);
    assert ps == [("page", "1"), ("limit", "20")];
    assert EncodePair(ps[0], enc) == "page=1";
    assert EncodePair(ps[1], enc) == "limit=20";
    assert Serialize(ps, enc) == "page=1&limit=20" by {
      assert Serialize(ps, enc) == EncodePair(ps[0], enc) + "&" + Serialize(ps[1..], enc);
    }
  }

  // ---------------------------------------------------------------------------
  // JSON text of the check-in body (`JSON.stringify`).

  function HexDigit(d: int): char
    requires 0 <= d < 16
  {
    if d < 10 then ('0' as int + d) as char else ('a' as int + d - 10) as char
  }

  function HexValue(c: char): Option<int>
  {
    if '0' <= c <= '9' then Some(c as int - '0' as int)
    else if 'a' <= c <= 'f' then Some(c as int - 'a' as int + 10)
    else if 'A' <= c <= 'F' then Some(c as int - 'A' as int + 10)
    else None
  }

  /** How JSON.stringify writes one character inside a string literal: the
      quote and backslash escaped, the five control characters with a short
      escape, the other control characters as `\u00xx`, everything else as is. */
  function EscapeChar(c: char): (e: string)
    ensures 1 <= |e| <= 6
    ensures forall i :: 0 <= i < |e| ==> e[i] as int >= 0x20
    ensures |e| == 1 <==> c != '"' && c != '\\' && c as int >= 0x20
    ensures |e| == 1 ==> e == [c]
    ensures |e| > 1 ==> e[0] == '\\'
  {
    var n := c as int;
    if c == '"' then ['\\', '"']
    else if c == '\\' then ['\\', '\\']
    else if n == 0x08 then ['\\', 'b']
    else if n == 0x09 then ['\\', 't']
    else if n == 0x0A then ['\\', 'n']
    else if n == 0x0C then ['\\', 'f']
    else if n == 0x0D then ['\\', 'r']
    else if n < 0x20 then ['\\', 'u', '0', '0', HexDigit(n / 16), HexDigit(n % 16)]
    else [c]
  }

  /** The inside of the string literal: never shorter than the text, and
      without a raw control character. */
  function Escape(s: string): (e: string)
    ensures |s| <= |e|
    ensures forall i :: 0 <= i < |e| ==> e[i] as int >= 0x20
  {
    if s == [] then [] else EscapeChar(s[0]) + Escape(s[1..])
  }

  /** `JSON.stringify` of a string: a literal in double quotes whose inside
      reads back as the string. */
  function QuoteJson(s: string): (q: string)
    ensures |q| >= 2 && q[0] == '"' && q[|q| - 1] == '"'
    ensures Unescape(q[1..|q| - 1]) == Some(s)
  {
    var q := "\"" + Escape(s) + "\"";
    assert q[1..|q| - 1] == Escape(s);
    UnescapeEscape(s);
    q
  }

  function Prepend(c: char, o: Option<string>): Option<string>
  {
    match o
    case None => None
    case Some(t) => Some([c] + t)
  }

  /** The code point of four hex digits, when it is a valid character. */
  function HexCode(s: string): Option<char>
    requires |s| == 4
  {
    match (HexValue(s[0]), HexValue(s[1]), HexValue(s[2]), HexValue(s[3]))
    case (Some(a), Some(b), Some(c), Some(d)) =>
      var n := a * 4096 + b * 256 + c * 16 + d;
      if 0 <= n < 0xD800 || 0xE000 <= n < 0x10000 then Some(n as char) else None
    case _ => None
  }

  /** Decodes the inside of a JSON string literal; None when it is malformed. */
  function Unescape(s: string): Option<string>
    decreases |s|
  {
    if s == [] then Some([])
    else if s[0] == '"' || (s[0] as int) < 0x20 then None
    else if s[0] != '\\' then Prepend(s[0], Unescape(s[1..]))
    else if |s| < 2 then None
    else if s[1] == '"' then Prepend('"', Unescape(s[2..]))
    else if s[1] == '\\' then Prepend('\\', Unescape(s[2..]))
    else if s[1] == '/' then Prepend('/', Unescape(s[2..]))
    else if s[1] == 'b' then Prepend(0x08 as char, Unescape(s[2..]))
    else if s[1] == 't' then Prepend(0x09 as char, Unescape(s[2..]))
    else if s[1] == 'n' then Prepend(0x0A as char, Unescape(s[2..]))
    else if s[1] == 'f' then Prepend(0x0C as char, Unescape(s[2..]))
    else if s[1] == 'r' then Prepend(0x0D as char, Unescape(s[2..]))
    else if s[1] == 'u' && |s| >= 6 then
      match HexCode(s[2..6])
      case Some(c) => Prepend(c, Unescape(s[6..]))
      case None => None
    else None
  }

  lemma UnescapeStep(c: char, t: string)
    ensures Unescape(EscapeChar(c) + t) == Prepend(c, Unescape(t))
  {
    var e := EscapeChar(c);
    var n := c as int;
    if |e| == 1 {
      assert (e + t)[1..] == t;
    } else if |e| == 2 {
      assert (e + t)[2..] == t;
    } else {
      assert n < 0x20;
      assert (e + t)[2..6] == e[2..6];
      assert HexValue(HexDigit(n / 16)) == Some(n / 16);
      assert HexValue(HexDigit(n % 16)) == Some(n % 16);
      assert (e + t)[6..] == t;
      assert HexCode(e[2..6]) == Some(c);
    }
  }

  lemma {:induction false} UnescapeEscape(s: string)
    ensures Unescape(Escape(s)) == Some(s)
  {
    if s != [] {
      UnescapeStep(s[0], Escape(s[1..]));
      UnescapeEscape(s[1..]);
      assert [s[0]] + s[1..] == s;
    }
  }

  /** The JSON text of the request object, which has the one field
      `attendeeId`; it reads back as that request. */
  function CheckinBody(req: CheckinRequest): (body: string)
    ensures ParseCheckinBody(body) == Some(req)
  {
    var q := QuoteJson(req.attendeeId);
    var body := "{\"attendeeId\":" + q + "}";
    assert q == "\"" + q[1..|q| - 1] + "\"";
    assert body == BodyHead + q[1..|q| - 1] + BodyTail;
    ParseFramed(q[1..|q| - 1]);
    body
  }

  /** The parser finds the fixed head and tail around any inside text and
      decodes exactly that inside. */
  lemma ParseFramed(e: string)
    ensures ParseCheckinBody(BodyHead + e + BodyTail) ==
            match Unescape(e) case Some(id) => Some(CheckinRequest(id)) case None => None
  {
    var body := BodyHead + e + BodyTail;
    assert body[..|BodyHead|] == BodyHead;
    assert body[|body| - |BodyTail|..] == BodyTail;
    assert body[|BodyHead|..|body| - |BodyTail|] == e;
  }

  const BodyHead: string := "{\"attendeeId\":\""
  const BodyTail: string := "\"}"

  /** Reads a check-in body back: the one field `attendeeId`, a JSON string. */
  function ParseCheckinBody(body: string): Option<CheckinRequest>
  {
    if |body| >= |BodyHead| + |BodyTail|
       && body[..|BodyHead|] == BodyHead
       && body[|body| - |BodyTail|..] == BodyTail
    then
      match Unescape(body[|BodyHead|..|body| - |BodyTail|])
      case Some(id) => Some(CheckinRequest(id))
      case None => None
    else None
  }

  /** `postCheckin(eventId, body)`: a POST to the event's check-in path whose
      body is the JSON text of the request, which reads back as that request. */
  function PostCheckin(eventId: string, req: CheckinRequest): (r: Request)
    ensures r.verb == Post
    ensures r.path == "/events/" + eventId + "/checkin"
    ensures r.body.Some? && ParseCheckinBody(r.body.value) == Some(req)
  {
    Request(Post, "/events/" + eventId + "/checkin", Some(CheckinBody(req)))
  }
}
