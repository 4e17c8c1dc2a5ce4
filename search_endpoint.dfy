/**
 * `GET /api/search`: reads the query string, normalises it, validates it in
 * a fixed order and answers with a stub result list (one flight, or two for
 * a round trip).  The connectors are not called from here.
 */
module SearchEndpoint {
  import opened Text

  /** The URL's query parameters (the first value of each name). */
  type Query = map<string, string>

  /** `url.searchParams.get(name)`. */
  function Param(q: Query, name: string): Option<string> {
    if name in q then Some(q[name]) else None
  }

  /**
   * `parseInt(s, 10)`: leading white space, an optional sign, then the
   * longest run of decimal digits; no digits gives NaN (None).
   */
  function ParseInt(s: string): (r: Option<int>)
    ensures r.Some? && r.value < 0 ==> Contains(s, "-")
  {
    var t := TrimStart(s);
    var r := ReadSigned(t);
    if r.Some? && r.value < 0 then
      assert t[0] == s[|s| - |t|] && s[|s| - |t|..|s| - |t| + 1] == "-";
      ContainsAt(s, "-", |s| - |t|);
      r
    else r
  }

  /** `parseInt` after the white space: an optional sign, then the digits. */
  function ReadSigned(t: string): (r: Option<int>)
    ensures r.Some? && r.value < 0 ==> t != [] && t[0] == '-'
  {
    if t != [] && t[0] == '-' then
      match ReadDigits(t[1..])
      case Some(n) => Some(-n)
      case None => None
    else if t != [] && t[0] == '+' then ReadDigits(t[1..])
    else ReadDigits(t)
  }

  /** The value of the leading run of digits, or None when there is none. */
  function ReadDigits(u: string): (r: Option<int>)
    ensures r.Some? ==> r.value >= 0
  {
    var d := DigitPrefix(u);
    if d == [] then None else Some(DigitsValue(d))
  }

  /** Digits followed by a non-digit (or nothing) read as their value. */
  lemma ReadDigitsOf(d: string, rest: string)
    requires d != "" && AllDigits(d)
    requires rest == [] || !IsDigit(rest[0])
    ensures ReadDigits(d + rest) == Some(DigitsValue(d))
  {
    DigitPrefixOf(d, rest);
  }

  /** A plain run of digits parses to the number it denotes. */
  lemma ParseIntDigits(s: string)
    ensures s != "" && AllDigits(s) ==> ParseInt(s) == Some(DigitsValue(s))
  {
    if s != "" && AllDigits(s) {
      assert !IsSpace(s[0]);
      assert TrimStart(s) == s;
      ReadDigitsOf(s, []);
      assert s + [] == s;
    }
  }

  /** The sign `parseInt` accepts in front of the digits. */
  datatype Sign = Unsigned | Minus | Plus {
    function Text(): string {
      match this
      case Unsigned => ""
      case Minus => "-"
      case Plus => "+"
    }
  }

  /**
   * What `parseInt` reads: after leading white space and an optional sign,
   * the digits up to the first non-digit give the value, negated after `-`.
   */
  lemma ParseIntReads(w: string, sign: Sign, d: string, rest: string)
    requires forall i :: 0 <= i < |w| ==> IsSpace(w[i])
    requires d != "" && AllDigits(d)
    requires rest == [] || !IsDigit(rest[0])
    ensures var value: int := if sign == Minus then -(DigitsValue(d) as int) else DigitsValue(d);
      ParseInt(w + sign.Text() + d + rest) == Some(value)
  {
    var t := sign.Text() + (d + rest);
    assert w + sign.Text() + d + rest == w + t;
    assert t[0] == if sign == Unsigned then d[0] else sign.Text()[0];
    TrimStartSpaces(w, t);
    ReadSignedNumber(sign, d, rest);
  }

  /** `parseInt` once the white space is gone: the sign, then the digits up to a non-digit. */
  lemma ReadSignedNumber(sign: Sign, d: string, rest: string)
    requires d != "" && AllDigits(d)
    requires rest == [] || !IsDigit(rest[0])
    ensures var value: int := if sign == Minus then -(DigitsValue(d) as int) else DigitsValue(d);
      ReadSigned(sign.Text() + (d + rest)) == Some(value)
  {
    ReadDigitsOf(d, rest);
    match sign
    case Unsigned =>
      assert (d + rest)[0] == d[0];
      ReadAfterSign(d + rest, "", Some(DigitsValue(d)));
    case Minus => ReadAfterSign(d + rest, "-", Some(DigitsValue(d)));
    case Plus => ReadAfterSign(d + rest, "+", Some(DigitsValue(d)));
  }

  /** How the sign in front of the digits acts on what they read as. */
  lemma ReadAfterSign(u: string, sign: string, digits: Option<int>)
    requires sign == "" || sign == "-" || sign == "+"
    requires ReadDigits(u) == digits
    requires sign == "" && u != [] ==> u[0] != '-' && u[0] != '+'
    ensures ReadSigned(sign + u) == if sign == "-" && digits.Some? then Some(-digits.value) else digits
  {
    if sign == "" {
      assert sign + u == u;
    } else {
      assert (sign + u)[0] == sign[0] && (sign + u)[1..] == u;
    }
  }

  /** With no digit after the white space and the sign, `parseInt` gives NaN. */
  lemma ParseIntNoDigits(w: string, sign: Sign, rest: string)
    requires forall i :: 0 <= i < |w| ==> IsSpace(w[i])
    requires rest == [] || !IsDigit(rest[0])
    requires sign == Unsigned && rest != [] ==> !IsSpace(rest[0]) && rest[0] != '-' && rest[0] != '+'
    ensures ParseInt(w + sign.Text() + rest) == None
  {
    var t := sign.Text() + rest;
    assert w + sign.Text() + rest == w + t;
    assert t == [] || t[0] == if sign == Unsigned then rest[0] else sign.Text()[0];
    TrimStartSpaces(w, t);
    ReadSignedNone(sign, rest);
  }

  /** `parseInt` once the white space is gone, with no digit after the sign. */
  lemma ReadSignedNone(sign: Sign, rest: string)
    requires rest == [] || !IsDigit(rest[0])
    requires sign == Unsigned && rest != [] ==> rest[0] != '-' && rest[0] != '+'
    ensures ReadSigned(sign.Text() + rest) == None
  {
    assert ReadDigits(rest) == None;
    ReadAfterSign(rest, sign.Text(), None);
  }

  /**
   * `toInt(v, def)`: the parsed value when it is a number and not negative,
   * otherwise the default, which also stands in for an absent or empty value.
   */
  function ToInt(v: Option<string>, def: int): (r: int)
    ensures v.None? || v.value == "" ==> r == def
    ensures r == def || r >= 0
    ensures v.Some? && ParseInt(v.value).Some? && ParseInt(v.value).value >= 0 ==> r == ParseInt(v.value).value
    ensures v.Some? && (ParseInt(v.value).None? || ParseInt(v.value).value < 0) ==> r == def
    ensures v.Some? && v.value != "" && AllDigits(v.value) ==> r == DigitsValue(v.value)
  {
    if v.None? || v.value == "" then def
    else
      ParseIntDigits(v.value);
      match ParseInt(v.value)
      case Some(n) => if n >= 0 then n else def
      case None => def
  }

  /**
   * `toInt` on text that starts with a number: its digits when it is not
   * negative (`-0` included), the default after a `-` with a non-zero value.
   */
  lemma ToIntReads(w: string, sign: Sign, d: string, rest: string, def: int)
    requires forall i :: 0 <= i < |w| ==> IsSpace(w[i])
    requires d != "" && AllDigits(d)
    requires rest == [] || !IsDigit(rest[0])
    ensures ToInt(Some(w + sign.Text() + d + rest), def) == if sign == Minus && DigitsValue(d) > 0 then def else DigitsValue(d)
  {
    ParseIntReads(w, sign, d, rest);
  }

  /** `toInt` on text with no number in front gives the default. */
  lemma ToIntNoDigits(w: string, sign: Sign, rest: string, def: int)
    requires forall i :: 0 <= i < |w| ==> IsSpace(w[i])
    requires rest == [] || !IsDigit(rest[0])
    requires sign == Unsigned && rest != [] ==> !IsSpace(rest[0]) && rest[0] != '-' && rest[0] != '+'
    ensures ToInt(Some(w + sign.Text() + rest), def) == def
  {
    ParseIntNoDigits(w, sign, rest);
  }

  /** `?adults=-5` falls back to the default, `?adults= 7px` gives 7 and `?adults=x` the default. */
  lemma ToIntExamples()
    ensures ToInt(Some("-5"), 1) == 1
    ensures ToInt(Some(" 7px"), 1) == 7
    ensures ToInt(Some("x"), 1) == 1
  {
    NegativeExample();
    PrefixExample();
    NoNumberExample();
  }

  lemma NegativeExample()
    ensures ToInt(Some("-5"), 1) == 1
  {
    var text := "" + Minus.Text() + "5" + "";
    assert DigitsValue("5") > 0 by { assert "5"[..0] == []; }
    ToIntReads("", Minus, "5", "", 1);
    assert ToInt(Some(text), 1) == 1;
    assert text == "-5";
  }

  lemma PrefixExample()
    ensures ToInt(Some(" 7px"), 1) == 7
  {
    var text := " " + Unsigned.Text() + "7" + "px";
    assert DigitsValue("7") == 7 by { assert "7"[..0] == []; }
    ToIntReads(" ", Unsigned, "7", "px", 1);
    assert ToInt(Some(text), 1) == 7;
    assert text == " 7px";
  }

  lemma NoNumberExample()
    ensures ToInt(Some("x"), 1) == 1
  {
    var text := "" + Unsigned.Text() + "x";
    ToIntNoDigits("", Unsigned, "x", 1);
    assert ToInt(Some(text), 1) == 1;
    assert text == "x";
  }

  /** The decimal form of a count reads back as that count. */
  lemma ToIntReadsBack(n: nat, def: int)
    ensures ToInt(Some(NatToString(n)), def) == n
  {
    NatToStringValue(n);
  }

  /** `/^[A-Z]{3}$/`. */
  predicate IsIata(s: string) {
    |s| == 3 && forall i :: 0 <= i < 3 ==> IsUpperLetter(s[i])
  }

  /** After upper-casing, a code passes exactly when it was three ASCII letters of either case. */
  lemma IataAcceptsEitherCase(s: string)
    ensures IsIata(ToUpper(s)) <==> |s| == 3 && forall i :: 0 <= i < 3 ==> IsUpperLetter(s[i]) || IsLowerLetter(s[i])
  {
  }

  /** The normalised query, as echoed back in the response. */
  datatype SearchQuery = SearchQuery(
    origin: string,
    destination: string,
    depart: string,
    ret: string,
    trip: string,
    adults: int,
    bags: int)

  /** The first lines of the handler: defaults, upper-casing and integer coercion. */
  function Normalize(q: Query): (p: SearchQuery)
    ensures OrDefault(Param(q, "origin"), "BCN") == "BCN" ==> p.origin == "BCN"
    ensures OrDefault(Param(q, "destination"), "EVN") == "EVN" ==> p.destination == "EVN"
    ensures Param(q, "origin").Some? && Param(q, "origin").value != "" ==> p.origin == ToUpper(Param(q, "origin").value)
    ensures Param(q, "destination").Some? && Param(q, "destination").value != "" ==>
              p.destination == ToUpper(Param(q, "destination").value)
    ensures p.origin != "" && p.destination != "" && p.trip != ""
    ensures p.depart == Param(q, "depart").GetOr("") && p.ret == Param(q, "return").GetOr("")
    ensures Param(q, "trip").Some? && Param(q, "trip").value != "" ==> p.trip == Param(q, "trip").value
    ensures Param(q, "trip").None? || Param(q, "trip").value == "" ==> p.trip == "round"
    ensures p.adults >= 0 && p.bags >= 0
    ensures Param(q, "adults").None? ==> p.adults == 1
    ensures Param(q, "bags").None? ==> p.bags == 0
    ensures p.adults == ToInt(Param(q, "adults"), 1) && p.bags == ToInt(Param(q, "bags"), 0)
  {
    var origin := ToUpper(OrDefault(Param(q, "origin"), "BCN"));
    var destination := ToUpper(OrDefault(Param(q, "destination"), "EVN"));
    assert ToUpper("BCN") == "BCN" && ToUpper("EVN") == "EVN";
    SearchQuery(
      origin,
      destination,
      OrDefault(Param(q, "depart"), ""),
      OrDefault(Param(q, "return"), ""),
      OrDefault(Param(q, "trip"), "round"),
      ToInt(Param(q, "adults"), 1),
      ToInt(Param(q, "bags"), 0))
  }

  /** The validation chain lets the query through. */
  predicate Accepted(p: SearchQuery) {
    IsIata(p.origin) && IsIata(p.destination) && p.depart != "" && !(p.trip == "round" && p.ret == "")
  }

  const InvalidIata: string := "Invalid IATA code(s)"
  const MissingDepart: string := "Missing depart date (YYYY-MM-DD)"
  const MissingReturn: string := "Missing return date for round trip"

  datatype StubPrice = StubPrice(amount: int, currency: string)

  datatype StubFlight = StubFlight(
    id: string,
    airline: string,
    from: string,
    to: string,
    depart: string,
    arrive: string,
    duration: string,
    bagsIncluded: int,
    price: StubPrice)

  datatype Meta = Meta(currency: string, count: int)

  datatype Payload = Payload(ok: bool, query: SearchQuery, meta: Meta, results: seq<StubFlight>)

  /** A 400 with `{ ok: false, error }`, or a 200 JSON payload that must not be cached. */
  datatype Response = BadRequest(error: string) | Found(payload: Payload) {
    function Status(): int {
      if BadRequest? then 400 else 200
    }

    function CacheControl(): Option<string> {
      if BadRequest? then None else Some("no-store")
    }

    /** Only the 200 reply names its type; a 400 sets no headers. */
    function ContentType(): Option<string> {
      if BadRequest? then None else Some("application/json")
    }
  }

  /** The stub list: an outbound flight, and the way back for a round trip. */
  function StubResults(p: SearchQuery): (r: seq<StubFlight>)
    ensures |r| == (if p.trip == "round" then 2 else 1)
    ensures forall i, j :: 0 <= i < j < |r| ==> r[i].id != r[j].id
    ensures forall f :: f in r ==> f.airline == "FlyOne" && f.bagsIncluded == 0 && f.price.currency == "EUR"
    ensures r[0].from == p.origin && r[0].to == p.destination && r[0].depart == p.depart + "T10:25:00"
    ensures |r| == 2 ==> r[1].from == p.destination && r[1].to == p.origin && r[1].depart == p.ret + "T12:10:00"
  {
    [StubFlight("stub-flyone-1", "FlyOne", p.origin, p.destination,
                p.depart + "T10:25:00", p.depart + "T16:05:00", "5h 40m", 0, StubPrice(17900, "EUR"))]
    + (if p.trip == "round"
       then [StubFlight("stub-flyone-2", "FlyOne", p.destination, p.origin,
                        p.ret + "T12:10:00", p.ret + "T17:40:00", "5h 30m", 0, StubPrice(16500, "EUR"))]
       else [])
  }

  /** The handler. */
  function Get(q: Query): (r: Response)
    ensures var p := Normalize(q);
      && (!(IsIata(p.origin) && IsIata(p.destination)) ==> r == BadRequest(InvalidIata))
      && (IsIata(p.origin) && IsIata(p.destination) && p.depart == "" ==> r == BadRequest(MissingDepart))
      && (IsIata(p.origin) && IsIata(p.destination) && p.depart != "" && p.trip == "round" && p.ret == "" ==>
            r == BadRequest(MissingReturn))
      && (r.Found? <==> Accepted(p))
    ensures r.BadRequest? ==> r.Status() == 400 && r.CacheControl().None? && r.ContentType().None?
    ensures r.Found? ==> r.Status() == 200 && r.CacheControl() == Some("no-store") && r.ContentType() == Some("application/json")
    ensures r.Found? ==> r.payload.results == StubResults(Normalize(q))
    ensures r.Found? ==> var p, results := Normalize(q), r.payload.results;
      && r.payload.ok
      && r.payload.query == p
      && r.payload.meta == Meta("EUR", |results|)
      && |results| == (if p.trip == "round" then 2 else 1)
      && results[0].from == p.origin && results[0].to == p.destination
      && results[0].depart == p.depart + "T10:25:00"
      && (|results| == 2 ==>
            results[1].from == p.destination && results[1].to == p.origin
            && results[1].depart == p.ret + "T12:10:00")
  {
    var p := Normalize(q);
    if !IsIata(p.origin) || !IsIata(p.destination) then BadRequest(InvalidIata)
    else if p.depart == "" then BadRequest(MissingDepart)
    else if p.trip == "round" && p.ret == "" then BadRequest(MissingReturn)
    else
      var sample := StubResults(p);
      Found(Payload(true, p, Meta("EUR", |sample|), sample))
  }

  /** The echoed query, written back as a query string. */
  function EchoQuery(p: SearchQuery): Query
    requires p.adults >= 0 && p.bags >= 0
  {
    map["origin" := p.origin, "destination" := p.destination, "depart" := p.depart, "return" := p.ret,
        "trip" := p.trip, "adults" := NatToString(p.adults), "bags" := NatToString(p.bags)]
  }

  /** Normalisation is stable: sending back the echoed query gives the same response. */
  lemma EchoReplays(q: Query)
    requires Get(q).Found?
    ensures Get(EchoQuery(Get(q).payload.query)) == Get(q)
  {
    NormalizeEcho(Normalize(q));
  }

  /** A normalised query survives being echoed and normalised again. */
  lemma NormalizeEcho(p: SearchQuery)
    requires p.origin != "" && p.destination != "" && p.trip != "" && p.adults >= 0 && p.bags >= 0
    requires ToUpper(p.origin) == p.origin && ToUpper(p.destination) == p.destination
    ensures Normalize(EchoQuery(p)) == p
  {
    var e := EchoQuery(p);
    assert Param(e, "origin") == Some(p.origin);
    assert Param(e, "destination") == Some(p.destination);
    assert Param(e, "depart") == Some(p.depart);
    assert Param(e, "return") == Some(p.ret);
    assert Param(e, "trip") == Some(p.trip);
    assert Param(e, "adults") == Some(NatToString(p.adults));
    assert Param(e, "bags") == Some(NatToString(p.bags));
    ToIntReadsBack(p.adults, 1);
    ToIntReadsBack(p.bags, 0);
  }

  /** Parameters other than the seven it reads (children, infants, cabin, ...) do not affect the response. */
  lemma UnreadParametersIgnored(q: Query, name: string, value: string)
    requires name !in {"origin", "destination", "depart", "return", "trip", "adults", "bags"}
    ensures Get(q[name := value]) == Get(q)
  {
    var q' := q[name := value];
    forall key | key in {"origin", "destination", "depart", "return", "trip", "adults", "bags"}
      ensures Param(q', key) == Param(q, key)
    {
    }
    assert Normalize(q') == Normalize(q);
  }
}
