/**
 * The offer the mock connectors build.  Both connectors run the same
 * construction with their own constants (carrier, flight numbers, clock
 * times, price, deep link), so the construction is written once here over a
 * `Schedule` and each connector module supplies its schedule.
 *
 * The offers do not use the declared ProviderOffer shape: they carry an `id`,
 * `bagsIncluded`, `out`/`ret` legs, a price in cents and a `deepLink`, and
 * their segments use `carrier`, `departTime`, `arriveTime`, `durationMin`.
 */
module MockProvider {
  import opened Text
  import opened ProviderTypes

  const MsPerMinute: int := 60000

  /**
   * `minutesBetween`: the difference of two instants in whole minutes,
   * rounded half up as `Math.round` does, and never negative.
   */
  function MinutesBetween(startMs: int, endMs: int): (r: nat)
    ensures endMs - startMs >= -MsPerMinute / 2 ==>
      r * MsPerMinute - MsPerMinute / 2 <= endMs - startMs < r * MsPerMinute + MsPerMinute / 2
    ensures endMs - startMs < -MsPerMinute / 2 ==> r == 0
  {
    var m := (endMs - startMs + MsPerMinute / 2) / MsPerMinute;
    if m < 0 then 0 else m
  }

  /** Only the difference of the instants matters, so the epoch offset of a shared date cancels. */
  lemma MinutesBetweenShift(dayMs: int, a: int, b: int)
    ensures MinutesBetween(dayMs + a, dayMs + b) == MinutesBetween(a, b)
  {
  }

  /** Instants a whole number of minutes apart are exactly that many minutes apart. */
  lemma MinutesBetweenWhole(a: int, k: nat)
    ensures MinutesBetween(a, a + k * MsPerMinute) == k
  {
  }

  /** A time of day on the UTC clock. */
  datatype Clock = Clock(hour: nat, minute: nat) {
    predicate Valid() { hour < 24 && minute < 60 }

    /** Milliseconds since midnight. */
    function Ms(): int { (hour * 60 + minute) * MsPerMinute }

    /** 'HH:MM:00'. */
    function Text(): string
      requires Valid()
    {
      TwoDigits(hour) + ":" + TwoDigits(minute) + ":00"
    }
  }

  function TwoDigits(n: nat): (r: string)
    requires n < 100
    ensures |r| == 2 && AllDigits(r)
    ensures DigitsValue(r) == n
  {
    var tens, ones := DigitChar(n / 10), DigitChar(n % 10);
    assert [tens, ones][..1] == [tens] && [tens][..0] == [];
    assert DigitsValue([tens]) == n / 10;
    assert DigitsValue([tens, ones]) == (n / 10) * 10 + n % 10;
    [tens, ones]
  }

  /** The ISO 8601 instant `<date>T<HH:MM:00>Z`. */
  function Stamp(date: string, c: Clock): string
    requires c.Valid()
  {
    date + "T" + c.Text() + "Z"
  }

  /**
   * Duration of a leg whose two stamps share one date: the date's epoch
   * offset cancels (MinutesBetweenShift), so only the clock times count.
   */
  function SameDayMinutes(dep: Clock, arr: Clock): (r: nat)
    requires dep.Valid() && arr.Valid()
    ensures dep.Ms() <= arr.Ms() ==> r * MsPerMinute == arr.Ms() - dep.Ms()
    ensures arr.Ms() <= dep.Ms() ==> r == 0
  {
    var r := MinutesBetween(dep.Ms(), arr.Ms());
    if dep.Ms() <= arr.Ms() then
      var k: nat := (arr.hour * 60 + arr.minute) - (dep.hour * 60 + dep.minute);
      MinutesBetweenWhole(dep.Ms(), k);
      r
    else r
  }

  datatype MockSegment = MockSegment(
    origin: string,
    destination: string,
    carrier: string,
    flightNumber: string,
    departTime: string,
    arriveTime: string,
    durationMin: int)

  /** A leg: its segments and their total duration. */
  datatype MockLeg = MockLeg(segments: seq<MockSegment>, durationMin: int)

  datatype MockPrice = MockPrice(currency: string, amountCents: int)

  datatype MockOffer = MockOffer(
    id: string,
    provider: ProviderId,
    cabin: Cabin,
    bagsIncluded: int,
    price: MockPrice,
    out: MockLeg,
    ret: Option<MockLeg>,
    deepLink: string)

  /** The constants that tell one mock connector from the other. */
  datatype Schedule = Schedule(
    provider: ProviderId,
    carrier: string,
    outFlight: string,
    outDepart: Clock,
    outArrive: Clock,
    retFlight: string,
    retDepart: Clock,
    retArrive: Clock,
    priceCents: int,
    deepLink: string)
  {
    predicate Valid() {
      outDepart.Valid() && outArrive.Valid() && retDepart.Valid() && retArrive.Valid()
    }
  }

  /** `segments.reduce((s, x) => s + x.durationMin, 0)`. */
  function SumDurations(segments: seq<MockSegment>): (r: int)
    ensures |segments| == 1 ==> r == segments[0].durationMin
    ensures (forall i :: 0 <= i < |segments| ==> segments[i].durationMin >= 0) ==>
              r >= 0 && forall i :: 0 <= i < |segments| ==> segments[i].durationMin <= r
  {
    if segments == [] then 0
    else SumDurations(segments[..|segments| - 1]) + segments[|segments| - 1].durationMin
  }

  /** A leg is consistent when it has a segment, its total is the sum of its segments, and no duration is negative. */
  predicate ConsistentLeg(leg: MockLeg) {
    && |leg.segments| >= 1
    && leg.durationMin == SumDurations(leg.segments)
    && (forall i :: 0 <= i < |leg.segments| ==> leg.segments[i].durationMin >= 0)
  }

  /** A leg flies from its first segment's origin to its last segment's destination. */
  function From(leg: MockLeg): string
    requires |leg.segments| >= 1
  {
    leg.segments[0].origin
  }

  function To(leg: MockLeg): string
    requires |leg.segments| >= 1
  {
    leg.segments[|leg.segments| - 1].destination
  }

  /** A direct leg on one date. */
  function DirectLeg(from: string, to: string, carrier: string, flight: string, date: string, dep: Clock, arr: Clock): (leg: MockLeg)
    requires dep.Valid() && arr.Valid()
    ensures ConsistentLeg(leg) && From(leg) == from && To(leg) == to
    ensures leg.durationMin == SameDayMinutes(dep, arr)
  {
    var segments := [MockSegment(from, to, carrier, flight, Stamp(date, dep), Stamp(date, arr), SameDayMinutes(dep, arr))];
    assert segments[..0] == [];
    MockLeg(segments, SumDurations(segments))
  }

  /** A direct leg spelled out, given the clock texts and the duration. */
  lemma DirectLegShape(from: string, to: string, carrier: string, flight: string, date: string,
                       dep: Clock, arr: Clock, depSuffix: string, arrSuffix: string, minutes: int)
    requires dep.Valid() && arr.Valid()
    requires "T" + dep.Text() + "Z" == depSuffix && "T" + arr.Text() + "Z" == arrSuffix
    requires SameDayMinutes(dep, arr) == minutes
    ensures DirectLeg(from, to, carrier, flight, date, dep, arr)
         == MockLeg([MockSegment(from, to, carrier, flight, date + depSuffix, date + arrSuffix, minutes)], minutes)
  {
    assert Stamp(date, dep) == date + depSuffix;
    assert Stamp(date, arr) == date + arrSuffix;
  }

  /** `<provider>-<origin>-<destination>-<depart>`. */
  function OfferId(p: ProviderId, origin: string, destination: string, depart: string): string {
    p.Name() + "-" + origin + "-" + destination + "-" + depart
  }

  /** Reads the route back out of an offer id whose codes have three characters. */
  function OfferIdRoute(p: ProviderId, id: string): Option<(string, string, string)> {
    var n := |p.Name()|;
    if |id| >= n + 9 && id[..n] == p.Name() && id[n] == '-' && id[n + 4] == '-' && id[n + 8] == '-'
    then Some((id[n + 1..n + 4], id[n + 5..n + 8], id[n + 9..]))
    else None
  }

  /** With three-character codes, the id gives back the route it was made from. */
  lemma OfferIdRoundTrip(p: ProviderId, origin: string, destination: string, depart: string)
    requires |origin| == 3 && |destination| == 3
    ensures OfferIdRoute(p, OfferId(p, origin, destination, depart)) == Some((origin, destination, depart))
  {
    var n := |p.Name()|;
    var id := OfferId(p, origin, destination, depart);
    assert id[..n] == p.Name();
    assert id[n + 1..n + 4] == origin;
    assert id[n + 5..n + 8] == destination;
    assert id[n + 9..] == depart;
  }

  /** Ids are equal exactly when the routes are (for three-character codes). */
  lemma OfferIdInjective(p: ProviderId, o1: string, d1: string, t1: string, o2: string, d2: string, t2: string)
    requires |o1| == 3 && |d1| == 3 && |o2| == 3 && |d2| == 3
    ensures OfferId(p, o1, d1, t1) == OfferId(p, o2, d2, t2) <==> (o1, d1, t1) == (o2, d2, t2)
  {
    OfferIdRoundTrip(p, o1, d1, t1);
    OfferIdRoundTrip(p, o2, d2, t2);
  }

  /** The connector's guard: a request without origin, destination or depart date has no results. */
  predicate Searchable(req: SearchRequest) {
    req.origin != "" && req.destination != "" && req.depart != ""
  }

  /** A return leg is built iff the trip is round and a non-empty return date was given. */
  predicate WantsReturn(req: SearchRequest) {
    req.trip == Round && req.ret.Some? && req.ret.value != ""
  }

  /** `search`: no offer for an incomplete request, otherwise exactly one offer for the requested route. */
  function Offers(s: Schedule, req: SearchRequest): (r: seq<MockOffer>)
    requires s.Valid()
    ensures |r| == (if Searchable(req) then 1 else 0)
    ensures forall o :: o in r ==>
      && o.provider == s.provider
      && o.id == OfferId(s.provider, req.origin, req.destination, req.depart)
      && o.price == MockPrice("EUR", s.priceCents)
      && o.cabin == req.cabin.GetOr(Economy)
      && o.bagsIncluded <= 1
      && (req.bags.GetOr(0) >= 1 ==> o.bagsIncluded == 1)
      && (req.bags.GetOr(0) < 1 ==> o.bagsIncluded == req.bags.GetOr(0))
      && o.out == DirectLeg(req.origin, req.destination, s.carrier, s.outFlight, req.depart, s.outDepart, s.outArrive)
      && ConsistentLeg(o.out)
      && From(o.out) == req.origin && To(o.out) == req.destination
      && (o.ret.Some? <==> WantsReturn(req))
      && (o.ret.Some? ==> o.ret.value == DirectLeg(req.destination, req.origin, s.carrier, s.retFlight,
                                                    req.ret.value, s.retDepart, s.retArrive))
      && (o.ret.Some? ==> ConsistentLeg(o.ret.value)
                          && From(o.ret.value) == req.destination && To(o.ret.value) == req.origin)
  {
    if !Searchable(req) then []
    else
      var out := DirectLeg(req.origin, req.destination, s.carrier, s.outFlight, req.depart, s.outDepart, s.outArrive);
      var ret :=
        if WantsReturn(req)
        then Some(DirectLeg(req.destination, req.origin, s.carrier, s.retFlight, req.ret.value, s.retDepart, s.retArrive))
        else None;
      var bags := req.bags.GetOr(0);
      [MockOffer(
         OfferId(s.provider, req.origin, req.destination, req.depart),
         s.provider,
         req.cabin.GetOr(Economy),
         if bags < 1 then bags else 1,
         MockPrice("EUR", s.priceCents),
         out, ret, s.deepLink)]
  }

  /** Identical routes give identical offers whatever the passengers, bags or cabin: only the route, trip and dates shape the legs, id and price. */
  lemma OffersIgnorePassengers(s: Schedule, req: SearchRequest, other: SearchRequest)
    requires s.Valid()
    requires req.origin == other.origin && req.destination == other.destination && req.depart == other.depart
    requires req.trip == other.trip && req.ret == other.ret
    ensures |Offers(s, req)| == |Offers(s, other)|
    ensures forall i :: 0 <= i < |Offers(s, req)| ==>
      Offers(s, req)[i].id == Offers(s, other)[i].id
      && Offers(s, req)[i].price == Offers(s, other)[i].price
      && Offers(s, req)[i].out == Offers(s, other)[i].out
      && Offers(s, req)[i].ret == Offers(s, other)[i].ret
  {
  }
}
