/**
 * The common contract of the airline connectors: search request, passenger
 * mix, segments, itineraries, money, offers and per-provider batch results,
 * with the well-formedness rules their declarations document.
 */
module ProviderTypes {
  import opened Text

  /** The two connectors; nothing else is a provider. */
  datatype ProviderId = FlyOne | Blackstone {
    function Name(): string {
      match this
      case FlyOne => "flyone"
      case Blackstone => "blackstone"
    }
  }

  function ParseProviderId(s: string): (r: Option<ProviderId>)
    ensures r.Some? ==> r.value.Name() == s
  {
    if s == "flyone" then Some(FlyOne)
    else if s == "blackstone" then Some(Blackstone)
    else None
  }

  /** A string names a provider iff it is one of the two names, and each name reads back as its provider. */
  lemma ProviderIdNames(s: string, p: ProviderId)
    ensures ParseProviderId(p.Name()) == Some(p)
    ensures ParseProviderId(s).Some? <==> s == "flyone" || s == "blackstone"
  {
  }

  datatype TripType = OneWay | Round {
    function Name(): string {
      match this
      case OneWay => "oneway"
      case Round => "round"
    }
  }

  function ParseTripType(s: string): (r: Option<TripType>)
    ensures r.Some? ==> r.value.Name() == s
  {
    if s == "oneway" then Some(OneWay)
    else if s == "round" then Some(Round)
    else None
  }

  /** A string names a trip type iff it is `oneway` or `round`, and each name reads back. */
  lemma TripTypeNames(s: string, t: TripType)
    ensures ParseTripType(t.Name()) == Some(t)
    ensures ParseTripType(s).Some? <==> s == "oneway" || s == "round"
  {
  }

  datatype Cabin = Economy | PremiumEconomy | Business

  /** Passengers by type; infants do not take a seat. */
  datatype PassengerMix = PassengerMix(adults: int, children: Option<int>, infants: Option<int>) {
    /** At least one adult travels. */
    predicate WellFormed() { adults >= 1 }
  }

  /** The normalised request every provider receives; dates are 'YYYY-MM-DD' strings. */
  datatype SearchRequest = SearchRequest(
    origin: string,
    destination: string,
    depart: string,
    ret: Option<string>,
    trip: TripType,
    cabin: Option<Cabin>,
    passengers: PassengerMix,
    bags: Option<int>)
  {
    /** A round trip carries its return date, and the passenger mix is well formed. */
    predicate WellFormed() {
      passengers.WellFormed() && (trip == Round ==> ret.Some?)
    }
  }

  datatype Money = Money(amount: int, currency: string)

  datatype Segment = Segment(
    marketingCarrier: string,
    operatingCarrier: Option<string>,
    flightNumber: string,
    origin: string,
    destination: string,
    departure: string,
    arrival: string,
    durationMinutes: int,
    aircraft: Option<string>)

  /** One direction of travel: one segment (direct) or more (with stops). */
  datatype Itinerary = Itinerary(segments: seq<Segment>) {
    predicate WellFormed() { |segments| >= 1 }
  }

  datatype BaggageInfo = BaggageInfo(
    includedCheckedBags: Option<int>,
    includedCarryOn: Option<bool>,
    notes: Option<string>)

  /** A total, with an optional breakdown. */
  datatype Price = Price(
    total: Money,
    base: Option<Money>,
    taxes: Option<Money>,
    perAdult: Option<Money>,
    perChild: Option<Money>,
    perInfant: Option<Money>,
    fees: Option<Money>)

  /** The offer shape the contract declares (the mock connectors build a different one, see MockProvider). */
  datatype ProviderOffer = ProviderOffer(
    provider: ProviderId,
    providerCode: Option<string>,
    deeplink: Option<string>,
    itinerary: Itinerary,
    price: Price,
    cabin: Option<Cabin>,
    fareClass: Option<string>,
    refundable: Option<bool>,
    baggage: Option<BaggageInfo>)

  /** What one connector produced for one search. */
  datatype ProviderBatchResult = ProviderBatchResult(
    provider: ProviderId,
    durationMs: int,
    offers: seq<ProviderOffer>,
    error: Option<string>)
  {
    /** An error is reported only by a connector that failed, and a failed connector returned no offers. */
    predicate WellFormed() { error.Some? ==> offers == [] }
  }

  /** Number of offers over a list of batches. */
  function OfferCount(results: seq<ProviderBatchResult>): (r: nat)
    ensures r == 0 <==> forall i :: 0 <= i < |results| ==> results[i].offers == []
  {
    if results == [] then 0 else OfferCount(results[..|results| - 1]) + |results[|results| - 1].offers|
  }

  /** The response the search endpoint is meant to give, one batch per provider queried. */
  datatype AggregatedSearchResponse = AggregatedSearchResponse(
    ok: bool,
    query: SearchRequest,
    results: seq<ProviderBatchResult>,
    totalOffers: int,
    tookMs: int)
  {
    /** One batch per queried provider, in the order queried, and the total is the sum of the batches. */
    predicate WellFormedFor(queried: seq<ProviderId>) {
      && |results| == |queried|
      && (forall i :: 0 <= i < |results| ==> results[i].provider == queried[i] && results[i].WellFormed())
      && totalOffers == OfferCount(results)
    }
  }

  /** Each batch's offers are part of the total. */
  lemma {:induction false} OfferCountCoversEachBatch(results: seq<ProviderBatchResult>, i: nat)
    requires i < |results|
    ensures |results[i].offers| <= OfferCount(results)
  {
    if i < |results| - 1 {
      OfferCountCoversEachBatch(results[..|results| - 1], i);
    }
  }

  /** A batch list in which every provider failed carries no offers at all. */
  lemma {:induction false} OfferCountAllFailed(results: seq<ProviderBatchResult>)
    requires forall i :: 0 <= i < |results| ==> results[i].WellFormed() && results[i].error.Some?
    ensures OfferCount(results) == 0
  {
    if results != [] {
      OfferCountAllFailed(results[..|results| - 1]);
    }
  }
}
