/** The FlyOne mock connector: one offer at 199.00 EUR, out 09:00-13:30Z, back 15:30-20:00Z. */
module FlyOneProvider {
  import opened Text
  import opened ProviderTypes
  import opened MockProvider

  const FlyOneSchedule: Schedule :=
    Schedule(FlyOne, "5F", "5F 701", Clock(9, 0), Clock(13, 30), "5F 702", Clock(15, 30), Clock(20, 0),
             19900, "https://flyone.eu/")

  /** `flyone.search`. */
  function Search(req: SearchRequest): (r: seq<MockOffer>)
    ensures |r| == (if Searchable(req) then 1 else 0)
    ensures forall o :: o in r ==>
      && o.id == "flyone-" + req.origin + "-" + req.destination + "-" + req.depart
      && o.provider == FlyOne
      && o.cabin == req.cabin.GetOr(Economy)
      && o.bagsIncluded == (if req.bags.GetOr(0) >= 1 then 1 else req.bags.GetOr(0))
      && o.price == MockPrice("EUR", 19900)
      && o.out.segments == [MockSegment(req.origin, req.destination, "5F", "5F 701",
                                        req.depart + "T09:00:00Z", req.depart + "T13:30:00Z", 270)]
      && o.out.durationMin == 270
      && (o.ret.Some? <==> WantsReturn(req))
      && (o.ret.Some? ==>
            && o.ret.value.segments == [MockSegment(req.destination, req.origin, "5F", "5F 702",
                                                    req.ret.value + "T15:30:00Z", req.ret.value + "T20:00:00Z", 270)]
            && o.ret.value.durationMin == 270)
      && o.deepLink == "https://flyone.eu/"
  {
    var r := Offers(FlyOneSchedule, req);
    assert "T" + Clock(9, 0).Text() + "Z" == "T09:00:00Z";
    assert "T" + Clock(13, 30).Text() + "Z" == "T13:30:00Z";
    assert "T" + Clock(15, 30).Text() + "Z" == "T15:30:00Z";
    assert "T" + Clock(20, 0).Text() + "Z" == "T20:00:00Z";
    DirectLegShape(req.origin, req.destination, "5F", "5F 701", req.depart,
                   Clock(9, 0), Clock(13, 30), "T09:00:00Z", "T13:30:00Z", 270);
    if WantsReturn(req) then
      DirectLegShape(req.destination, req.origin, "5F", "5F 702", req.ret.value,
                     Clock(15, 30), Clock(20, 0), "T15:30:00Z", "T20:00:00Z", 270);
      r
    else r
  }
}
