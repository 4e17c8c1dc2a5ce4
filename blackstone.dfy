/** The Blackstone mock connector: one offer at 189.00 EUR, out 11:10-15:50Z, back 17:45-22:20Z. */
module BlackstoneProvider {
  import opened Text
  import opened ProviderTypes
  import opened MockProvider

  const BlackstoneSchedule: Schedule :=
    Schedule(Blackstone, "BS", "BS 401", Clock(11, 10), Clock(15, 50), "BS 402", Clock(17, 45), Clock(22, 20),
             18900, "https://www.blackstone.am/")

  /** `blackstone.search`. */
  function Search(req: SearchRequest): (r: seq<MockOffer>)
    ensures |r| == (if Searchable(req) then 1 else 0)
    ensures forall o :: o in r ==>
      && o.id == "blackstone-" + req.origin + "-" + req.destination + "-" + req.depart
      && o.provider == Blackstone
      && o.cabin == req.cabin.GetOr(Economy)
      && o.bagsIncluded == (if req.bags.GetOr(0) >= 1 then 1 else req.bags.GetOr(0))
      && o.price == MockPrice("EUR", 18900)
      && o.out.segments == [MockSegment(req.origin, req.destination, "BS", "BS 401",
                                        req.depart + "T11:10:00Z", req.depart + "T15:50:00Z", 280)]
      && o.out.durationMin == 280
      && (o.ret.Some? <==> WantsReturn(req))
      && (o.ret.Some? ==>
            && o.ret.value.segments == [MockSegment(req.destination, req.origin, "BS", "BS 402",
                                                    req.ret.value + "T17:45:00Z", req.ret.value + "T22:20:00Z", 275)]
            && o.ret.value.durationMin == 275)
      && o.deepLink == "https://www.blackstone.am/"
  {
    var r := Offers(BlackstoneSchedule, req);
    assert "T" + Clock(11, 10).Text() + "Z" == "T11:10:00Z";
    assert "T" + Clock(15, 50).Text() + "Z" == "T15:50:00Z";
    assert "T" + Clock(17, 45).Text() + "Z" == "T17:45:00Z";
    assert "T" + Clock(22, 20).Text() + "Z" == "T22:20:00Z";
    DirectLegShape(req.origin, req.destination, "BS", "BS 401", req.depart,
                   Clock(11, 10), Clock(15, 50), "T11:10:00Z", "T15:50:00Z", 280);
    if WantsReturn(req) then
      DirectLegShape(req.destination, req.origin, "BS", "BS 402", req.ret.value,
                     Clock(17, 45), Clock(22, 20), "T17:45:00Z", "T22:20:00Z", 275);
      r
    else r
  }
}
