/**
 * The second service object. It works on the same lists as the weather
 * service (it takes them from it once), so here every operation is a method
 * over the shared store. Unlike the weather service's `addDataPoint`, its
 * `addDataPoint` has no guard for an empty record list.
 */
module AirportService {
  import opened JavaLang
  import opened DataPointModel
  import opened WeatherModel
  import WS = WeatherService

  /**
   * `addDataPoint`: applies one measurement to the record at the airport's
   * index, and rethrows every failure (unknown code, unknown kind, `null`
   * point) the way the weather service does. An empty record list is no
   * special case: the index lookup fails, so the call throws.
   */
  method AddDataPoint(store: WS.Store, iataCode: string, pointType: string, dp: DataPoint?, now: int)
    returns (r: Outcome)
    requires store.Valid()
    modifies store.atmosphericInformation
    ensures var idx := WS.GetAirportDataIdx(store.airportData, iataCode);
            (idx < 0 || ParseDataPointType(pointType).None? || dp == null) ==>
              r == WS.Rethrown(pointType) && store.Readings() == old(store.Readings())
    ensures var idx := WS.GetAirportDataIdx(store.airportData, iataCode);
            idx >= 0 && ParseDataPointType(pointType).Some? && dp != null ==>
              r == Normal
              && store.Readings() == old(store.Readings())[idx := WS.Apply(old(store.Readings())[idx], ParseDataPointType(pointType).value, dp, now)]
  {
    var airportDataIdx := WS.GetAirportDataIdx(store.airportData, iataCode);
    if airportDataIdx < 0 || airportDataIdx >= |store.atmosphericInformation| {
      return WS.Rethrown(pointType);
    }
    ghost var before := store.Readings();
    var ai := store.atmosphericInformation[airportDataIdx];
    var u := UpdateAtmosphericInformation(ai, pointType, dp, now);
    assert forall i :: 0 <= i < |store.atmosphericInformation| && i != airportDataIdx ==> store.atmosphericInformation[i] != ai;
    WS.OneRecordChanged(store.atmosphericInformation, before, airportDataIdx);
    if u.Thrown? {
      return WS.Rethrown(pointType);
    }
    r := Normal;
  }

  /** `updateAtmosphericInformation`: the same switch, limits and failures as the weather service's. */
  method UpdateAtmosphericInformation(ai: AtmosphericInformation, pointType: string, dp: DataPoint?, now: int)
    returns (r: Outcome)
    modifies ai
    ensures ParseDataPointType(pointType).None? ==>
              r == Thrown(IllegalArgumentException) && ai.Value() == old(ai.Value())
    ensures ParseDataPointType(pointType).Some? && dp == null ==>
              r == Thrown(NullPointerException) && ai.Value() == old(ai.Value())
    ensures ParseDataPointType(pointType).Some? && dp != null ==>
              r == Normal && ai.Value() == WS.Apply(old(ai.Value()), ParseDataPointType(pointType).value, dp, now)
  {
    r := WS.UpdateAtmosphericInformation(ai, pointType, dp, now);
  }

  /**
   * `addAirport`: the weather service's registration. Nothing in it can
   * fail, so the `catch` that wraps failures in a WeatherException is never
   * taken.
   */
  method AddAirport(store: WS.Store, iataCode: string, latitude: real, longitude: real) returns (ad: AirportData)
    requires store.Valid()
    modifies store`airportData, store`atmosphericInformation
    ensures store.Valid()
    ensures ad == AirportData(iataCode, longitude, 0.0)
    ensures store.airportData == old(store.airportData) + [ad]
    ensures |store.atmosphericInformation| == |old(store.atmosphericInformation)| + 1
    ensures store.atmosphericInformation[..|old(store.atmosphericInformation)|] == old(store.atmosphericInformation)
    ensures fresh(store.atmosphericInformation[|old(store.atmosphericInformation)|])
    ensures store.atmosphericInformation[|old(store.atmosphericInformation)|].Value() == EMPTY_READING
  {
    ad := store.AddAirport(iataCode, latitude, longitude);
  }

  /** `deleteAirport`: removes the first airport with the code; its record stays in place. */
  method DeleteAirport(store: WS.Store, iataCode: string) returns (removed: bool)
    requires store.Valid()
    modifies store`airportData
    ensures store.Valid()
    ensures var idx := WS.GetAirportDataIdx(old(store.airportData), iataCode);
            && removed == (idx >= 0)
            && store.airportData == if idx >= 0 then old(store.airportData)[..idx] + old(store.airportData)[idx + 1..] else old(store.airportData)
    ensures store.atmosphericInformation == old(store.atmosphericInformation)
  {
    removed := store.DeleteAirport(iataCode);
  }
}
