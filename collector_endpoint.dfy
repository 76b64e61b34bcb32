/**
 * The collector side: registering airports, listing and looking them up,
 * and accepting measurements.
 */
module RestWeatherCollectorEndpoint {
  import opened JavaLang
  import opened DataPointModel
  import opened WeatherModel
  import opened RestResponse
  import WS = WeatherService

  /** `ping` of the collector: always OK with the entity "ready". */
  function Ping(): (r: Response<string>)
    ensures r.status == Ok && r.entity == Some("ready")
  {
    Response(Ok, Some("ready"))
  }

  /** The codes of the airports, collected one airport at a time. */
  function CodesOf(airports: seq<AirportData>): (r: set<string>)
    ensures |r| <= |airports|
  {
    if airports == [] then {}
    else
      var n := |airports| - 1;
      CodesOf(airports[..n]) + {airports[n].iata}
  }

  /** A code is collected exactly when some airport has it. */
  lemma {:induction false} CodesOfMembers(airports: seq<AirportData>, c: string)
    ensures c in CodesOf(airports) <==> exists i :: 0 <= i < |airports| && airports[i].iata == c
  {
    if airports != [] {
      var n := |airports| - 1;
      var init := airports[..n];
      CodesOfMembers(init, c);
      if c in CodesOf(airports) && c != airports[n].iata {
        var i :| 0 <= i < |init| && init[i].iata == c;
        assert airports[i].iata == c;
      }
      if exists i :: 0 <= i < |airports| && airports[i].iata == c {
        var i :| 0 <= i < |airports| && airports[i].iata == c;
        if i < n {
          assert init[i].iata == c;
        }
      }
    }
  }

  /** Every airport's code is collected, so a non-empty list gives a non-empty set. */
  lemma CodesOfCoversAll(airports: seq<AirportData>)
    ensures forall i :: 0 <= i < |airports| ==> airports[i].iata in CodesOf(airports)
    ensures |airports| > 0 ==> |CodesOf(airports)| > 0
  {
    forall i | 0 <= i < |airports|
      ensures airports[i].iata in CodesOf(airports)
    {
      CodesOfMembers(airports, airports[i].iata);
    }
  }

  /**
   * `getAirports`: the set of known codes, OK when there is at least one
   * airport, NOT_FOUND when there is none.
   */
  method GetAirports(store: WS.Store) returns (r: Response<set<string>>)
    ensures |store.airportData| > 0 ==> r == Response(Ok, Some(CodesOf(store.airportData)))
    ensures |store.airportData| == 0 ==> r == Response(NotFound, None)
    ensures r.status == Ok ==> forall i :: 0 <= i < |store.airportData| ==> store.airportData[i].iata in r.entity.value
  {
    var airports := store.airportData;
    var retval: Option<set<string>> := None;
    if |airports| > 0 {
      retval := Some({});
    }
    var i := 0;
    while i < |airports|
      invariant 0 <= i <= |airports|
      invariant |airports| > 0 ==> retval == Some(CodesOf(airports[..i]))
      invariant |airports| == 0 ==> retval == None
    {
      assert airports[..i + 1][..i] == airports[..i];
      retval := Some(retval.value + {airports[i].iata});
      i := i + 1;
    }
    assert airports[..i] == airports;
    CodesOfCoversAll(airports);
    if retval.Some? && |retval.value| > 0 {
      r := Response(Ok, retval);
    } else {
      r := Response(NotFound, None);
    }
  }

  /** `getAirport`: OK with the first airport that has the code, NOT_FOUND when none has it. */
  function GetAirport(airports: seq<AirportData>, iata: string): (r: Response<AirportData>)
    ensures r.status == Ok <==> exists i :: 0 <= i < |airports| && airports[i].iata == iata
    ensures r.status == Ok ==> r.entity.Some? && r.entity.value in airports && r.entity.value.iata == iata
    ensures r.status == Ok ==>
              exists i :: 0 <= i < |airports| && WS.IsFirstMatch(airports, iata, i) && r.entity == Some(airports[i])
    ensures r.status != Ok ==> r == Response(NotFound, None)
  {
    var ad := WS.FindAirportData(airports, iata);
    if ad.Some? then Response(Ok, ad) else Response(NotFound, None)
  }

  /** `deleteAirport` of the collector: never deletes anything, always NOT_IMPLEMENTED. */
  function DeleteAirport(iata: string): (r: Response<AirportData>)
    ensures r.status == NotImplemented && r.entity.None?
  {
    Response(NotImplemented, None)
  }

  /**
   * The static `addAirport` of the collector: the same registration as the
   * weather service's.
   */
  method AddAirport(store: WS.Store, iataCode: string, latitude: real, longitude: real) returns (ad: AirportData)
    requires store.Valid()
    modifies store`airportData, store`atmosphericInformation
    ensures store.Valid()
    ensures ad == AirportData(iataCode, longitude, 0.0)
    ensures store.airportData == old(store.airportData) + [ad]
    ensures |store.atmosphericInformation| == |old(store.atmosphericInformation)| + 1
    ensures store.atmosphericInformation[..|old(store.atmosphericInformation)|] == old(store.atmosphericInformation)
    ensures fresh(store.atmosphericInformation[|old(store.atmosphericInformation)|])
    ensures store.atmosphericInformation[|old(store.atmosphericInformation)|].Value() == EMPTY_READING
  {
    ad := store.AddAirport(iataCode, latitude, longitude);
  }

  /**
   * `addAirport` from path strings: both coordinates are parsed first, and
   * a malformed one answers NOT_ACCEPTABLE with nothing registered;
   * otherwise the airport is registered and the answer is CREATED.
   */
  method AddAirportFromStrings(store: WS.Store, iata: string, latString: string, longString: string,
                               parseDouble: string -> Parsed<real>)
    returns (r: Status)
    requires store.Valid()
    modifies store`airportData, store`atmosphericInformation
    ensures store.Valid()
    ensures parseDouble(latString).Malformed? || parseDouble(longString).Malformed? ==>
              r == NotAcceptable && unchanged(store)
    ensures parseDouble(latString).Parsed? && parseDouble(longString).Parsed? ==>
              && r == Created
              && store.airportData == old(store.airportData) + [AirportData(iata, parseDouble(longString).value, 0.0)]
              && |store.atmosphericInformation| == |old(store.atmosphericInformation)| + 1
              && store.atmosphericInformation[..|old(store.atmosphericInformation)|] == old(store.atmosphericInformation)
              && fresh(store.atmosphericInformation[|old(store.atmosphericInformation)|])
              && store.atmosphericInformation[|old(store.atmosphericInformation)|].Value() == EMPTY_READING
  {
    var lat := parseDouble(latString);
    if lat.Malformed? {
      return NotAcceptable;
    }
    var long := parseDouble(longString);
    if long.Malformed? {
      return NotAcceptable;
    }
    var _ := AddAirport(store, iata, lat.value, long.value);
    r := Created;
  }

  /** `updateAtmosphericInformation` of the collector: the same switch as the weather service's. */
  method UpdateAtmosphericInformation(ai: AtmosphericInformation, pointType: string, dp: DataPoint?, now: int)
    returns (r: Outcome)
    modifies ai
    ensures ParseDataPointType(pointType).None? ==>
              r == Thrown(IllegalArgumentException) && ai.Value() == old(ai.Value())
    ensures ParseDataPointType(pointType).Some? && dp == null ==>
              r == Thrown(NullPointerException) && ai.Value() == old(ai.Value())
    ensures ParseDataPointType(pointType).Some? && dp != null ==>
              r == Normal && ai.Value() == WS.Apply(old(ai.Value()), ParseDataPointType(pointType).value, dp, now)
  {
    r := WS.UpdateAtmosphericInformation(ai, pointType, dp, now);
  }

  /**
   * `addDataPoint` of the collector: like the airport service's, with no
   * guard for an empty record list, and every failure rethrown.
   */
  method AddDataPoint(store: WS.Store, iataCode: string, pointType: string, dp: DataPoint?, now: int)
    returns (r: Outcome)
    requires store.Valid()
    modifies store.atmosphericInformation
    ensures var idx := WS.GetAirportDataIdx(store.airportData, iataCode);
            (idx < 0 || ParseDataPointType(pointType).None? || dp == null) ==>
              r == WS.Rethrown(pointType) && store.Readings() == old(store.Readings())
    ensures var idx := WS.GetAirportDataIdx(store.airportData, iataCode);
            idx >= 0 && ParseDataPointType(pointType).Some? && dp != null ==>
              r == Normal
              && store.Readings() == old(store.Readings())[idx := WS.Apply(old(store.Readings())[idx], ParseDataPointType(pointType).value, dp, now)]
  {
    var airportDataIdx := WS.GetAirportDataIdx(store.airportData, iataCode);
    if airportDataIdx < 0 || airportDataIdx >= |store.atmosphericInformation| {
      return WS.Rethrown(pointType);
    }
    ghost var before := store.Readings();
    var ai := store.atmosphericInformation[airportDataIdx];
    var u := UpdateAtmosphericInformation(ai, pointType, dp, now);
    assert forall i :: 0 <= i < |store.atmosphericInformation| && i != airportDataIdx ==> store.atmosphericInformation[i] != ai;
    WS.OneRecordChanged(store.atmosphericInformation, before, airportDataIdx);
    if u.Thrown? {
      return WS.Rethrown(pointType);
    }
    r := Normal;
  }

  /** How `updateWeather` answers a call of `addDataPoint` that ended this way. */
  function StatusOf(outcome: Outcome): (r: Status)
    ensures outcome == Normal <==> r == Ok
    ensures outcome == Thrown(WeatherException) <==> r == UnsupportedMediaType
    ensures outcome.Thrown? && outcome.exception != WeatherException <==> r == InternalServerError
  {
    match outcome
    case Normal => Ok
    case Thrown(WeatherException) => UnsupportedMediaType
    case Thrown(_) => InternalServerError
  }

  /**
   * `updateWeather`: a body that does not decode answers 500 and changes
   * nothing. A decoded point (a JSON `null` decodes to `null`) goes to
   * `addDataPoint`: success is OK, a WeatherException is 415, and the
   * IllegalArgumentException an unknown kind escapes with is 500.
   */
  method UpdateWeather(store: WS.Store, iataCode: string, pointType: string, decoded: Parsed<DataPoint?>, now: int)
    returns (r: Status)
    requires store.Valid()
    modifies store.atmosphericInformation
    ensures decoded.Malformed? ==> r == InternalServerError && store.Readings() == old(store.Readings())
    ensures var idx := WS.GetAirportDataIdx(store.airportData, iataCode);
            decoded.Parsed? && (idx < 0 || ParseDataPointType(pointType).None? || decoded.value == null) ==>
              && r == (if ParseDataPointType(pointType).Some? then UnsupportedMediaType else InternalServerError)
              && store.Readings() == old(store.Readings())
    ensures var idx := WS.GetAirportDataIdx(store.airportData, iataCode);
            decoded.Parsed? && idx >= 0 && ParseDataPointType(pointType).Some? && decoded.value != null ==>
              && r == Ok
              && store.Readings() == old(store.Readings())[idx := WS.Apply(old(store.Readings())[idx], ParseDataPointType(pointType).value, decoded.value, now)]
  {
    if decoded.Malformed? {
      return InternalServerError;
    }
    var outcome := AddDataPoint(store, iataCode, pointType, decoded.value, now);
    r := StatusOf(outcome);
  }
}
