/**
 * The in-memory store shared by every endpoint, and the service operations
 * over it: registering and removing airports, looking them up, applying a
 * range-checked measurement to an airport's record, and counting requests.
 *
 * `airportData` and `atmosphericInformation` are meant to be parallel lists
 * (record i belongs to airport i). Adding keeps them parallel; deleting
 * removes only the airport, so the record list can become longer than the
 * airport list. What every operation does keep is that the record list is
 * never the shorter one, which is what makes the index lookups of the query
 * endpoint safe.
 */
module WeatherService {
  import opened JavaLang
  import opened WeatherConstant
  import opened DataPointModel
  import opened WeatherModel
  import opened AirportModel

  // ---------------------------------------------------------------------
  // Lookup

  /** `findAirportData`: the first airport in list order with this code, or `null`. */
  function FindAirportData(airports: seq<AirportData>, code: string): (r: Option<AirportData>)
    ensures r.None? <==> forall i :: 0 <= i < |airports| ==> airports[i].iata != code
    ensures r.Some? ==> exists i :: 0 <= i < |airports| && airports[i] == r.value && IsFirstMatch(airports, code, i)
  {
    if airports == [] then None
    else if airports[0].iata == code then
      assert IsFirstMatch(airports, code, 0);
      Some(airports[0])
    else
      var r := FindAirportData(airports[1..], code);
      assert r.Some? ==> exists i :: 0 <= i < |airports[1..]| && airports[1..][i] == r.value && IsFirstMatch(airports[1..], code, i);
      assert forall i :: 0 <= i < |airports[1..]| && IsFirstMatch(airports[1..], code, i) ==> IsFirstMatch(airports, code, i + 1);
      r
  }

  /** Position `i` holds the code, and no earlier position does. */
  ghost predicate IsFirstMatch(airports: seq<AirportData>, code: string, i: int)
  {
    0 <= i < |airports| && airports[i].iata == code
    && forall j :: 0 <= j < i ==> airports[j].iata != code
  }

  /** `List.indexOf`: the first position holding an element equal to `x`, or -1 (always -1 for `null`). */
  function IndexOf(airports: seq<AirportData>, x: Option<AirportData>): (r: int)
    ensures -1 <= r < |airports|
    ensures r == -1 <==> x.None? || x.value !in airports
    ensures 0 <= r ==> x == Some(airports[r]) && forall j :: 0 <= j < r ==> airports[j] != x.value
  {
    if x.None? || airports == [] then -1
    else if airports[0] == x.value then 0
    else
      var k := IndexOf(airports[1..], x);
      if k == -1 then -1 else k + 1
  }

  /**
   * `getAirportDataIdx`: `indexOf(findAirportData(code))`, which is the
   * position of the first airport with this code, or -1 when there is none.
   */
  function GetAirportDataIdx(airports: seq<AirportData>, code: string): (r: int)
    ensures -1 <= r < |airports|
    ensures r == -1 <==> forall i :: 0 <= i < |airports| ==> airports[i].iata != code
    ensures 0 <= r ==> IsFirstMatch(airports, code, r)
    ensures 0 <= r ==> FindAirportData(airports, code) == Some(airports[r])
  {
    var found := FindAirportData(airports, code);
    var r := IndexOf(airports, found);
    assert found.Some? ==> 0 <= r && IsFirstMatch(airports, code, r) by {
      if found.Some? {
        var i :| 0 <= i < |airports| && airports[i] == found.value && IsFirstMatch(airports, code, i);
        assert found.value in airports;
        assert r <= i;
      }
    }
    r
  }

  /** Looking up in a concatenation finds in the first part when it can, and in the second otherwise. */
  lemma {:induction false} FindConcat(a: seq<AirportData>, b: seq<AirportData>, code: string)
    ensures FindAirportData(a + b, code) ==
              if FindAirportData(a, code).Some? then FindAirportData(a, code) else FindAirportData(b, code)
  {
    if a != [] {
      assert (a + b)[1..] == a[1..] + b;
      FindConcat(a[1..], b, code);
    } else {
      assert a + b == b;
    }
  }

  /**
   * After appending an airport, a code that was already registered still
   * finds its earlier airport, and only a new code finds the appended one.
   */
  lemma FindAfterAppend(airports: seq<AirportData>, ad: AirportData, code: string)
    ensures var old_ := FindAirportData(airports, code);
            FindAirportData(airports + [ad], code) ==
              if old_.Some? then old_ else if ad.iata == code then Some(ad) else None
  {
    FindConcat(airports, [ad], code);
    assert [ad][1..] == [];
  }

  /**
   * After the first airport with a code is removed, the code finds the next
   * airport with it, if any.
   */
  lemma FindAfterRemoval(airports: seq<AirportData>, code: string)
    requires GetAirportDataIdx(airports, code) >= 0
    ensures var idx := GetAirportDataIdx(airports, code);
            FindAirportData(airports[..idx] + airports[idx + 1..], code) == FindAirportData(airports[idx + 1..], code)
  {
    var idx := GetAirportDataIdx(airports, code);
    FindConcat(airports[..idx], airports[idx + 1..], code);
    assert FindAirportData(airports[..idx], code).None? by {
      assert forall i :: 0 <= i < idx ==> airports[..idx][i] == airports[i];
    }
  }

  // ---------------------------------------------------------------------
  // Range-checked updates of one record

  /** Whether a mean is inside the accepted range of its kind (the `switch` of the update). */
  predicate Accepts(t: DataPointType, mean: real): (r: bool)
    ensures r ==> TEMPERATURE_LOWER_LIMIT <= mean
    ensures r && mean < 0.0 ==> t == Temperature
    ensures r && t != Wind ==> mean < PRESSURE_UPPER_LIMIT
  {
    match t
    case Wind => mean >= WIND_LOWER_LIMIT
    case Temperature => mean >= TEMPERATURE_LOWER_LIMIT && mean < TEMPERATURE_UPPER_LIMIT
    case Humidty => mean >= HUMIDTY_LOWER_LIMIT && mean < HUMIDTY_UPPER_LIMIT
    case Pressure => mean >= PRESSURE_LOWER_LIMIT && mean < PRESSURE_UPPER_LIMIT
    case CloudCover => mean >= CLOUDCOVER_LOWER_LIMIT && mean < CLOUDCOVER_UPPER_LIMIT
    case Precipitation => mean >= PRECIPITATION_LOWER_LIMIT && mean < PRECIPITATION_UPPER_LIMIT
  }

  /**
   * Every kind accepts its lower limit, the bounded kinds reject their upper
   * limit, and wind accepts every mean from its lower limit up.
   */
  lemma AcceptedRanges(t: DataPointType)
    ensures exists mean :: Accepts(t, mean)
    ensures t == Wind ==> forall mean :: Accepts(t, mean) <==> mean >= WIND_LOWER_LIMIT
    ensures t != Wind ==> exists mean :: !Accepts(t, mean) && mean > 0.0
    ensures forall mean :: mean < 0.0 && t != Temperature ==> !Accepts(t, mean)
  {
    match t
    case Wind => assert Accepts(t, WIND_LOWER_LIMIT);
    case Temperature => assert Accepts(t, TEMPERATURE_LOWER_LIMIT) && !Accepts(t, TEMPERATURE_UPPER_LIMIT);
    case Humidty => assert Accepts(t, HUMIDTY_LOWER_LIMIT) && !Accepts(t, HUMIDTY_UPPER_LIMIT);
    case Pressure => assert Accepts(t, PRESSURE_LOWER_LIMIT) && !Accepts(t, PRESSURE_UPPER_LIMIT);
    case CloudCover => assert Accepts(t, CLOUDCOVER_LOWER_LIMIT) && !Accepts(t, CLOUDCOVER_UPPER_LIMIT);
    case Precipitation => assert Accepts(t, PRECIPITATION_LOWER_LIMIT) && !Accepts(t, PRECIPITATION_UPPER_LIMIT);
  }

  /**
   * The effect of one measurement on a record's contents: when the mean is
   * in range, the slot of its kind is replaced and the timestamp set to
   * `now`; otherwise nothing changes. The other five slots never change.
   */
  function Apply(v: Reading, t: DataPointType, dp: DataPoint, now: int): (r: Reading)
    reads dp
    ensures Accepts(t, dp.mean) ==> r.Slot(t) == dp && r.lastUpdateTime == now
    ensures !Accepts(t, dp.mean) ==> r == v
    ensures forall u :: u != t ==> r.Slot(u) == v.Slot(u)
  {
    if Accepts(t, dp.Mean()) then v.WithSlot(t, dp).(lastUpdateTime := now) else v
  }

  /**
   * `updateAtmosphericInformation`: an unknown kind throws
   * IllegalArgumentException (from `valueOf`), a `null` point throws
   * NullPointerException (from `getMean`), and otherwise the record gets
   * `Apply`. The source's `default` branch is unreachable, since the switch
   * covers every constant.
   */
  method UpdateAtmosphericInformation(ai: AtmosphericInformation, pointType: string, dp: DataPoint?, now: int)
    returns (r: Outcome)
    modifies ai
    ensures ParseDataPointType(pointType).None? ==>
              r == Thrown(IllegalArgumentException) && ai.Value() == old(ai.Value())
    ensures ParseDataPointType(pointType).Some? && dp == null ==>
              r == Thrown(NullPointerException) && ai.Value() == old(ai.Value())
    ensures ParseDataPointType(pointType).Some? && dp != null ==>
              r == Normal && ai.Value() == Apply(old(ai.Value()), ParseDataPointType(pointType).value, dp, now)
  {
    var dptype := ParseDataPointType(pointType);
    if dptype.None? {
      return Thrown(IllegalArgumentException);
    }
    if dp == null {
      return Thrown(NullPointerException);
    }
    r := Normal;
    match dptype.value
    case Wind =>
      if dp.Mean() >= WIND_LOWER_LIMIT {
        ai.SetSlot(Wind, dp);
        ai.SetLastUpdateTime(now);
      }
    case Temperature =>
      if dp.Mean() >= TEMPERATURE_LOWER_LIMIT && dp.Mean() < TEMPERATURE_UPPER_LIMIT {
        ai.SetSlot(Temperature, dp);
        ai.SetLastUpdateTime(now);
      }
    case Humidty =>
      if dp.Mean() >= HUMIDTY_LOWER_LIMIT && dp.Mean() < HUMIDTY_UPPER_LIMIT {
        ai.SetSlot(Humidty, dp);
        ai.SetLastUpdateTime(now);
      }
    case Pressure =>
      if dp.Mean() >= PRESSURE_LOWER_LIMIT && dp.Mean() < PRESSURE_UPPER_LIMIT {
        ai.SetSlot(Pressure, dp);
        ai.SetLastUpdateTime(now);
      }
    case CloudCover =>
      if dp.Mean() >= CLOUDCOVER_LOWER_LIMIT && dp.Mean() < CLOUDCOVER_UPPER_LIMIT {
        ai.SetSlot(CloudCover, dp);
        ai.SetLastUpdateTime(now);
      }
    case Precipitation =>
      if dp.Mean() >= PRECIPITATION_LOWER_LIMIT && dp.Mean() < PRECIPITATION_UPPER_LIMIT {
        ai.SetSlot(Precipitation, dp);
        ai.SetLastUpdateTime(now);
      }
  }

  /**
   * What the `catch` blocks of `addDataPoint` throw: a new WeatherException
   * built from `DataPointType.valueOf(pointType.toUpperCase())`, which itself
   * throws IllegalArgumentException for an unknown kind.
   */
  function Rethrown(pointType: string): (r: Outcome)
    ensures r.Thrown?
    ensures r.exception == WeatherException <==> ParseDataPointType(pointType).Some?
    ensures r.exception != WeatherException ==> r.exception == IllegalArgumentException
  {
    if ParseDataPointType(pointType).Some? then Thrown(WeatherException) else Thrown(IllegalArgumentException)
  }

  /** The contents of a list of records, position by position. */
  function Values(rs: seq<AtmosphericInformation>): (r: seq<Reading>)
    reads rs
    ensures |r| == |rs|
    ensures forall i :: 0 <= i < |rs| ==> r[i] == rs[i].Value()
  {
    if rs == [] then [] else [rs[0].Value()] + Values(rs[1..])
  }

  /**
   * When every record but the one at `idx` still holds what `before` lists,
   * the contents are `before` with that one position replaced.
   */
  lemma OneRecordChanged(rs: seq<AtmosphericInformation>, before: seq<Reading>, idx: int)
    requires 0 <= idx < |rs| == |before|
    requires forall i :: 0 <= i < |rs| && i != idx ==> before[i] == rs[i].Value()
    ensures Values(rs) == before[idx := rs[idx].Value()]
  {
    assert forall i :: 0 <= i < |rs| ==> Values(rs)[i] == before[idx := rs[idx].Value()][i];
  }

  // ---------------------------------------------------------------------
  // The store

  /** The five airports `init` registers, each with the longitude stored as its latitude. */
  const INIT_AIRPORTS: seq<AirportData> := [
    AirportData("BOS", -71.005181, 0.0),
    AirportData("EWR", -74.168667, 0.0),
    AirportData("JFK", -73.778925, 0.0),
    AirportData("LGA", -73.872608, 0.0),
    AirportData("MMU", -74.4148747, 0.0)
  ]

  class Store {
    /** All known airports, in registration order. */
    var airportData: seq<AirportData>
    /** One record per registered airport, meant to be at the airport's index. */
    var atmosphericInformation: seq<AtmosphericInformation>
    /** Requests per resolved airport; the key is `null` when the code did not resolve. */
    var requestFrequency: map<Option<AirportData>, int>
    /** Requests per query radius. */
    var radiusFreq: map<real, int>

    /**
     * The invariant every operation keeps: no airport lacks a record
     * position, each record object sits at one position only, and every
     * radius count is 0.
     */
    ghost predicate Valid()
      reads this
    {
      && |airportData| <= |atmosphericInformation|
      && (forall i, j :: 0 <= i < j < |atmosphericInformation| ==> atmosphericInformation[i] != atmosphericInformation[j])
      && (forall r :: r in radiusFreq ==> radiusFreq[r] == 0)
    }

    /**
     * The two lists have equal lengths. Records are added together with
     * their airports, so this holds until the first deletion.
     */
    predicate Paired()
      reads this
    {
      |airportData| == |atmosphericInformation|
    }

    /** The contents of every record, by position. */
    function Readings(): seq<Reading>
      reads this, atmosphericInformation
    {
      Values(atmosphericInformation)
    }

    constructor ()
      ensures Valid() && Paired()
      ensures airportData == [] && atmosphericInformation == []
      ensures requestFrequency == map[] && radiusFreq == map[]
    {
      airportData := [];
      atmosphericInformation := [];
      requestFrequency := map[];
      radiusFreq := map[];
    }

    /**
     * `updateRequestFrequency`: the resolved airport's count goes up by one
     * (an absent key counting as 0, in `int` arithmetic), while the radius
     * count is stored back unchanged, so a new radius gets 0 and an old one
     * keeps its value.
     */
    method UpdateRequestFrequency(iata: string, radius: real)
      requires Valid()
      modifies this`requestFrequency, this`radiusFreq
      ensures Valid()
      ensures var ad := FindAirportData(airportData, iata);
              requestFrequency == old(requestFrequency)[ad := Wrap(GetOrDefault(old(requestFrequency), ad, 0) + 1)]
      ensures radiusFreq == old(radiusFreq)[radius := GetOrDefault(old(radiusFreq), radius, 0)]
      ensures radiusFreq == old(radiusFreq)[radius := 0]
    {
      var ad := FindAirportData(airportData, iata);
      requestFrequency := requestFrequency[ad := Wrap(GetOrDefault(requestFrequency, ad, 0) + 1)];
      radiusFreq := radiusFreq[radius := GetOrDefault(radiusFreq, radius, 0)];
    }

    /**
     * `addAirport`: appends one airport and one fresh, empty record. The
     * latitude is set from `latitude` and then overwritten with `longitude`;
     * the longitude keeps its default of 0.
     */
    method AddAirport(iataCode: string, latitude: real, longitude: real) returns (ad: AirportData)
      requires Valid()
      modifies this`airportData, this`atmosphericInformation
      ensures Valid()
      ensures ad == AirportData(iataCode, longitude, 0.0)
      ensures airportData == old(airportData) + [ad]
      ensures |atmosphericInformation| == |old(atmosphericInformation)| + 1
      ensures atmosphericInformation[..|old(atmosphericInformation)|] == old(atmosphericInformation)
      ensures fresh(atmosphericInformation[|old(atmosphericInformation)|])
      ensures atmosphericInformation[|old(atmosphericInformation)|].Value() == EMPTY_READING
      ensures old(Paired()) ==> Paired()
    {
      ad := AirportData("", 0.0, 0.0);
      var ai := new AtmosphericInformation();
      ad := ad.(iata := iataCode);
      ad := ad.(latitude := latitude);
      ad := ad.(latitude := longitude);
      airportData := airportData + [ad];
      atmosphericInformation := atmosphericInformation + [ai];
    }

    /**
     * `deleteAirport`: removes the first airport with the code and reports
     * whether there was one. Its record stays, so every later airport moves
     * down one position while the records do not: airport k is now paired
     * with the record of the airport that used to be at k.
     */
    method DeleteAirport(iataCode: string) returns (removed: bool)
      requires Valid()
      modifies this`airportData
      ensures Valid()
      ensures var idx := GetAirportDataIdx(old(airportData), iataCode);
              && removed == (idx >= 0)
              && airportData == if idx >= 0 then old(airportData)[..idx] + old(airportData)[idx + 1..] else old(airportData)
      ensures removed ==> |airportData| == |old(airportData)| - 1 && !Paired()
    {
      var airport := FindAirportData(airportData, iataCode);
      if airport.None? {
        return false;
      }
      var idx := IndexOf(airportData, airport);
      airportData := airportData[..idx] + airportData[idx + 1..];
      removed := true;
    }

    /**
     * `addDataPoint` of the service: a no-op on an empty record list.
     * Otherwise an unknown code makes the list access fail, and that or any
     * failure of the update is rethrown as `Rethrown`; a successful update
     * changes only the record at the airport's index.
     */
    method AddDataPoint(iataCode: string, pointType: string, dp: DataPoint?, now: int) returns (r: Outcome)
      requires Valid()
      modifies atmosphericInformation
      ensures |atmosphericInformation| == 0 ==> r == Normal && Readings() == old(Readings())
      ensures var idx := GetAirportDataIdx(airportData, iataCode);
              |atmosphericInformation| > 0 && (idx < 0 || ParseDataPointType(pointType).None? || dp == null) ==>
                r == Rethrown(pointType) && Readings() == old(Readings())
      ensures var idx := GetAirportDataIdx(airportData, iataCode);
              |atmosphericInformation| > 0 && idx >= 0 && ParseDataPointType(pointType).Some? && dp != null ==>
                r == Normal
                && Readings() == old(Readings())[idx := Apply(old(Readings())[idx], ParseDataPointType(pointType).value, dp, now)]
    {
      var airportDataIdx := GetAirportDataIdx(airportData, iataCode);
      if |atmosphericInformation| > 0 {
        if airportDataIdx < 0 || airportDataIdx >= |atmosphericInformation| {
          return Rethrown(pointType);
        }
        ghost var before := Readings();
        var ai := atmosphericInformation[airportDataIdx];
        var u := UpdateAtmosphericInformation(ai, pointType, dp, now);
        assert forall i :: 0 <= i < |atmosphericInformation| && i != airportDataIdx ==> atmosphericInformation[i] != ai;
        OneRecordChanged(atmosphericInformation, before, airportDataIdx);
        if u.Thrown? {
          return Rethrown(pointType);
        }
        r := Normal;
      } else {
        r := Normal;
      }
    }

    /**
     * `init`: clears the airports, the records and the request counts (the
     * radius counts are kept) and registers the five fixed airports.
     */
    method Init()
      requires Valid()
      modifies this`airportData, this`atmosphericInformation, this`requestFrequency
      ensures Valid() && Paired()
      ensures airportData == INIT_AIRPORTS
      ensures |atmosphericInformation| == 5
      ensures forall i :: 0 <= i < 5 ==> fresh(atmosphericInformation[i]) && atmosphericInformation[i].Value() == EMPTY_READING
      ensures requestFrequency == map[]
    {
      airportData := [];
      atmosphericInformation := [];
      requestFrequency := map[];
      var _ := AddAirport("BOS", 42.364347, -71.005181);
      var _ := AddAirport("EWR", 40.6925, -74.168667);
      var _ := AddAirport("JFK", 40.639751, -73.778925);
      var _ := AddAirport("LGA", 40.777245, -73.872608);
      var _ := AddAirport("MMU", 40.79935, -74.4148747);
      assert airportData == INIT_AIRPORTS;
    }
  }

  /** In a valid store, a code that resolves has a record at its index. */
  lemma ResolvedIndexHasRecord(store: Store, code: string)
    requires store.Valid()
    requires FindAirportData(store.airportData, code).Some?
    ensures 0 <= GetAirportDataIdx(store.airportData, code) < |store.atmosphericInformation|
  {
  }

  // ---------------------------------------------------------------------
  // Loading one line of the airport file

  /**
   * How `populateAirportData` ends for the fields of one line: fields are
   * read by position 1 to 10, so a short line fails at the first missing
   * position, and positions 8 and 9 must parse as numbers.
   */
  function PopulateOutcome(fields: seq<string>, parseDouble: string -> Parsed<real>, parseFloat: string -> Parsed<real>): Outcome
  {
    if |fields| == 0 then Normal
    else if |fields| <= 8 then Thrown(ArrayIndexOutOfBoundsException)
    else if parseDouble(fields[8]).Malformed? then Thrown(NumberFormatException)
    else if |fields| <= 9 then Thrown(ArrayIndexOutOfBoundsException)
    else if parseFloat(fields[9]).Malformed? then Thrown(NumberFormatException)
    else if |fields| <= 10 then Thrown(ArrayIndexOutOfBoundsException)
    else Normal
  }

  /**
   * `populateAirportData`, string fields only: a `null` or empty array
   * changes nothing; otherwise fields 1 to 7 go through the setters in order
   * (as far as the array reaches), fields 8 and 9 are parsed as numbers and
   * dropped, and field 10 is the DST flag.
   */
  method PopulateAirportData(strArr: Option<seq<string>>, airport: Airport,
                             parseDouble: string -> Parsed<real>, parseFloat: string -> Parsed<real>)
    returns (r: Outcome)
    modifies airport
    ensures strArr.None? || |strArr.value| == 0 ==> r == Normal && unchanged(airport)
    ensures strArr.Some? ==> r == PopulateOutcome(strArr.value, parseDouble, parseFloat)
    ensures strArr.Some? && |strArr.value| > 1 ==> airport.airportName == TrimQuotes(Some(strArr.value[1]))
    ensures strArr.Some? && |strArr.value| > 2 ==> airport.city == TrimQuotes(Some(strArr.value[2]))
    ensures strArr.Some? && |strArr.value| > 3 ==> airport.country == TrimQuotes(Some(strArr.value[3]))
    ensures strArr.Some? && |strArr.value| > 4 ==>
              airport.iata == (if strArr.value[4] == "" then Some("")
                               else if |StripQuotes(strArr.value[4])| == 3 then Some(StripQuotes(strArr.value[4]))
                               else old(airport.iata))
    ensures strArr.Some? && |strArr.value| > 5 ==>
              airport.icao == (if strArr.value[5] == "" then Some("")
                               else if |StripQuotes(strArr.value[5])| == 4 then Some(StripQuotes(strArr.value[5]))
                               else old(airport.icao))
    ensures strArr.Some? && |strArr.value| > 6 ==> airport.latitude == Some(strArr.value[6])
    ensures strArr.Some? && |strArr.value| > 7 ==> airport.longitude == Some(strArr.value[7])
    ensures strArr.Some? && |strArr.value| > 0 && r == Normal ==>
              |strArr.value| > 10 && airport.dst == TrimQuotes(Some(strArr.value[10]))
    ensures strArr.Some? && r != Normal ==> airport.dst == old(airport.dst)
    ensures strArr.Some? && |strArr.value| <= 1 ==> airport.airportName == old(airport.airportName)
    ensures strArr.Some? && |strArr.value| <= 2 ==> airport.city == old(airport.city)
    ensures strArr.Some? && |strArr.value| <= 3 ==> airport.country == old(airport.country)
    ensures strArr.Some? && |strArr.value| <= 4 ==> airport.iata == old(airport.iata)
    ensures strArr.Some? && |strArr.value| <= 5 ==> airport.icao == old(airport.icao)
    ensures strArr.Some? && |strArr.value| <= 6 ==> airport.latitude == old(airport.latitude)
    ensures strArr.Some? && |strArr.value| <= 7 ==> airport.longitude == old(airport.longitude)
  {
    if strArr.None? || |strArr.value| == 0 {
      return Normal;
    }
    var a := strArr.value;
    if |a| <= 1 { return Thrown(ArrayIndexOutOfBoundsException); }
    airport.SetAirportName(Some(a[1]));
    if |a| <= 2 { return Thrown(ArrayIndexOutOfBoundsException); }
    airport.SetCity(Some(a[2]));
    if |a| <= 3 { return Thrown(ArrayIndexOutOfBoundsException); }
    airport.SetCountry(Some(a[3]));
    if |a| <= 4 { return Thrown(ArrayIndexOutOfBoundsException); }
    airport.SetIata(Some(a[4]));
    if |a| <= 5 { return Thrown(ArrayIndexOutOfBoundsException); }
    airport.SetIcao(Some(a[5]));
    if |a| <= 6 { return Thrown(ArrayIndexOutOfBoundsException); }
    airport.SetLatitude(Some(a[6]));
    if |a| <= 7 { return Thrown(ArrayIndexOutOfBoundsException); }
    airport.SetLongitude(Some(a[7]));
    if |a| <= 8 { return Thrown(ArrayIndexOutOfBoundsException); }
    if parseDouble(a[8]).Malformed? { return Thrown(NumberFormatException); }
    if |a| <= 9 { return Thrown(ArrayIndexOutOfBoundsException); }
    if parseFloat(a[9]).Malformed? { return Thrown(NumberFormatException); }
    if |a| <= 10 { return Thrown(ArrayIndexOutOfBoundsException); }
    airport.SetDst(Some(a[10]));
    r := Normal;
  }
}
