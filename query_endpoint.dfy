/**
 * The query side: the weather near an airport, and the health statistics
 * (recent records, how often each airport is asked for, and a histogram of
 * the query radii).
 */
module RestWeatherQueryEndpoint {
  import opened JavaLang
  import opened WeatherModel
  import opened RestResponse
  import WS = WeatherService

  // ---------------------------------------------------------------------
  // weather

  /** `String.trim`, first part: drops the leading characters up to and including the space. */
  function TrimLeading(s: string): (r: string)
    ensures |r| <= |s|
    ensures r == [] || r[0] > ' '
  {
    if |s| > 0 && s[0] <= ' ' then TrimLeading(s[1..]) else s
  }

  /** `String.trim`, second part: drops the trailing characters up to and including the space. */
  function TrimTrailing(s: string): (r: string)
    ensures |r| <= |s|
    ensures |s| > 0 && s[0] > ' ' ==> r != []
  {
    if |s| > 0 && s[|s| - 1] <= ' ' then TrimTrailing(s[..|s| - 1]) else s
  }

  /** `String.trim`: first the leading, then the trailing characters up to the space go. */
  function Trim(s: string): string
  {
    TrimTrailing(TrimLeading(s))
  }

  /** Only characters up to the space are dropped from the front. */
  lemma {:induction false} TrimLeadingIsEmpty(s: string)
    ensures TrimLeading(s) == [] <==> forall i :: 0 <= i < |s| ==> s[i] <= ' '
  {
    if |s| > 0 && s[0] <= ' ' {
      TrimLeadingIsEmpty(s[1..]);
      assert forall i :: 1 <= i < |s| ==> s[i] == s[1..][i - 1];
    }
  }

  /** `s.trim().isEmpty()`: holds exactly when every character is a space or a control character. */
  predicate IsBlank(s: string): (r: bool)
    ensures r <==> forall i :: 0 <= i < |s| ==> s[i] <= ' '
  {
    TrimLeadingIsEmpty(s);
    Trim(s) == []
  }

  /**
   * The radius a query string stands for: absent or blank means 0, and only
   * a string with some visible character is parsed, and so can be malformed.
   */
  function RadiusOf(radiusString: Option<string>, parseDouble: string -> Parsed<real>): (r: Parsed<real>)
    ensures radiusString.None? ==> r == Parsed(0.0)
    ensures radiusString.Some? && (forall i :: 0 <= i < |radiusString.value| ==> radiusString.value[i] <= ' ') ==>
              r == Parsed(0.0)
    ensures r.Malformed? ==> radiusString.Some? && exists i :: 0 <= i < |radiusString.value| && radiusString.value[i] > ' '
    ensures r != Parsed(0.0) ==> radiusString.Some? && r == parseDouble(radiusString.value)
    ensures radiusString.Some? && (exists i :: 0 <= i < |radiusString.value| && radiusString.value[i] > ' ') ==>
              r == parseDouble(radiusString.value)
  {
    if radiusString.None? || IsBlank(radiusString.value) then Parsed(0.0) else parseDouble(radiusString.value)
  }

  /** Airport `i` is within `radius` of `ad` and its record holds data. */
  predicate Qualifies(airports: seq<AirportData>, readings: seq<Reading>, ad: AirportData, radius: real,
                      distance: (AirportData, AirportData) -> real, i: int)
    requires |airports| <= |readings|
  {
    0 <= i < |airports| && distance(ad, airports[i]) <= radius && readings[i].HasData()
  }

  /**
   * The positions among the first `n` airports that a radius query returns:
   * exactly the qualifying ones, in increasing order.
   */
  function Selected(airports: seq<AirportData>, readings: seq<Reading>, ad: AirportData, radius: real,
                    distance: (AirportData, AirportData) -> real, n: nat): (r: seq<nat>)
    requires n <= |airports| <= |readings|
    ensures forall k :: 0 <= k < |r| ==> r[k] < n && Qualifies(airports, readings, ad, radius, distance, r[k])
    ensures forall k, l :: 0 <= k < l < |r| ==> r[k] < r[l]
    ensures forall i :: 0 <= i < n && Qualifies(airports, readings, ad, radius, distance, i) ==> i in r
  {
    if n == 0 then []
    else
      var prev := Selected(airports, readings, ad, radius, distance, n - 1);
      if Qualifies(airports, readings, ad, radius, distance, n - 1) then prev + [n - 1] else prev
  }

  /** The records at the given positions, in that order. */
  function Gather(records: seq<AtmosphericInformation>, idxs: seq<nat>): seq<AtmosphericInformation>
    requires forall k :: 0 <= k < |idxs| ==> idxs[k] < |records|
  {
    seq(|idxs|, k requires 0 <= k < |idxs| => records[idxs[k]])
  }

  lemma GatherSnoc(records: seq<AtmosphericInformation>, idxs: seq<nat>, i: nat)
    requires forall k :: 0 <= k < |idxs| ==> idxs[k] < |records|
    requires i < |records|
    ensures Gather(records, idxs + [i]) == Gather(records, idxs) + [records[i]]
  {
  }

  /**
   * A radius query returns the queried airport's own record whenever that
   * record holds data and the distance from an airport to itself is 0.
   */
  lemma SelfIsSelected(airports: seq<AirportData>, readings: seq<Reading>, code: string, radius: real,
                       distance: (AirportData, AirportData) -> real)
    requires |airports| <= |readings|
    requires WS.FindAirportData(airports, code).Some?
    requires var ad := WS.FindAirportData(airports, code).value; distance(ad, ad) == 0.0
    requires radius >= 0.0
    requires readings[WS.GetAirportDataIdx(airports, code)].HasData()
    ensures var ad := WS.FindAirportData(airports, code).value;
            WS.GetAirportDataIdx(airports, code) in Selected(airports, readings, ad, radius, distance, |airports|)
  {
    var idx := WS.GetAirportDataIdx(airports, code);
    assert Qualifies(airports, readings, airports[idx], radius, distance, idx);
  }

  /**
   * The loop of a radius query: the records with data of every airport
   * within `radius` of `ad`, in airport order.
   */
  method ScanRadius(store: WS.Store, ad: AirportData, radius: real, distance: (AirportData, AirportData) -> real)
    returns (hits: seq<AtmosphericInformation>)
    requires |store.airportData| <= |store.atmosphericInformation|
    ensures hits == Gather(store.atmosphericInformation,
                           Selected(store.airportData, store.Readings(), ad, radius, distance, |store.airportData|))
  {
    ghost var rs := store.Readings();
    hits := [];
    var i := 0;
    while i < |store.airportData|
      invariant 0 <= i <= |store.airportData|
      invariant hits == Gather(store.atmosphericInformation, Selected(store.airportData, rs, ad, radius, distance, i))
    {
      ghost var prev := Selected(store.airportData, rs, ad, radius, distance, i);
      assert rs[i] == store.atmosphericInformation[i].Value();
      if distance(ad, store.airportData[i]) <= radius {
        var ai := store.atmosphericInformation[i];
        if ai.HasData() {
          GatherSnoc(store.atmosphericInformation, prev, i);
          hits := hits + [ai];
        }
      }
      i := i + 1;
    }
  }

  /** The records a query with a parsed radius returns. */
  ghost function Hits(store: WS.Store, iata: string, radius: real, distance: (AirportData, AirportData) -> real): seq<AtmosphericInformation>
    reads store, store.atmosphericInformation
    requires store.Valid()
    requires WS.FindAirportData(store.airportData, iata).Some?
  {
    if radius == 0.0 then [store.atmosphericInformation[WS.GetAirportDataIdx(store.airportData, iata)]]
    else Gather(store.atmosphericInformation,
                Selected(store.airportData, store.Readings(), WS.FindAirportData(store.airportData, iata).value,
                         radius, distance, |store.airportData|))
  }

  /**
   * `weather`: an unknown code is NOT_FOUND and counts nothing. Otherwise
   * the radius is read (a malformed one escapes as NumberFormatException,
   * still before anything is counted), the request is counted, and the
   * answer is the airport's own record for radius 0, or else every record
   * with data whose airport is within the radius; OK when that list is not
   * empty, NOT_FOUND when it is.
   */
  method Weather(store: WS.Store, iata: string, radiusString: Option<string>,
                 parseDouble: string -> Parsed<real>, distance: (AirportData, AirportData) -> real)
    returns (r: Result<Response<seq<AtmosphericInformation>>>)
    requires store.Valid()
    modifies store`requestFrequency, store`radiusFreq
    ensures store.Valid()
    ensures WS.FindAirportData(store.airportData, iata).None? ==>
              r == Returned(Response(NotFound, None)) && unchanged(store)
    ensures WS.FindAirportData(store.airportData, iata).Some? && RadiusOf(radiusString, parseDouble).Malformed? ==>
              r == Raised(NumberFormatException) && unchanged(store)
    ensures var found := WS.FindAirportData(store.airportData, iata);
            var radius := RadiusOf(radiusString, parseDouble);
            found.Some? && radius.Parsed? ==>
              && store.requestFrequency == old(store.requestFrequency)[found := Wrap(GetOrDefault(old(store.requestFrequency), found, 0) + 1)]
              && store.radiusFreq == old(store.radiusFreq)[radius.value := 0]
              && var hits := Hits(store, iata, radius.value, distance);
                 r == Returned(if |hits| > 0 then Response(Ok, Some(hits)) else Response(NotFound, None))
  {
    var airport := WS.FindAirportData(store.airportData, iata);
    if airport.None? {
      return Returned(Response(NotFound, None));
    }
    var parsed := RadiusOf(radiusString, parseDouble);
    if parsed.Malformed? {
      return Raised(NumberFormatException);
    }
    var radius := parsed.value;
    store.UpdateRequestFrequency(iata, radius);

    var retval: seq<AtmosphericInformation>;
    if radius == 0.0 {
      var idx := WS.GetAirportDataIdx(store.airportData, iata);
      retval := [store.atmosphericInformation[idx]];
    } else {
      var ad := WS.FindAirportData(store.airportData, iata).value;
      retval := ScanRadius(store, ad, radius, distance);
    }
    assert retval == Hits(store, iata, radius, distance);

    if |retval| > 0 {
      r := Returned(Response(Ok, Some(retval)));
    } else {
      r := Returned(Response(NotFound, None));
    }
  }

  // ---------------------------------------------------------------------
  // ping

  /** The fraction of requests of one airport; `0.0 / 0` is NaN when nothing was ever counted. */
  datatype Fraction = NaN | Quotient(value: real)

  /** The health statistics `ping` serialises. */
  datatype Health = Health(datasize: nat, iataFreq: map<string, Fraction>, radiusFreq: seq<int>)

  const DAY_MILLIS: int := 86400000

  /** A record that holds data and was written within the last day. */
  predicate IsRecent(v: Reading, now: int)
  {
    v.HasData() && v.lastUpdateTime > now - DAY_MILLIS
  }

  /** The number of recent records. */
  function RecentCount(rs: seq<Reading>, now: int): (r: nat)
    ensures r <= |rs|
  {
    if rs == [] then 0
    else RecentCount(rs[..|rs| - 1], now) + if IsRecent(rs[|rs| - 1], now) then 1 else 0
  }

  /** No record is recent exactly when the count is 0, and every one exactly when it is the number of records. */
  lemma {:induction false} RecentCountExtremes(rs: seq<Reading>, now: int)
    ensures RecentCount(rs, now) == 0 <==> forall i :: 0 <= i < |rs| ==> !IsRecent(rs[i], now)
    ensures RecentCount(rs, now) == |rs| <==> forall i :: 0 <= i < |rs| ==> IsRecent(rs[i], now)
  {
    if rs != [] {
      var init := rs[..|rs| - 1];
      RecentCountExtremes(init, now);
      assert forall i :: 0 <= i < |init| ==> init[i] == rs[i];
    }
  }

  /** Freshly created records are never counted. */
  lemma EmptyRecordsAreNotRecent(rs: seq<Reading>, now: int)
    requires forall i :: 0 <= i < |rs| ==> rs[i] == EMPTY_READING
    ensures RecentCount(rs, now) == 0
  {
    assert !EMPTY_READING.HasData();
    RecentCountExtremes(rs, now);
  }

  /** The first loop of `ping`: the number of recent records. */
  method CountRecent(store: WS.Store, now: int) returns (datasize: nat)
    ensures datasize == RecentCount(store.Readings(), now)
  {
    ghost var rs := store.Readings();
    datasize := 0;
    var i := 0;
    while i < |store.atmosphericInformation|
      invariant 0 <= i <= |store.atmosphericInformation|
      invariant datasize == RecentCount(rs[..i], now)
    {
      var ai := store.atmosphericInformation[i];
      assert rs[i] == ai.Value();
      assert rs[..i + 1][..i] == rs[..i];
      if ai.HasData() && ai.lastUpdateTime > now - DAY_MILLIS {
        datasize := datasize + 1;
      }
      i := i + 1;
    }
    assert rs[..i] == rs;
  }

  /** `(double) requestFrequency.getOrDefault(a, 0) / requestFrequency.size()`. */
  function FracOf(rf: map<Option<AirportData>, int>, a: AirportData): (r: Fraction)
    ensures r.NaN? <==> |rf| == 0
    ensures |rf| > 0 && Some(a) !in rf ==> r == Quotient(0.0)
    ensures |rf| > 0 && Some(a) in rf ==> r == Quotient(rf[Some(a)] as real / |rf| as real)
  {
    if |rf| == 0 then NaN else Quotient(GetOrDefault(rf, Some(a), 0) as real / |rf| as real)
  }

  /** The per-code fractions, each airport in order putting its own over any earlier one. */
  function IataFreq(airports: seq<AirportData>, rf: map<Option<AirportData>, int>): (r: map<string, Fraction>)
    ensures |r| <= |airports|
    ensures airports != [] ==> |r| > 0
  {
    if airports == [] then map[]
    else
      var n := |airports| - 1;
      IataFreq(airports[..n], rf)[airports[n].iata := FracOf(rf, airports[n])]
  }

  /** No later airport has the same code as airport `i`. */
  predicate IsLastWithCode(airports: seq<AirportData>, i: int)
  {
    0 <= i < |airports| && forall j :: i < j < |airports| ==> airports[j].iata != airports[i].iata
  }

  /** There is a fraction for a code exactly when some airport has that code. */
  lemma {:induction false} IataFreqKeys(airports: seq<AirportData>, rf: map<Option<AirportData>, int>, code: string)
    ensures code in IataFreq(airports, rf) <==> exists i :: 0 <= i < |airports| && airports[i].iata == code
  {
    if airports != [] {
      var n := |airports| - 1;
      var init := airports[..n];
      IataFreqKeys(init, rf, code);
      if code in IataFreq(airports, rf) && code != airports[n].iata {
        var i :| 0 <= i < |init| && init[i].iata == code;
        assert airports[i].iata == code;
      }
      if exists i :: 0 <= i < |airports| && airports[i].iata == code {
        var i :| 0 <= i < |airports| && airports[i].iata == code;
        if i < n {
          assert init[i].iata == code;
        }
      }
    }
  }

  /** A code registered more than once reports the fraction of its last airport. */
  lemma {:induction false} IataFreqOfLast(airports: seq<AirportData>, rf: map<Option<AirportData>, int>, i: int)
    requires IsLastWithCode(airports, i)
    ensures airports[i].iata in IataFreq(airports, rf)
    ensures IataFreq(airports, rf)[airports[i].iata] == FracOf(rf, airports[i])
  {
    var n := |airports| - 1;
    if i < n {
      assert IsLastWithCode(airports[..n], i);
      IataFreqOfLast(airports[..n], rf, i);
      assert airports[..n][i] == airports[i];
    }
  }

  /** The second loop of `ping`: the fraction of requests per code. */
  method ComputeIataFreq(store: WS.Store) returns (freq: map<string, Fraction>)
    ensures freq == IataFreq(store.airportData, store.requestFrequency)
  {
    freq := map[];
    var i := 0;
    while i < |store.airportData|
      invariant 0 <= i <= |store.airportData|
      invariant freq == IataFreq(store.airportData[..i], store.requestFrequency)
    {
      var data := store.airportData[i];
      assert store.airportData[..i + 1][..i] == store.airportData[..i];
      var frac := if |store.requestFrequency| == 0 then NaN
                  else Quotient(GetOrDefault(store.requestFrequency, Some(data), 0) as real / |store.requestFrequency| as real);
      freq := freq[data.iata := frac];
      i := i + 1;
    }
    assert store.airportData[..i] == store.airportData;
  }

  /** `entries` lists every radius of the map exactly once: the map's iteration order. */
  ghost predicate IsEnumeration(rf: map<real, int>, entries: seq<real>)
  {
    && (forall k :: k in rf <==> k in entries)
    && (forall i, j :: 0 <= i < j < |entries| ==> entries[i] != entries[j])
  }

  /** The largest listed radius. */
  function SeqMax(entries: seq<real>): (r: real)
    requires |entries| > 0
    ensures r in entries
    ensures forall l :: 0 <= l < |entries| ==> entries[l] <= r
  {
    if |entries| == 1 then entries[0]
    else
      var m := SeqMax(entries[..|entries| - 1]);
      var last := entries[|entries| - 1];
      if last > m then last else m
  }

  /** `max(Double::compare).orElse(1000.0)` over the radii in iteration order. */
  function MaxRadius(entries: seq<real>): real
  {
    if |entries| == 0 then 1000.0 else SeqMax(entries)
  }

  /**
   * The stream maximum is the largest radius of the map (1000 exactly when
   * the map is empty), whatever the iteration order.
   */
  lemma MaxRadiusIsLargestKey(rf: map<real, int>, entries: seq<real>)
    requires IsEnumeration(rf, entries)
    ensures |entries| == 0 <==> rf.Keys == {}
    ensures |entries| == 0 ==> MaxRadius(entries) == 1000.0
    ensures |entries| > 0 ==> MaxRadius(entries) in rf && forall k :: k in rf ==> k <= MaxRadius(entries)
  {
    if |entries| == 0 {
      assert forall k :: k !in entries;
      assert forall k :: k !in rf.Keys;
    } else {
      assert forall k :: k in entries ==> k in rf;
      assert entries[0] in rf;
      forall k | k in rf ensures k <= MaxRadius(entries) {
        var l :| 0 <= l < |entries| && entries[l] == k;
      }
    }
  }

  /** Two iteration orders of the same map give the same maximum. */
  lemma MaxRadiusIsOrderFree(rf: map<real, int>, e1: seq<real>, e2: seq<real>)
    requires IsEnumeration(rf, e1) && IsEnumeration(rf, e2)
    ensures MaxRadius(e1) == MaxRadius(e2)
  {
    MaxRadiusIsLargestKey(rf, e1);
    MaxRadiusIsLargestKey(rf, e2);
    if |e1| > 0 {
      assert MaxRadius(e1) <= MaxRadius(e2) && MaxRadius(e2) <= MaxRadius(e1);
    }
  }

  /**
   * The histogram length: the largest radius (1000 when there is none) cast
   * to `int`, plus one in `int` arithmetic.
   */
  function HistogramLength(entries: seq<real>): (r: int)
    ensures 0.0 <= MaxRadius(entries) < INT_MAX as real ==>
              1 <= r && (r - 1) as real <= MaxRadius(entries) < r as real
  {
    Wrap(IntValue(MaxRadius(entries)) + 1)
  }

  /** The stream maximum of `ping`, over the iteration order. */
  method ComputeMaxRadius(entries: seq<real>) returns (max: real)
    ensures max == MaxRadius(entries)
  {
    max := 1000.0;
    var j := 0;
    while j < |entries|
      invariant 0 <= j <= |entries|
      invariant j == 0 ==> max == 1000.0
      invariant j > 0 ==> max == SeqMax(entries[..j])
    {
      if j == 0 || entries[j] > max {
        max := entries[j];
      }
      assert entries[..j + 1][..j] == entries[..j];
      j := j + 1;
    }
    assert entries[..j] == entries;
  }

  /** The bucket of a radius: `(int) radius % 10`. */
  function Bucket(radius: real): (r: int)
    ensures -10 < r < 10
    ensures 0.0 <= radius ==> 0 <= r
    ensures radius < 0.0 ==> r <= 0
    ensures 0.0 <= radius < 10.0 ==> r as real <= radius < r as real + 1.0
  {
    Rem10(IntValue(radius))
  }

  /** The mathematical sum of the counts of the listed radii that fall into bucket `b`. */
  function BucketTotal(rf: map<real, int>, entries: seq<real>, b: int): int
    requires forall k :: k in entries ==> k in rf
  {
    if entries == [] then 0
    else
      var k := entries[|entries| - 1];
      BucketTotal(rf, entries[..|entries| - 1], b) + if Bucket(k) == b then rf[k] else 0
  }

  /** Adding into an `int` slot that already wrapped gives the wrap of the exact sum. */
  lemma WrapAdd(x: int, y: int)
    ensures Wrap(Wrap(x) + y) == Wrap(x + y)
  {
    var w := Wrap(x);
    var q := (x - w) / 0x1_0000_0000;
    assert x - w == q * 0x1_0000_0000;
    ModShift(w + y - INT_MIN, q);
  }

  lemma ModShift(a: int, q: int)
    ensures (a + q * 0x1_0000_0000) % 0x1_0000_0000 == a % 0x1_0000_0000
  {
  }

  /** When every count is 0 (as in a valid store), every bucket total is 0. */
  lemma {:induction false} ZeroCountsGiveZeroTotals(rf: map<real, int>, entries: seq<real>, b: int)
    requires forall k :: k in entries ==> k in rf
    requires forall k :: k in rf ==> rf[k] == 0
    ensures BucketTotal(rf, entries, b) == 0
  {
    if entries != [] {
      ZeroCountsGiveZeroTotals(rf, entries[..|entries| - 1], b);
    }
  }

  /**
   * When every radius lies in [0, 2147483647), the histogram has a slot
   * for every bucket, so filling it cannot fail.
   */
  lemma HistogramFits(rf: map<real, int>, entries: seq<real>)
    requires IsEnumeration(rf, entries)
    requires forall k :: k in rf ==> 0.0 <= k < INT_MAX as real
    ensures forall k :: k in rf ==> 0 <= Bucket(k) < HistogramLength(entries)
  {
    MaxRadiusIsLargestKey(rf, entries);
    if |entries| > 0 {
      var mx := MaxRadius(entries);
      assert IntValue(mx) < INT_MAX;
      forall k | k in rf
        ensures 0 <= Bucket(k) < HistogramLength(entries)
      {
        IntValueMonotonic(k, mx);
      }
    }
  }

  /** With no radius counted yet, the histogram has 1001 slots. */
  lemma EmptyHistogramLength()
    ensures HistogramLength([]) == 1001
  {
    assert IntValue(1000.0) == 1000;
  }

  /**
   * A radius of 2147483647 or more saturates the `(int)` cast, the `+ 1`
   * wraps, and the histogram length is negative.
   */
  lemma HugeRadiusGivesNegativeLength(entries: seq<real>)
    requires |entries| > 0 && MaxRadius(entries) >= INT_MAX as real
    ensures HistogramLength(entries) == INT_MIN
  {
    assert IntValue(MaxRadius(entries)) == INT_MAX;
  }

  /**
   * A radius of -1 alone gives a histogram of length 0 and a bucket of -1,
   * so filling it fails.
   */
  lemma MinusOneRadiusHasNoSlot()
    ensures HistogramLength([-1.0]) == 0
    ensures Bucket(-1.0) == -1
  {
    assert IntValue(-1.0) == -1;
    assert SeqMax([-1.0]) == -1.0;
  }

  /**
   * The last loop of `ping`: every radius adds its count, in `int`
   * arithmetic, to the slot of its bucket, and a bucket outside the
   * histogram throws ArrayIndexOutOfBoundsException.
   */
  method FillHistogram(rf: map<real, int>, entries: seq<real>, m: nat) returns (r: Result<seq<int>>)
    requires IsEnumeration(rf, entries)
    ensures (exists k :: k in rf && !(0 <= Bucket(k) < m)) <==> r == Raised(ArrayIndexOutOfBoundsException)
    ensures r.Returned? ==> |r.value| == m && forall b :: 0 <= b < m ==> r.value[b] == Wrap(BucketTotal(rf, entries, b))
    ensures r.Returned? || r == Raised(ArrayIndexOutOfBoundsException)
  {
    var hist := new int[m](_ => 0);
    var j := 0;
    while j < |entries|
      invariant 0 <= j <= |entries|
      invariant forall l :: 0 <= l < j ==> 0 <= Bucket(entries[l]) < m
      invariant forall b :: 0 <= b < m ==> hist[b] == Wrap(BucketTotal(rf, entries[..j], b))
    {
      var key := entries[j];
      var i := Rem10(IntValue(key));
      if i < 0 || i >= m {
        assert key in rf && Bucket(key) == i;
        return Raised(ArrayIndexOutOfBoundsException);
      }
      assert entries[..j + 1][..j] == entries[..j];
      WrapAdd(BucketTotal(rf, entries[..j], i), rf[key]);
      hist[i] := Wrap(hist[i] + rf[key]);
      j := j + 1;
    }
    assert entries[..j] == entries;
    forall k | k in rf ensures 0 <= Bucket(k) < m {
      var l :| 0 <= l < |entries| && entries[l] == k;
    }
    r := Returned(hist[..]);
  }

  /**
   * `ping`: counts the recent records, computes each code's fraction of
   * the requests, and fills the radius histogram. The histogram throws
   * NegativeArraySizeException when its length comes out negative, and
   * ArrayIndexOutOfBoundsException when a radius falls into a bucket
   * outside it; which radius is met first does not change the outcome.
   * `entries` is the map's iteration order.
   */
  method Ping(store: WS.Store, now: int, entries: seq<real>) returns (r: Result<Health>)
    requires IsEnumeration(store.radiusFreq, entries)
    ensures HistogramLength(entries) < 0 ==> r == Raised(NegativeArraySizeException)
    ensures var m := HistogramLength(entries);
            m >= 0 && (exists k :: k in store.radiusFreq && !(0 <= Bucket(k) < m)) ==>
              r == Raised(ArrayIndexOutOfBoundsException)
    ensures var m := HistogramLength(entries);
            m >= 0 && (forall k :: k in store.radiusFreq ==> 0 <= Bucket(k) < m) ==>
              && r.Returned?
              && r.value.datasize == RecentCount(store.Readings(), now)
              && r.value.iataFreq == IataFreq(store.airportData, store.requestFrequency)
              && |r.value.radiusFreq| == m
              && forall b :: 0 <= b < m ==> r.value.radiusFreq[b] == Wrap(BucketTotal(store.radiusFreq, entries, b))
  {
    ghost var readings := store.Readings();
    var datasize := CountRecent(store, now);
    var freq := ComputeIataFreq(store);
    var max := ComputeMaxRadius(entries);
    var m := Wrap(IntValue(max) + 1);
    if m < 0 {
      return Raised(NegativeArraySizeException);
    }
    var hist := FillHistogram(store.radiusFreq, entries, m);
    if hist.Raised? {
      return Raised(hist.exception);
    }
    assert store.Readings() == readings;
    r := Returned(Health(datasize, freq, hist.value));
  }

  /**
   * The radius histogram of a valid store holds only zeros, because the
   * service never increments a radius count.
   */
  lemma ValidStoreHistogramIsZero(store: WS.Store, entries: seq<real>, b: int)
    requires store.Valid()
    requires IsEnumeration(store.radiusFreq, entries)
    ensures Wrap(BucketTotal(store.radiusFreq, entries, b)) == 0
  {
    ZeroCountsGiveZeroTotals(store.radiusFreq, entries, b);
  }
}
