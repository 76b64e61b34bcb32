/**
 * The entities the service keeps in memory: a registered airport, the kinds
 * of measurement, and the per-airport record of the latest measurement of
 * each kind.
 */
module WeatherModel {
  import opened JavaLang
  import opened DataPointModel

  /**
   * A registered airport: its code and coordinates in degrees. The service
   * builds one from the default object with plain setters, so every field it
   * does not set keeps its default of 0.
   */
  datatype AirportData = AirportData(iata: string, latitude: real, longitude: real)

  /** The measurement kinds, under the enum constant names of the source (HUMIDTY sic). */
  datatype DataPointType = Wind | Temperature | Humidty | Pressure | CloudCover | Precipitation

  /** The enum constant's name, which `valueOf` matches exactly. */
  function Name(t: DataPointType): string
  {
    match t
    case Wind => "WIND"
    case Temperature => "TEMPERATURE"
    case Humidty => "HUMIDTY"
    case Pressure => "PRESSURE"
    case CloudCover => "CLOUDCOVER"
    case Precipitation => "PRECIPITATION"
  }

  /**
   * `DataPointType.valueOf(pointType.toUpperCase())`: the kind whose name is
   * the upper-cased argument, or none (where Java throws
   * IllegalArgumentException).
   */
  function ParseDataPointType(pointType: string): (r: Option<DataPointType>)
    ensures r.Some? ==> Name(r.value) == AsciiUpper(pointType)
    ensures r.None? ==> forall t :: Name(t) != AsciiUpper(pointType)
  {
    var u := AsciiUpper(pointType);
    if u == "WIND" then Some(Wind)
    else if u == "TEMPERATURE" then Some(Temperature)
    else if u == "HUMIDTY" then Some(Humidty)
    else if u == "PRESSURE" then Some(Pressure)
    else if u == "CLOUDCOVER" then Some(CloudCover)
    else if u == "PRECIPITATION" then Some(Precipitation)
    else None
  }

  /** Every kind is found again from its own name. */
  lemma ParseName(t: DataPointType)
    ensures ParseDataPointType(Name(t)) == Some(t)
  {
    NameIsUpperCase(t);
  }

  lemma NameIsUpperCase(t: DataPointType)
    ensures AsciiUpper(Name(t)) == Name(t)
  {
    AsciiUpperOfUpper(Name(t));
  }

  /** The spelling "humidity" names no kind: only the misspelt constant parses. */
  lemma HumidityIsNotAKind()
    ensures ParseDataPointType("humidity").None?
    ensures ParseDataPointType("humidty") == Some(Humidty)
  {
    var u := AsciiUpper("humidity");
    assert |u| == 8 && u[0] == UpperChar('h') == 'H';
    var v := AsciiUpper("humidty");
    assert forall i :: 0 <= i < 7 ==> v[i] == UpperChar("humidty"[i]) == "HUMIDTY"[i];
    assert v == "HUMIDTY";
  }

  /**
   * The contents of one atmospheric record: six slots, each holding the
   * latest accepted measurement of its kind or `null`, and the time of the
   * latest accepted write.
   */
  datatype Reading = Reading(
    wind: DataPoint?,
    temperature: DataPoint?,
    humidity: DataPoint?,
    pressure: DataPoint?,
    cloudCover: DataPoint?,
    precipitation: DataPoint?,
    lastUpdateTime: int)
  {
    function Slot(t: DataPointType): DataPoint?
    {
      match t
      case Wind => wind
      case Temperature => temperature
      case Humidty => humidity
      case Pressure => pressure
      case CloudCover => cloudCover
      case Precipitation => precipitation
    }

    /** Replaces the slot of kind `t` and nothing else. */
    function WithSlot(t: DataPointType, dp: DataPoint?): (r: Reading)
      ensures r.Slot(t) == dp
      ensures forall u :: u != t ==> r.Slot(u) == Slot(u)
      ensures r.lastUpdateTime == lastUpdateTime
    {
      match t
      case Wind => this.(wind := dp)
      case Temperature => this.(temperature := dp)
      case Humidty => this.(humidity := dp)
      case Pressure => this.(pressure := dp)
      case CloudCover => this.(cloudCover := dp)
      case Precipitation => this.(precipitation := dp)
    }

    /** At least one slot is set, tested field by field as the query code does. */
    predicate HasData()
      ensures HasData() <==> exists t :: Slot(t) != null
    {
      if cloudCover != null then assert Slot(CloudCover) != null; true
      else if humidity != null then assert Slot(Humidty) != null; true
      else if pressure != null then assert Slot(Pressure) != null; true
      else if precipitation != null then assert Slot(Precipitation) != null; true
      else if temperature != null then assert Slot(Temperature) != null; true
      else if wind != null then assert Slot(Wind) != null; true
      else false
    }
  }

  /** A freshly constructed record: no slot set, timestamp at its default of 0. */
  const EMPTY_READING: Reading := Reading(null, null, null, null, null, null, 0)

  /** The mutable record object the service stores, one per registered airport. */
  class AtmosphericInformation {
    var wind: DataPoint?
    var temperature: DataPoint?
    var humidity: DataPoint?
    var pressure: DataPoint?
    var cloudCover: DataPoint?
    var precipitation: DataPoint?
    var lastUpdateTime: int

    constructor ()
      ensures Value() == EMPTY_READING
    {
      wind, temperature, humidity, pressure, cloudCover, precipitation := null, null, null, null, null, null;
      lastUpdateTime := 0;
    }

    /** The record's current contents. */
    function Value(): Reading
      reads this
    {
      Reading(wind, temperature, humidity, pressure, cloudCover, precipitation, lastUpdateTime)
    }

    predicate HasData()
      reads this
    {
      Value().HasData()
    }

    /** The setter of the slot of kind `t` (`setWind`, `setTemperature`, ...). */
    method SetSlot(t: DataPointType, dp: DataPoint?)
      modifies this
      ensures Value() == old(Value()).WithSlot(t, dp)
    {
      match t
      case Wind => wind := dp;
      case Temperature => temperature := dp;
      case Humidty => humidity := dp;
      case Pressure => pressure := dp;
      case CloudCover => cloudCover := dp;
      case Precipitation => precipitation := dp;
    }

    method SetLastUpdateTime(time: int)
      modifies this
      ensures Value() == old(Value()).(lastUpdateTime := time)
    {
      lastUpdateTime := time;
    }
  }
}
