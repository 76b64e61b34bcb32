# Airport Weather — a Dafny model

This project models the core of the Airport Weather service: a small REST service that keeps, for a set of airports, the latest accepted measurement of six kinds of weather. The kinds are wind, temperature, humidity, pressure, cloud cover and precipitation.

Everything lives in one in-memory store, which every endpoint shares. The store holds:

- the list of registered airports;
- a list of atmospheric records meant to run parallel to it by index;
- a request count per resolved airport;
- a request count per query radius.

Collectors register airports, list and look them up, and post measurements. A measurement is accepted only when its mean lies in the half-open range of its kind. Querying clients ask for the records of every airport within a radius, and for health statistics. The statistics are the number of recent records, each airport's share of the requests and a histogram of the query radii.

Modules, one per source file of the core:

- `JavaLang`: the Java semantics the code relies on: `null`, exceptions, 32-bit `int` wrap-around, the saturating `(int)` cast of a `double`, `%` that truncates toward zero, and ASCII `toUpperCase`.
- `WeatherConstant`: the per-kind limits.
- `DataPointModel`: the `DataPoint` class and its `Builder`.
- `WeatherModel`: the airport value, the measurement kinds and the mutable atmospheric record class. The source files of these entities are not part of this model. They are reconstructed from their uses.
- `AirportModel`: the `Airport` class filled from one line of the airport file, including `trimQuotes`.
- `WeatherService`: the shared `Store` class and the service operations over it.
- `AirportService`: the second service object's duplicate operations over the same store.
- `RestResponse`: the response statuses, as a small enum.
- `RestWeatherQueryEndpoint`: `weather` and `ping`.
- `RestWeatherCollectorEndpoint`: the collector operations.

Things outside the model are parameters:

- the clock (`now`);
- the haversine distance (`distance`);
- the number and JSON parsers (`parseDouble`, `parseFloat`, and a `Parsed` decode result);
- the iteration order of the radius map (`entries`, required to list every key exactly once).

### Where the code's comments and its behaviour disagree (the model follows the code)

- **Humidity's name.** The humidity kind's enum constant is `HUMIDTY`. The request string "humidity" is rejected (`WeatherModel.HumidityIsNotAKind`).
- **Deleting an airport** removes only the airport, not its record. Pairing by index is therefore lost after a deletion (`WeatherService.Store.DeleteAirport`). What every operation keeps is that the record list is never shorter than the airport list (`WeatherService.Store.Valid`).
- **Radius counts never go up.** `updateRequestFrequency` only stores them back, so every radius count is 0 and the histogram holds only zeros (`RestWeatherQueryEndpoint.ValidStoreHistogramIsZero`).
- **Request fractions.** Each airport's count is divided by the number of keys in the request map, not by the total number of requests. With no key the fraction is NaN.
- **Histogram buckets** use `(int) radius % 10`: truncation and Java's remainder, not floor and a modulus.
- **Non-negative radii.** A radius key of at least 2147483647 saturates the cast, and the `+ 1` wraps the histogram length negative (`RestWeatherQueryEndpoint.HugeRadiusGivesNegativeLength`). So "every bucket is in bounds for non-negative keys" holds only for keys below 2147483647 (`RestWeatherQueryEndpoint.HistogramFits`).
- **Coordinates.** `addAirport` stores the longitude argument as the latitude and never sets the longitude.
- **Unknown kinds.** An unknown measurement kind does not end as a WeatherException. The `catch` re-evaluates `DataPointType.valueOf`, so an IllegalArgumentException escapes. `updateWeather` answers that with 500, not 415.

## Model

| member | source | states |
|---|---|---|
| JavaLang.GetOrDefault | src/main/java/com/crossover/trial/weather/service/WeatherService.java:116-117 | the value at a present key, the default for an absent one |
| JavaLang.Wrap | src/main/java/com/crossover/trial/weather/service/WeatherService.java:116 | the `int` result of the `+ 1`: in `int` range, congruent to the exact value modulo 2^32, and equal to it when it fits |
| JavaLang.IntValue | src/main/java/com/crossover/trial/weather/RestWeatherQueryEndpoint.java:102-108 | the `(int)` cast of a `double`: in `int` range, rounded toward zero, saturating at the bounds |
| JavaLang.IntValueMonotonic | src/main/java/com/crossover/trial/weather/RestWeatherQueryEndpoint.java:102-108 | the cast preserves order, so the cast maximum bounds every cast key |
| JavaLang.Rem10 | src/main/java/com/crossover/trial/weather/RestWeatherQueryEndpoint.java:108 | Java `% 10`: congruent to `x`, in [0, 10) for non-negative `x` and in (-10, 0] for negative `x` |
| JavaLang.AsciiUpper | src/main/java/com/crossover/trial/weather/service/WeatherService.java:284 | `toUpperCase` keeps the length and upper-cases each character |
| JavaLang.AsciiUpperOfUpper | src/main/java/com/crossover/trial/weather/service/WeatherService.java:284 | a string with no lower-case letter is its own upper-case form, so every enum name survives `toUpperCase` |
| WeatherConstant.BoundedRangesAreNonEmpty | src/main/java/com/crossover/trial/weather/util/WeatherConstant.java:7-16 | each bounded kind's lower limit is strictly below its upper limit |
| WeatherModel.ParseDataPointType | src/main/java/com/crossover/trial/weather/service/WeatherService.java:284 | `valueOf(toUpperCase())` gives the kind whose name is the upper-cased string, and none when no name matches |
| WeatherModel.ParseName | src/main/java/com/crossover/trial/weather/service/WeatherService.java:284 | every kind parses back from its own name |
| WeatherModel.HumidityIsNotAKind | src/main/java/com/crossover/trial/weather/service/WeatherService.java:301 | "humidity" names no kind; "humidty" names the humidity kind |
| WeatherModel.Reading.WithSlot | src/main/java/com/crossover/trial/weather/service/WeatherService.java:289-325 | a slot setter changes its own slot and leaves the other five slots and the timestamp alone |
| WeatherModel.Reading.HasData | src/main/java/com/crossover/trial/weather/RestWeatherQueryEndpoint.java:151-152 | the six `!= null` tests hold exactly when some slot is set |
| WeatherModel.AtmosphericInformation.constructor | src/main/java/com/crossover/trial/weather/service/WeatherService.java:350 | a new record has no slot set and timestamp 0 |
| WeatherModel.AtmosphericInformation.SetSlot | src/main/java/com/crossover/trial/weather/service/WeatherService.java:289-325 | the record's contents change in that one slot only |
| WeatherModel.AtmosphericInformation.SetLastUpdateTime | src/main/java/com/crossover/trial/weather/service/WeatherService.java:290 | only the timestamp changes |
| AirportModel.DropTrailingQuote | src/main/java/com/crossover/trial/weather/model/Airport.java:168 | when `"$` matches, exactly the quote is taken out: the last character or the one just before a final line terminator, keeping the terminator; otherwise the string is unchanged |
| AirportModel.StripQuotes | src/main/java/com/crossover/trial/weather/model/Airport.java:168 | the length drops by one for a leading quote and by one for a trailing quote; a string with neither comes back unchanged |
| AirportModel.StripQuotesOfLeading | src/main/java/com/crossover/trial/weather/model/Airport.java:168 | a quote at the start alone is removed and the rest is kept |
| AirportModel.StripQuotesOfTrailing | src/main/java/com/crossover/trial/weather/model/Airport.java:168 | a quote at the end alone is removed and the rest is kept |
| AirportModel.StripQuotesBeforeTerminator | src/main/java/com/crossover/trial/weather/model/Airport.java:168 | a quote just before a final line terminator is removed and the terminator is kept |
| AirportModel.TrimQuotes | src/main/java/com/crossover/trial/weather/model/Airport.java:166-172 | `null` stays `null`; otherwise the quotes are stripped |
| AirportModel.StripQuotesOfQuoted | src/main/java/com/crossover/trial/weather/model/Airport.java:166-172 | quoting any string and trimming gives the string back |
| AirportModel.StripQuotesOfUnquoted | src/main/java/com/crossover/trial/weather/model/Airport.java:166-172 | a string with no quote at either end comes back unchanged |
| AirportModel.Airport.constructor | src/main/java/com/crossover/trial/weather/model/Airport.java:14-23 | every string field starts out `null` |
| AirportModel.Airport.SetAirportName | src/main/java/com/crossover/trial/weather/model/Airport.java:35-37 | stores the quote-trimmed name |
| AirportModel.Airport.SetCity | src/main/java/com/crossover/trial/weather/model/Airport.java:47-49 | stores the quote-trimmed city |
| AirportModel.Airport.SetCountry | src/main/java/com/crossover/trial/weather/model/Airport.java:59-61 | stores the quote-trimmed country |
| AirportModel.Airport.SetIata | src/main/java/com/crossover/trial/weather/model/Airport.java:72-82 | `null` or "" gives ""; otherwise the trimmed code is stored iff it has exactly 3 characters, and the old value is kept for any other length |
| AirportModel.Airport.SetIcao | src/main/java/com/crossover/trial/weather/model/Airport.java:94-103 | like `SetIata`, with exactly 4 characters |
| AirportModel.Airport.SetLatitude | src/main/java/com/crossover/trial/weather/model/Airport.java:113-115 | stores the raw string, quotes and all |
| AirportModel.Airport.SetLongitude | src/main/java/com/crossover/trial/weather/model/Airport.java:125-127 | stores the raw string, quotes and all |
| AirportModel.Airport.SetDst | src/main/java/com/crossover/trial/weather/model/Airport.java:161-164 | stores the quote-trimmed flag |
| DataPointModel.DataPoint.Blank | src/main/java/com/crossover/trial/weather/model/DataPoint.java:13-25 | the no-argument constructor leaves all five fields at 0 |
| DataPointModel.DataPoint.constructor | src/main/java/com/crossover/trial/weather/model/DataPoint.java:28-34 | each argument ends up in the field of the same name |
| DataPointModel.DataPoint.SetMean | src/main/java/com/crossover/trial/weather/model/DataPoint.java:37-41 | the getter then returns the value set, and nothing else changes |
| DataPointModel.DataPoint.SetFirst | src/main/java/com/crossover/trial/weather/model/DataPoint.java:44-50 | the getter then returns the value set, and nothing else changes |
| DataPointModel.DataPoint.SetSecond | src/main/java/com/crossover/trial/weather/model/DataPoint.java:53-59 | the getter then returns the value set, and nothing else changes |
| DataPointModel.DataPoint.SetThird | src/main/java/com/crossover/trial/weather/model/DataPoint.java:62-68 | the getter then returns the value set, and nothing else changes |
| DataPointModel.DataPoint.SetCount | src/main/java/com/crossover/trial/weather/model/DataPoint.java:71-77 | the getter then returns the value set, and nothing else changes |
| DataPointModel.Builder.constructor | src/main/java/com/crossover/trial/weather/model/DataPoint.java:88-96 | all five builder fields start at 0 |
| DataPointModel.Builder.WithFirst | src/main/java/com/crossover/trial/weather/model/DataPoint.java:98-101 | sets only `first` and returns the same builder |
| DataPointModel.Builder.WithMean | src/main/java/com/crossover/trial/weather/model/DataPoint.java:103-106 | sets only `mean` and returns the same builder |
| DataPointModel.Builder.WithMedian | src/main/java/com/crossover/trial/weather/model/DataPoint.java:108-111 | sets only `median` and returns the same builder |
| DataPointModel.Builder.WithCount | src/main/java/com/crossover/trial/weather/model/DataPoint.java:113-116 | sets only `count` and returns the same builder |
| DataPointModel.Builder.WithLast | src/main/java/com/crossover/trial/weather/model/DataPoint.java:118-121 | sets only `last` and returns the same builder |
| DataPointModel.Builder.Build | src/main/java/com/crossover/trial/weather/model/DataPoint.java:123-125 | the positional call scrambles fields: the point's mean is the builder's median, its second quartile the builder's mean, and its third quartile the builder's last |
| DataPointModel.BuildFromMeanOnly | src/main/java/com/crossover/trial/weather/model/DataPoint.java:103-125 | a builder given only a mean yields a point whose mean is 0 |
| WeatherService.FindAirportData | src/main/java/com/crossover/trial/weather/service/WeatherService.java:126-130 | `null` iff no airport has the code; otherwise the first airport in list order that has it |
| WeatherService.IndexOf | src/main/java/com/crossover/trial/weather/service/WeatherService.java:140 | `indexOf`: -1 for `null` or an absent element, otherwise the first position holding an equal element |
| WeatherService.GetAirportDataIdx | src/main/java/com/crossover/trial/weather/service/WeatherService.java:138-141 | -1 iff no airport has the code; otherwise the first position with the code, which holds the airport `findAirportData` returns |
| WeatherService.FindConcat | src/main/java/com/crossover/trial/weather/service/WeatherService.java:126-130 | first-match lookup in a concatenation tries the first part, then the second |
| WeatherService.FindAfterAppend | src/main/java/com/crossover/trial/weather/service/WeatherService.java:346-359 | after an append, a known code still finds its earlier airport, and only a new code finds the appended one |
| WeatherService.FindAfterRemoval | src/main/java/com/crossover/trial/weather/service/WeatherService.java:369-375 | after a deletion the code finds the next airport with it, if any |
| WeatherService.Accepts | src/main/java/com/crossover/trial/weather/service/WeatherService.java:288-323 | an accepted mean is at least -50; a negative mean is accepted only for temperature; every bounded kind accepts only means below 800 |
| WeatherService.AcceptedRanges | src/main/java/com/crossover/trial/weather/service/WeatherService.java:286-327 | every kind accepts some mean; wind accepts exactly the means from 0 up; each bounded kind rejects a positive mean; only temperature accepts a negative mean |
| WeatherService.Apply | src/main/java/com/crossover/trial/weather/service/WeatherService.java:286-327 | an in-range mean sets its slot and the timestamp `now`; an out-of-range one changes nothing; the other five slots never change |
| WeatherService.UpdateAtmosphericInformation | src/main/java/com/crossover/trial/weather/service/WeatherService.java:283-334 | an unknown kind throws IllegalArgumentException and a `null` point NullPointerException, both leaving the record as it was; otherwise the record gets `Apply` |
| WeatherService.Rethrown | src/main/java/com/crossover/trial/weather/service/WeatherService.java:266-273 | the rethrow is a WeatherException iff the kind parses, and an IllegalArgumentException otherwise |
| WeatherService.OneRecordChanged | src/main/java/com/crossover/trial/weather/service/WeatherService.java:263-264 | updating the one record at the airport's index changes the store's contents at that position only |
| WeatherService.Store.constructor | src/main/java/com/crossover/trial/weather/service/WeatherService.java:28-49 | all four collections start empty; the store is valid and its two lists have equal lengths |
| WeatherService.Store.UpdateRequestFrequency | src/main/java/com/crossover/trial/weather/service/WeatherService.java:114-118 | the resolved airport's count (absent keys count 0) rises by one in `int` arithmetic; the radius count is stored back, so a new radius gets 0 and an old one keeps its value |
| WeatherService.Store.AddAirport | src/main/java/com/crossover/trial/weather/service/WeatherService.java:346-359 | appends exactly one airport, whose latitude is the longitude argument and whose longitude is 0, and exactly one fresh empty record; earlier entries are unchanged; equal list lengths are kept (they hold until the first deletion) |
| WeatherService.Store.DeleteAirport | src/main/java/com/crossover/trial/weather/service/WeatherService.java:369-375 | false and no change for an unknown code; otherwise the first airport with the code is removed from the airport list only, so the two lists no longer have equal lengths |
| WeatherService.Store.AddDataPoint | src/main/java/com/crossover/trial/weather/service/WeatherService.java:258-274 | an empty record list is a no-op; an unknown code, unknown kind or `null` point is rethrown with nothing changed; otherwise only the airport's record changes, by `Apply` |
| WeatherService.Store.Init | src/main/java/com/crossover/trial/weather/service/WeatherService.java:163-177 | exactly the five fixed airports in order, each with a fresh empty record, and no request counts |
| WeatherService.ResolvedIndexHasRecord | src/main/java/com/crossover/trial/weather/service/WeatherService.java:138-141 | in a valid store, a code that resolves has a record at its index |
| WeatherService.PopulateAirportData | src/main/java/com/crossover/trial/weather/service/WeatherService.java:230-247 | a `null` or empty array changes nothing; fields 1 to 7 reach their setters as far as the array reaches, and each field past the end keeps its old value; the IATA code at field 4 becomes "" for an empty field, the trimmed code when it has 3 characters, and keeps its old value otherwise (the ICAO code at field 5 likewise, with 4 characters); a short line or a malformed number at field 8 or 9 throws; a normal end has set the DST flag from field 10 |
| AirportService.AddDataPoint | src/main/java/com/crossover/trial/weather/service/AirportService.java:39-52 | with no empty-list guard, an unknown code, unknown kind or `null` point is rethrown with no record changed; otherwise only the airport's record changes, by `Apply` |
| AirportService.UpdateAtmosphericInformation | src/main/java/com/crossover/trial/weather/service/AirportService.java:61-112 | the same outcomes as the service's update |
| AirportService.AddAirport | src/main/java/com/crossover/trial/weather/service/AirportService.java:124-137 | appends one airport (latitude overwritten with the longitude, longitude 0) and one fresh empty record |
| AirportService.DeleteAirport | src/main/java/com/crossover/trial/weather/service/AirportService.java:147-153 | false and no change for an unknown code; otherwise removes the first airport with the code and leaves the records alone |
| RestWeatherQueryEndpoint.IsBlank | src/main/java/com/crossover/trial/weather/RestWeatherQueryEndpoint.java:138 | `trim().isEmpty()` holds exactly when every character is a space or a control character |
| RestWeatherQueryEndpoint.RadiusOf | src/main/java/com/crossover/trial/weather/RestWeatherQueryEndpoint.java:138 | an absent or blank radius is 0; a string with a visible character is parsed by `Double.valueOf`, so only it can be malformed |
| RestWeatherQueryEndpoint.Selected | src/main/java/com/crossover/trial/weather/RestWeatherQueryEndpoint.java:147-156 | exactly the qualifying positions (within the radius, record with data), strictly increasing |
| RestWeatherQueryEndpoint.SelfIsSelected | src/main/java/com/crossover/trial/weather/RestWeatherQueryEndpoint.java:147-156 | when an airport's own distance is 0, a non-negative radius query includes its own record if that record holds data |
| RestWeatherQueryEndpoint.ScanRadius | src/main/java/com/crossover/trial/weather/RestWeatherQueryEndpoint.java:147-156 | the loop returns the records at exactly the selected positions, in index order |
| RestWeatherQueryEndpoint.Weather | src/main/java/com/crossover/trial/weather/RestWeatherQueryEndpoint.java:129-167 | an unknown code gives NOT_FOUND and counts nothing; a malformed radius escapes before counting; a null or blank radius is 0; otherwise the request is counted, radius 0 yields the airport's own record even when empty, another radius yields the scan, and an empty result is NOT_FOUND |
| RestWeatherQueryEndpoint.RecentCount | src/main/java/com/crossover/trial/weather/RestWeatherQueryEndpoint.java:77-92 | the count of recent records is at most the number of records |
| RestWeatherQueryEndpoint.RecentCountExtremes | src/main/java/com/crossover/trial/weather/RestWeatherQueryEndpoint.java:77-92 | the count is 0 iff no record is recent, and the number of records iff every record is |
| RestWeatherQueryEndpoint.EmptyRecordsAreNotRecent | src/main/java/com/crossover/trial/weather/RestWeatherQueryEndpoint.java:80-85 | records that were never written count as not recent |
| RestWeatherQueryEndpoint.CountRecent | src/main/java/com/crossover/trial/weather/RestWeatherQueryEndpoint.java:77-92 | the loop counts the records with some slot set and a timestamp within the last 86400000 ms |
| RestWeatherQueryEndpoint.FracOf | src/main/java/com/crossover/trial/weather/RestWeatherQueryEndpoint.java:97 | NaN exactly when the request map is empty; an airport never counted gets 0; otherwise its count over the number of map keys |
| RestWeatherQueryEndpoint.IataFreq | src/main/java/com/crossover/trial/weather/RestWeatherQueryEndpoint.java:94-100 | at most one entry per airport, and at least one when there is an airport |
| RestWeatherQueryEndpoint.IataFreqKeys | src/main/java/com/crossover/trial/weather/RestWeatherQueryEndpoint.java:94-100 | a code has a fraction iff some airport has that code |
| RestWeatherQueryEndpoint.IataFreqOfLast | src/main/java/com/crossover/trial/weather/RestWeatherQueryEndpoint.java:94-100 | a code registered several times reports its last airport's count over the number of map keys |
| RestWeatherQueryEndpoint.ComputeIataFreq | src/main/java/com/crossover/trial/weather/RestWeatherQueryEndpoint.java:94-100 | the loop builds the per-code fraction map |
| RestWeatherQueryEndpoint.SeqMax | src/main/java/com/crossover/trial/weather/RestWeatherQueryEndpoint.java:102-103 | the maximum is one of the radii and no radius is larger |
| RestWeatherQueryEndpoint.MaxRadiusIsLargestKey | src/main/java/com/crossover/trial/weather/RestWeatherQueryEndpoint.java:102-104 | the stream maximum is the largest key of the radius map, or 1000 exactly when the map is empty |
| RestWeatherQueryEndpoint.MaxRadiusIsOrderFree | src/main/java/com/crossover/trial/weather/RestWeatherQueryEndpoint.java:102-104 | any two iteration orders of the map give the same maximum |
| RestWeatherQueryEndpoint.ComputeMaxRadius | src/main/java/com/crossover/trial/weather/RestWeatherQueryEndpoint.java:102-104 | the loop computes the stream maximum, 1000 for no radius |
| RestWeatherQueryEndpoint.HistogramLength | src/main/java/com/crossover/trial/weather/RestWeatherQueryEndpoint.java:102-104 | for a maximum radius in [0, 2147483647) the length is at least 1 and one more than the maximum rounded down, so the maximum has a slot |
| RestWeatherQueryEndpoint.Bucket | src/main/java/com/crossover/trial/weather/RestWeatherQueryEndpoint.java:108 | a bucket lies in (-10, 10): non-negative for a non-negative radius, at most 0 for a negative one, and the radius rounded down for a radius in [0, 10) |
| RestWeatherQueryEndpoint.WrapAdd | src/main/java/com/crossover/trial/weather/RestWeatherQueryEndpoint.java:109 | adding into a wrapped `int` slot gives the wrap of the exact sum, so each slot is the wrapped total of its bucket |
| RestWeatherQueryEndpoint.ZeroCountsGiveZeroTotals | src/main/java/com/crossover/trial/weather/RestWeatherQueryEndpoint.java:107-110 | when every count is 0, every bucket total is 0 |
| RestWeatherQueryEndpoint.HistogramFits | src/main/java/com/crossover/trial/weather/RestWeatherQueryEndpoint.java:102-110 | when every radius lies in [0, 2147483647), every bucket index is inside the histogram |
| RestWeatherQueryEndpoint.EmptyHistogramLength | src/main/java/com/crossover/trial/weather/RestWeatherQueryEndpoint.java:102-106 | with no radius key the histogram has 1001 slots |
| RestWeatherQueryEndpoint.HugeRadiusGivesNegativeLength | src/main/java/com/crossover/trial/weather/RestWeatherQueryEndpoint.java:102-106 | a maximum radius of 2147483647 or more gives the length -2147483648 |
| RestWeatherQueryEndpoint.MinusOneRadiusHasNoSlot | src/main/java/com/crossover/trial/weather/RestWeatherQueryEndpoint.java:102-109 | the radius -1 alone gives length 0 and bucket -1 |
| RestWeatherQueryEndpoint.FillHistogram | src/main/java/com/crossover/trial/weather/RestWeatherQueryEndpoint.java:106-110 | throws ArrayIndexOutOfBoundsException iff some radius's bucket is outside the histogram; otherwise each slot is the `int` total of its bucket's counts |
| RestWeatherQueryEndpoint.Ping | src/main/java/com/crossover/trial/weather/RestWeatherQueryEndpoint.java:73-114 | a negative length throws NegativeArraySizeException; a bucket out of range throws ArrayIndexOutOfBoundsException whatever the iteration order; otherwise the recent count, the per-code fractions and the histogram of the given length |
| RestWeatherQueryEndpoint.ValidStoreHistogramIsZero | src/main/java/com/crossover/trial/weather/RestWeatherQueryEndpoint.java:107-110 | in a valid store every histogram slot is 0, because radius counts are never incremented |
| RestWeatherCollectorEndpoint.Ping | src/main/java/com/crossover/trial/weather/RestWeatherCollectorEndpoint.java:47-51 | always OK with "ready" |
| RestWeatherCollectorEndpoint.CodesOf | src/main/java/com/crossover/trial/weather/RestWeatherCollectorEndpoint.java:78-80 | the collected set has at most one code per airport |
| RestWeatherCollectorEndpoint.CodesOfMembers | src/main/java/com/crossover/trial/weather/RestWeatherCollectorEndpoint.java:78-80 | a code is in the collected set iff some airport has it |
| RestWeatherCollectorEndpoint.CodesOfCoversAll | src/main/java/com/crossover/trial/weather/RestWeatherCollectorEndpoint.java:78-81 | every airport's code is collected, so a non-empty list gives a non-empty set and the OK branch |
| RestWeatherCollectorEndpoint.GetAirports | src/main/java/com/crossover/trial/weather/RestWeatherCollectorEndpoint.java:72-89 | OK with the set of every airport's code when there is an airport, NOT_FOUND when there is none |
| RestWeatherCollectorEndpoint.GetAirport | src/main/java/com/crossover/trial/weather/RestWeatherCollectorEndpoint.java:92-104 | OK iff some airport has the code, with the first airport that has it; NOT_FOUND with no entity otherwise |
| RestWeatherCollectorEndpoint.DeleteAirport | src/main/java/com/crossover/trial/weather/RestWeatherCollectorEndpoint.java:122-125 | always NOT_IMPLEMENTED; it touches no store |
| RestWeatherCollectorEndpoint.AddAirport | src/main/java/com/crossover/trial/weather/RestWeatherCollectorEndpoint.java:230-243 | appends one airport (latitude overwritten with the longitude, longitude 0) and one fresh empty record |
| RestWeatherCollectorEndpoint.AddAirportFromStrings | src/main/java/com/crossover/trial/weather/RestWeatherCollectorEndpoint.java:107-119 | a malformed coordinate gives NOT_ACCEPTABLE with the store unchanged; otherwise CREATED after appending one airport and one fresh empty record |
| RestWeatherCollectorEndpoint.UpdateAtmosphericInformation | src/main/java/com/crossover/trial/weather/RestWeatherCollectorEndpoint.java:167-218 | the same outcomes as the service's update |
| RestWeatherCollectorEndpoint.AddDataPoint | src/main/java/com/crossover/trial/weather/RestWeatherCollectorEndpoint.java:145-158 | with no empty-list guard, an unknown code, unknown kind or `null` point is rethrown with no record changed; otherwise only the airport's record changes |
| RestWeatherCollectorEndpoint.StatusOf | src/main/java/com/crossover/trial/weather/RestWeatherCollectorEndpoint.java:57-67 | normal end iff OK, a WeatherException iff 415, any other exception iff 500 |
| RestWeatherCollectorEndpoint.UpdateWeather | src/main/java/com/crossover/trial/weather/RestWeatherCollectorEndpoint.java:53-69 | an undecodable body gives 500 with nothing changed; a failed update gives 415 when the kind parses and 500 when it does not; success gives OK with only the airport's record updated |

## Left out

- The haversine distance is a function parameter, because its floating-point trigonometry is out of reach. The model does not assume it is non-negative; as a result a negative radius is just another radius.
- The clock is a parameter (`now`). Logging is dropped.
- The following are not modelled: loading airports from a file or stream (`initFromFile`, `upload`), the HTTP loader client, and the collector's `exit`, which ends the process.
- Parsing is left unmodelled. `Double.valueOf`, `Float.valueOf` and the JSON decode are parse parameters that may fail. JSON encoding and JAX-RS response building are left out as well. Statuses are an enum.
- The singleton and static wiring is replaced by one explicit `Store`. Concurrency is not modelled.
- The plain getters and setters of the service singleton are not modelled, nor are the WeatherException messages or `DataPoint.equals` and `toString`.
- The source files of the airport value, the atmospheric record and the measurement-kind enum are not part of this model. `WeatherModel` reconstructs these entities from their uses. Airport equality is taken to be structural, and each airport value is treated as immutable once it is stored.
- Doubles are modelled as reals. The infinities, -0.0 and rounding are not modelled, and neither is NaN, except as the request fraction `0.0 / 0` of an empty request map (`Fraction.NaN`).
- An OutOfMemoryError from a very large histogram is not modelled.
- `toUpperCase` covers ASCII letters only. String lengths count characters, not UTF-16 units.
- `null` code and kind arguments are not modelled. `null` is modelled only for the radius, points, airports, array lines and `Airport` fields.
- PopulateAirportData: the altitude and timezone are only parsed, for their failure; their values are not stored.
- RestWeatherQueryEndpoint.Ping: the iteration order of the radius map is a parameter. Independence from it is proved for the histogram's length and for whether a bucket falls outside it (`MaxRadiusIsOrderFree`), but not for the `int`-wrapped slot sums.
- RestWeatherQueryEndpoint.IataFreqOfLast: when codes repeat, which airport's fraction the code reports follows the list order. The model does not prove that another order gives the same map.
