/**
 * The per-metric limits an observation's mean is checked against. A metric
 * is accepted when `LOWER_LIMIT <= mean < UPPER_LIMIT`; wind has no upper
 * limit.
 */
module WeatherConstant {

  const WIND_LOWER_LIMIT: real := 0.0
  const TEMPERATURE_LOWER_LIMIT: real := -50.0
  const TEMPERATURE_UPPER_LIMIT: real := 100.0
  const HUMIDTY_LOWER_LIMIT: real := 0.0
  const HUMIDTY_UPPER_LIMIT: real := 100.0
  const PRESSURE_LOWER_LIMIT: real := 650.0
  const PRESSURE_UPPER_LIMIT: real := 800.0
  const CLOUDCOVER_LOWER_LIMIT: real := 0.0
  const CLOUDCOVER_UPPER_LIMIT: real := 100.0
  const PRECIPITATION_LOWER_LIMIT: real := 0.0
  const PRECIPITATION_UPPER_LIMIT: real := 100.0

  /** Every bounded metric has a lower limit strictly below its upper limit. */
  lemma BoundedRangesAreNonEmpty()
    ensures TEMPERATURE_LOWER_LIMIT < TEMPERATURE_UPPER_LIMIT
    ensures HUMIDTY_LOWER_LIMIT < HUMIDTY_UPPER_LIMIT
    ensures PRESSURE_LOWER_LIMIT < PRESSURE_UPPER_LIMIT
    ensures CLOUDCOVER_LOWER_LIMIT < CLOUDCOVER_UPPER_LIMIT
    ensures PRECIPITATION_LOWER_LIMIT < PRECIPITATION_UPPER_LIMIT
  {
  }
}
