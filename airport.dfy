/**
 * One line of the airport data file, as parsed into string fields. Quoted
 * fields lose their surrounding quotes; the two codes are accepted only at
 * their exact lengths.
 */
module AirportModel {
  import opened JavaLang

  /**
   * One of the line terminators at which Java's `$` also matches when they
   * end the input.
   */
  predicate IsFinalTerminator(t: string)
  {
    t == "\n" || t == "\r" || t == "\r\n" || t == "\U{0085}" || t == "\U{2028}" || t == "\U{2029}"
  }

  /**
   * Whether `s` ends with a quote that the pattern `"$` matches: the last
   * character, or the one just before a final line terminator.
   */
  predicate EndsWithQuote(s: string)
  {
    (|s| >= 1 && s[|s| - 1] == '"')
    || (|s| >= 2 && s[|s| - 2] == '"' && IsFinalTerminator(s[|s| - 1..]))
    || (|s| >= 3 && s[|s| - 3] == '"' && s[|s| - 2..] == "\r\n")
  }

  /** The string with the quote `EndsWithQuote` found taken out, any terminator kept. */
  function DropTrailingQuote(s: string): (r: string)
    ensures EndsWithQuote(s) ==> |r| == |s| - 1
    ensures EndsWithQuote(s) ==>
              exists k :: |s| - 3 <= k < |s| && 0 <= k && s[k] == '"' && r == s[..k] + s[k + 1..]
                          && (k == |s| - 1 || IsFinalTerminator(s[k + 1..]))
    ensures !EndsWithQuote(s) ==> r == s
  {
    if |s| >= 1 && s[|s| - 1] == '"' then s[..|s| - 1]
    else if |s| >= 2 && s[|s| - 2] == '"' && IsFinalTerminator(s[|s| - 1..]) then s[..|s| - 2] + s[|s| - 1..]
    else if |s| >= 3 && s[|s| - 3] == '"' && s[|s| - 2..] == "\r\n" then s[..|s| - 3] + "\r\n"
    else s
  }

  /**
   * `string.replaceAll("^\"|\"$", "")`: removes a quote at the very start
   * and a quote at the end (or just before a final line terminator), each at
   * most once, and nothing else.
   */
  function StripQuotes(s: string): (r: string)
    ensures var lead := |s| > 0 && s[0] == '"';
            var rest := if lead then s[1..] else s;
            |r| == |s| - (if lead then 1 else 0) - (if EndsWithQuote(rest) then 1 else 0)
    ensures (|s| > 0 && s[0] == '"') || EndsWithQuote(s) || r == s
  {
    var rest := if |s| > 0 && s[0] == '"' then s[1..] else s;
    DropTrailingQuote(rest)
  }

  /** `trimQuotes`: `null` stays `null`. */
  function TrimQuotes(s: Option<string>): (r: Option<string>)
    ensures s.None? <==> r.None?
    ensures s.Some? ==> r == Some(StripQuotes(s.value))
  {
    match s
    case None => None
    case Some(v) => Some(StripQuotes(v))
  }

  /** Quoting a string and trimming the quotes gives the string back. */
  lemma StripQuotesOfQuoted(x: string)
    ensures StripQuotes("\"" + x + "\"") == x
  {
    var s := "\"" + x + "\"";
    assert s[1..] == x + "\"";
  }

  /** A string with no quote at either end is left exactly as it is. */
  lemma StripQuotesOfUnquoted(s: string)
    requires |s| == 0 || s[0] != '"'
    requires !EndsWithQuote(s)
    ensures StripQuotes(s) == s
  {
  }

  /** A leading quote alone is removed, and the rest is kept. */
  lemma StripQuotesOfLeading(x: string)
    requires !EndsWithQuote(x)
    ensures StripQuotes("\"" + x) == x
  {
    assert ("\"" + x)[1..] == x;
  }

  /** A trailing quote alone is removed, and the rest is kept. */
  lemma StripQuotesOfTrailing(x: string)
    requires |x| == 0 || x[0] != '"'
    ensures StripQuotes(x + "\"") == x
  {
    var s := x + "\"";
    if |x| == 0 {
      assert s == "\"";
    } else {
      assert s[0] == x[0];
      assert s[..|s| - 1] == x;
    }
  }

  /**
   * A quote just before a final line terminator is removed, and the
   * terminator is kept.
   */
  lemma StripQuotesBeforeTerminator(x: string, t: string)
    requires |x| == 0 || x[0] != '"'
    requires IsFinalTerminator(t)
    ensures StripQuotes(x + "\"" + t) == x + t
  {
    var s := x + "\"" + t;
    if |x| == 0 {
      assert s == "\"" + t;
      assert s[1..] == t;
    } else {
      assert s[0] == x[0];
      assert s[..|x|] == x;
      assert s[|x| + 1..] == t;
      assert s[|x|] == '"';
    }
  }

  class Airport {
    var airportName: Option<string>
    var city: Option<string>
    var country: Option<string>
    var iata: Option<string>
    var icao: Option<string>
    var latitude: Option<string>
    var longitude: Option<string>
    var dst: Option<string>

    /** Every string field starts out `null`. */
    constructor ()
      ensures airportName.None? && city.None? && country.None? && iata.None?
      ensures icao.None? && latitude.None? && longitude.None? && dst.None?
    {
      airportName, city, country, iata, icao, latitude, longitude, dst := None, None, None, None, None, None, None, None;
    }

    method SetAirportName(airportName: Option<string>)
      modifies this`airportName
      ensures this.airportName == TrimQuotes(airportName)
    {
      this.airportName := TrimQuotes(airportName);
    }

    method SetCity(city: Option<string>)
      modifies this`city
      ensures this.city == TrimQuotes(city)
    {
      this.city := TrimQuotes(city);
    }

    method SetCountry(country: Option<string>)
      modifies this`country
      ensures this.country == TrimQuotes(country)
    {
      this.country := TrimQuotes(country);
    }

    /**
     * `null` or empty clears the code to "". Otherwise the quotes are
     * trimmed and the result is stored only if it is exactly 3 characters
     * long; any other length keeps the previous value.
     */
    method SetIata(iata: Option<string>)
      modifies this`iata
      ensures iata.None? || iata == Some("") ==> this.iata == Some("")
      ensures iata.Some? && iata.value != "" && |StripQuotes(iata.value)| == 3 ==>
                this.iata == Some(StripQuotes(iata.value))
      ensures iata.Some? && iata.value != "" && |StripQuotes(iata.value)| != 3 ==>
                this.iata == old(this.iata)
    {
      if iata.None? || |iata.value| == 0 {
        this.iata := Some("");
      } else {
        var trimmed := TrimQuotes(iata).value;
        if |trimmed| == 3 {
          this.iata := Some(trimmed);
        }
      }
    }

    /** As `SetIata`, with the ICAO code's length of exactly 4. */
    method SetIcao(icao: Option<string>)
      modifies this`icao
      ensures icao.None? || icao == Some("") ==> this.icao == Some("")
      ensures icao.Some? && icao.value != "" && |StripQuotes(icao.value)| == 4 ==>
                this.icao == Some(StripQuotes(icao.value))
      ensures icao.Some? && icao.value != "" && |StripQuotes(icao.value)| != 4 ==>
                this.icao == old(this.icao)
    {
      if icao.None? || |icao.value| == 0 {
        this.icao := Some("");
      } else {
        var trimmed := TrimQuotes(icao).value;
        if |trimmed| == 4 {
          this.icao := Some(trimmed);
        }
      }
    }

    /** The coordinates are stored as given, quotes and all. */
    method SetLatitude(latitude: Option<string>)
      modifies this`latitude
      ensures this.latitude == latitude
    {
      this.latitude := latitude;
    }

    method SetLongitude(longitude: Option<string>)
      modifies this`longitude
      ensures this.longitude == longitude
    {
      this.longitude := longitude;
    }

    method SetDst(dst: Option<string>)
      modifies this`dst
      ensures this.dst == TrimQuotes(dst)
    {
      var trimmed := TrimQuotes(dst);
      this.dst := trimmed;
    }
  }
}
