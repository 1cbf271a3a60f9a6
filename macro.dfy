/** The macro data fetcher (macro_data_fetcher.py): range validation of each
    indicator, the choice of source per currency, the selection of one row out
    of a FRED, Bank of England, Swiss National Bank or Bank of Japan response,
    and the shape of the combined result of `get_all_data`. The HTTP layer is
    replaced by the responses it would return. */
module MacroFetcher {
  import opened Common
  import opened Text

  // ---------------------------------------------------------------------------
  // Tables
  // ---------------------------------------------------------------------------

  const Currencies: seq<string> := ["USD", "EUR", "GBP", "JPY", "CHF", "AUD", "CAD"]

  /** The indicators in the order `get_all_data` fetches them. */
  const IndicatorKeys: seq<string> :=
    ["interest_rate", "inflation", "gdp_growth", "unemployment", "business_confidence"]

  /** `currency_names.get(currency, currency)` */
  function CountryName(currency: string): string
  {
    match currency
    case "USD" => "Stati Uniti"
    case "EUR" => "Eurozona"
    case "GBP" => "Regno Unito"
    case "JPY" => "Giappone"
    case "CHF" => "Svizzera"
    case "AUD" => "Australia"
    case "CAD" => "Canada"
    case _ => currency
  }

  /** `indicator_names[key]` */
  function IndicatorName(key: string): string
    requires key in IndicatorKeys
  {
    match key
    case "interest_rate" => "Tasso Interesse"
    case "inflation" => "Inflazione YoY"
    case "gdp_growth" => "PIL Crescita"
    case "unemployment" => "Disoccupazione"
    case _ => "Business Confidence"
  }

  /** The position of a currency in the FRED code tables. */
  function CurrencyIndex(currency: string): (i: Option<nat>)
    ensures i.Some? <==> currency in Currencies
    ensures i.Some? ==> i.value < |Currencies| && Currencies[i.value] == currency
  {
    match currency
    case "USD" => Some(0)
    case "EUR" => Some(1)
    case "GBP" => Some(2)
    case "JPY" => Some(3)
    case "CHF" => Some(4)
    case "AUD" => Some(5)
    case "CAD" => Some(6)
    case _ => None
  }

  /** `fred_codes[key].get(currency)`: every indicator has a series for each
      of the seven currencies and for no other. */
  function FredCode(key: string, currency: string): (code: Option<string>)
    requires key in IndicatorKeys
    ensures code.Some? <==> currency in Currencies
  {
    match CurrencyIndex(currency)
    case None => None
    case Some(i) =>
      var codes := match key
        case "interest_rate" =>
          ["DFEDTARU", "ECBDFR", "BOERUKM", "IRSTCI01JPM156N", "IRSTCI01CHM156N",
           "IRSTCI01AUM156N", "IRSTCI01CAM156N"]
        case "inflation" =>
          ["CPALTT01USM657N", "EA19CPALTT01GYM", "CPALTT01GBM657N", "CPALTT01JPM657N",
           "CPALTT01CHM657N", "CPALTT01AUQ657N", "CPALTT01CAM657N"]
        case "gdp_growth" =>
          ["A191RL1Q225SBEA", "NAEXKP01EZQ657S", "NAEXKP01GBQ657S", "NAEXKP01JPQ657S",
           "NAEXKP01CHQ657S", "NAEXKP01AUQ657S", "NAEXKP01CAQ657S"]
        case "unemployment" =>
          ["UNRATE", "LRHUTTTTEZM156S", "LRHUTTTTGBM156S", "LRHUTTTTJPM156S",
           "LRHUTTTTCHM156S", "LRHUTTTTAUM156S", "LRHUTTTTCAM156S"]
        case _ =>
          ["BSCICP03USM665S", "BSCICP03EZM665S", "BSCICP03GBM665S", "BSCICP03JPM665S",
           "BSCICP03CHM665S", "BSCICP03AUM665S", "BSCICP03CAM665S"];
      Some(codes[i])
  }

  // ---------------------------------------------------------------------------
  // Validators
  // ---------------------------------------------------------------------------

  /** The closed range each indicator must fall in: rate [-2, 25], inflation
      [-10, 50], GDP growth [-20, 25], unemployment [0, 35], business
      confidence [70, 130]. */
  function Range(key: string): (bounds: (real, real))
    requires key in IndicatorKeys
    ensures bounds.0 < bounds.1
  {
    match key
    case "interest_rate" => (-2.0, 25.0)
    case "inflation" => (-10.0, 50.0)
    case "gdp_growth" => (-20.0, 25.0)
    case "unemployment" => (0.0, 35.0)
    case _ => (70.0, 130.0)
  }

  /** `_validate_rate`, `_validate_inflation`, `_validate_gdp`,
      `_validate_unemployment`, `_validate_bci`: `value is not None and
      lo <= value <= hi`. */
  predicate Validate(key: string, value: Option<Num>)
    requires key in IndicatorKeys
  {
    value.Some? && InClosed(value.value, Range(key).0, Range(key).1)
  }

  /** Each validator accepts exactly its closed range: both bounds are
      accepted, anything just outside is not, and None, infinities and NaN
      never are. */
  lemma ValidatorBounds(key: string, eps: real)
    requires key in IndicatorKeys && eps > 0.0
    ensures Validate(key, Some(Finite(Range(key).0))) && Validate(key, Some(Finite(Range(key).1)))
    ensures !Validate(key, Some(Finite(Range(key).0 - eps)))
    ensures !Validate(key, Some(Finite(Range(key).1 + eps)))
    ensures !Validate(key, None) && !Validate(key, Some(NonFinite))
  {
  }

  // ---------------------------------------------------------------------------
  // Results and responses
  // ---------------------------------------------------------------------------

  /** The `{'value', 'date', 'source'}` dict a fetch returns. */
  datatype Observation = Observation(value: Num, date: string, source: string)

  /** One FRED observation: `value` is None for a JSON null (a missing value
      reads as "."), `date` is "" when missing. */
  datatype FredObs = FredObs(value: Option<string>, date: string)

  /** What the network would answer, per source: the FRED observations of a
      series (None when the request fails or has no `observations`), the BoE
      and SNB response bodies (None unless the status is 200), the (date, rate)
      matches extracted from the BoJ page, and the already parsed Bank of
      Canada, RBA and ECB results, whose parsing is not part of this model. */
  datatype Sources = Sources(
    fred: string -> Option<seq<FredObs>>,
    boeText: Option<string>,
    snbText: Option<string>,
    bojMatches: Option<seq<(string, real)>>,
    boc: Option<Observation>,
    rba: Option<Observation>,
    ecb: Option<Observation>)

  // ---------------------------------------------------------------------------
  // _fetch_fred
  // ---------------------------------------------------------------------------

  /** An observation `_fetch_fred` stops at: a value that is neither null nor ".". */
  predicate Usable(o: FredObs)
  {
    o.value.Some? && o.value.value != "."
  }

  /** The first usable observation at `from` or later. */
  function FirstUsable(obs: seq<FredObs>, from: nat): (i: Option<nat>)
    requires from <= |obs|
    ensures i.Some? ==> from <= i.value < |obs| && Usable(obs[i.value])
    ensures forall j :: from <= j < |obs| && (i.None? || j < i.value) ==> !Usable(obs[j])
    decreases |obs| - from
  {
    if from == |obs| then None
    else if Usable(obs[from]) then Some(from)
    else FirstUsable(obs, from + 1)
  }

  /** `_fetch_fred(series)`: the first usable observation, in the order
      returned (newest first); None when there is none, and also when that
      value is not a number (`float` raises and the fetch gives up). */
  function FredResult(response: Option<seq<FredObs>>): (r: Option<Observation>)
    ensures r.Some? ==> response.Some? && r.value.source == "FRED"
    ensures r.Some? ==> FirstUsable(response.value, 0).Some?
  {
    if response.None? then None
    else
      var obs := response.value;
      match FirstUsable(obs, 0)
      case None => None
      case Some(i) =>
        match ParseFloat(obs[i].value.value)
        case Some(v) => Some(Observation(v, obs[i].date, "FRED"))
        case None => None
  }

  /** The loop over the observations, returning at the first usable one. */
  method FetchFred(response: Option<seq<FredObs>>) returns (r: Option<Observation>)
    ensures r == FredResult(response)
  {
    if response.None? {
      return None;
    }
    var obs := response.value;
    for i := 0 to |obs|
      invariant FirstUsable(obs, 0) == FirstUsable(obs, i)
    {
      if Usable(obs[i]) {
        var v := ParseFloat(obs[i].value.value);
        if v.None? {
          return None;
        }
        return Some(Observation(v.value, obs[i].date, "FRED"));
      }
    }
    return None;
  }

  /** Unusable observations before the first usable one are skipped. */
  lemma FredSkipsMissing(missing: seq<FredObs>, o: FredObs, rest: seq<FredObs>)
    requires forall j :: 0 <= j < |missing| ==> !Usable(missing[j])
    requires Usable(o)
    ensures FredResult(Some(missing + [o] + rest)) ==
      match ParseFloat(o.value.value)
      case Some(v) => Some(Observation(v, o.date, "FRED"))
      case None => None
  {
    var obs := missing + [o] + rest;
    var i := FirstUsable(obs, 0);
    assert obs[|missing|] == o;
    assert forall j :: 0 <= j < |missing| ==> obs[j] == missing[j];
    assert i == Some(|missing|);
  }

  // ---------------------------------------------------------------------------
  // Scanning a CSV body from its last line (Bank of England, SNB)
  // ---------------------------------------------------------------------------

  /** The result of the last line that gives one: the lines are scanned from
      the end and the first hit is returned. */
  function LastHit(lines: seq<string>, hit: string -> Option<Observation>): (r: Option<Observation>)
    ensures r.None? ==> forall j :: 0 <= j < |lines| ==> hit(lines[j]).None?
    ensures r.Some? ==> exists i :: (0 <= i < |lines| && hit(lines[i]) == r
      && forall j :: i < j < |lines| ==> hit(lines[j]).None?)
  {
    if |lines| == 0 then None
    else
      var n := |lines| - 1;
      if hit(lines[n]).Some? then hit(lines[n])
      else
        var r := LastHit(lines[..n], hit);
        assert forall j :: 0 <= j < n ==> lines[..n][j] == lines[j];
        r
  }

  /** Dropping lines after position `i` when none of them gives a hit. */
  lemma LastHitStep(lines: seq<string>, hit: string -> Option<Observation>, i: nat)
    requires 0 < i <= |lines|
    ensures LastHit(lines[..i], hit) ==
      if hit(lines[i - 1]).Some? then hit(lines[i - 1]) else LastHit(lines[..i - 1], hit)
  {
    assert lines[..i][..i - 1] == lines[..i - 1];
  }

  predicate IsQuote(c: char)
  {
    c == '"'
  }

  /** `field.strip().strip('"')` */
  function Unquoted(field: string): (r: string)
    ensures |r| <= |field|
  {
    StripBy(Strip(field), IsQuote)
  }

  /** A Bank of England line: skipped when blank or starting with "DATE";
      otherwise a hit when it has two comma fields and the second one, stripped
      of blanks and quotes, is a non-empty number. */
  function BoeLine(line: string): (r: Option<Observation>)
    ensures StartsWith(line, "DATE") || Strip(line) == "" ==> r.None?
    ensures r.Some? ==> r.value.source == "Bank of England"
    ensures r.Some? <==>
      && Strip(line) != "" && !StartsWith(line, "DATE")
      && |Split(line, ',')| >= 2
      && Unquoted(Split(line, ',')[1]) != ""
      && ParseFloat(Unquoted(Split(line, ',')[1])).Some?
    ensures r.Some? ==>
      r.value == Observation(ParseFloat(Unquoted(Split(line, ',')[1])).value,
                             Unquoted(Split(line, ',')[0]), "Bank of England")
  {
    if Strip(line) == "" || StartsWith(line, "DATE") then None
    else
      var parts := Split(line, ',');
      if |parts| < 2 then None
      else
        var date := Unquoted(parts[0]);
        var value := Unquoted(parts[1]);
        if value == "" then None
        else
          match ParseFloat(value)
          case Some(v) => Some(Observation(v, date, "Bank of England"))
          case None => None
  }

  /** The lines of a body: `text.strip().split('\n')`. */
  function Lines(text: string): (lines: seq<string>)
    ensures |lines| >= 1
  {
    Split(Strip(text), '\n')
  }

  /** `_fetch_boe_rate` given the response body. */
  function BoeRate(body: Option<string>): Option<Observation>
  {
    if body.None? then None else LastHit(Lines(body.value), BoeLine)
  }

  /** `for line in reversed(lines)`, returning the first hit. */
  method ScanBack(lines: seq<string>, hit: string -> Option<Observation>) returns (r: Option<Observation>)
    ensures r == LastHit(lines, hit)
  {
    var i := |lines|;
    assert lines[..i] == lines;
    while i > 0
      invariant 0 <= i <= |lines|
      invariant LastHit(lines, hit) == LastHit(lines[..i], hit)
    {
      LastHitStep(lines, hit, i);
      var h := hit(lines[i - 1]);
      if h.Some? {
        return h;
      }
      i := i - 1;
    }
    return None;
  }

  /** The reversed loop over the Bank of England lines. */
  method ParseBoe(body: Option<string>) returns (r: Option<Observation>)
    ensures r == BoeRate(body)
  {
    if body.None? {
      return None;
    }
    r := ScanBack(Lines(body.value), BoeLine);
  }

  /** An SNB line: its last `;` field, stripped and with the decimal comma
      made a point, when there are two fields and it is neither empty nor "-"
      and is a number; the date is the first field. */
  function SnbLine(line: string): (r: Option<Observation>)
    ensures r.Some? ==> r.value.source == "SNB"
    ensures var parts := Split(line, ';');
      var value := ReplaceChar(Strip(parts[|parts| - 1]), ',', '.');
      && (r.Some? <==> |parts| >= 2 && value != "" && value != "-" && ParseFloat(value).Some?)
      && (r.Some? ==> r.value == Observation(ParseFloat(value).value, Strip(parts[0]), "SNB"))
  {
    var parts := Split(line, ';');
    if |parts| < 2 then None
    else
      var value := ReplaceChar(Strip(parts[|parts| - 1]), ',', '.');
      if value == "" || value == "-" then None
      else
        match ParseFloat(value)
        case Some(v) => Some(Observation(v, Strip(parts[0]), "SNB"))
        case None => None
  }

  /** `_fetch_snb_rate` given the response body: the header line is never read. */
  function SnbRate(body: Option<string>): Option<Observation>
  {
    if body.None? then None else LastHit(Lines(body.value)[1..], SnbLine)
  }

  /** The reversed loop over the SNB lines after the header. */
  method ParseSnb(body: Option<string>) returns (r: Option<Observation>)
    ensures r == SnbRate(body)
  {
    if body.None? {
      return None;
    }
    r := ScanBack(Lines(body.value)[1..], SnbLine);
  }

  // ---------------------------------------------------------------------------
  // Bank of Japan: the sanity filter over the extracted matches
  // ---------------------------------------------------------------------------

  /** A rate the BoJ reader accepts. */
  predicate Sensible(rate: real)
  {
    0.0 <= rate < 5.0
  }

  /** The last (date, rate) match with a sensible rate. */
  function LastSensible(matches: seq<(string, real)>): (i: Option<nat>)
    ensures i.Some? ==> i.value < |matches| && Sensible(matches[i.value].1)
    ensures forall j :: 0 <= j < |matches| && (i.None? || j > i.value) ==> !Sensible(matches[j].1)
  {
    if |matches| == 0 then None
    else if Sensible(matches[|matches| - 1].1) then Some(|matches| - 1)
    else
      var i := LastSensible(matches[..|matches| - 1]);
      assert forall j :: 0 <= j < |matches| - 1 ==> matches[..|matches| - 1][j] == matches[j];
      i
  }

  /** `_fetch_boj_rate` given the extracted matches. */
  function BojRate(matches: Option<seq<(string, real)>>): (r: Option<Observation>)
    ensures r.Some? ==> r.value.value.Finite? && Sensible(r.value.value.r)
    ensures r.Some? <==> matches.Some? && LastSensible(matches.value).Some?
    ensures r.Some? ==>
      var m := matches.value[LastSensible(matches.value).value];
      r.value == Observation(Finite(m.1), m.0, "Bank of Japan")
  {
    if matches.None? then None
    else match LastSensible(matches.value)
      case None => None
      case Some(i) => Some(Observation(Finite(matches.value[i].1), matches.value[i].0, "Bank of Japan"))
  }

  /** The reversed loop over the matches. */
  method SelectBojRate(matches: Option<seq<(string, real)>>) returns (r: Option<Observation>)
    ensures r == BojRate(matches)
  {
    if matches.None? {
      return None;
    }
    var ms := matches.value;
    var i := |ms|;
    while i > 0
      invariant 0 <= i <= |ms|
      invariant forall j :: i <= j < |ms| ==> !Sensible(ms[j].1)
    {
      var (date, rate) := ms[i - 1];
      if 0.0 <= rate < 5.0 {
        return Some(Observation(Finite(rate), date, "Bank of Japan"));
      }
      i := i - 1;
    }
    return None;
  }

  // ---------------------------------------------------------------------------
  // The getters
  // ---------------------------------------------------------------------------

  /** A fetched result kept only when its value passes the indicator's validator. */
  function Checked(key: string, result: Option<Observation>): (r: Option<Observation>)
    requires key in IndicatorKeys
    ensures r.Some? <==> result.Some? && Validate(key, Some(result.value.value))
    ensures r.Some? ==> r == result
  {
    if result.Some? && Validate(key, Some(result.value.value)) then result else None
  }

  /** The rate from the currency's own central bank; FRED only for USD, where
      the Federal Reserve's series is the native source. */
  function NativeRate(src: Sources, currency: string): Option<Observation>
  {
    match currency
    case "USD" => FredResult(src.fred("DFEDTARU"))
    case "CAD" => src.boc
    case "AUD" => src.rba
    case "GBP" => BoeRate(src.boeText)
    case "EUR" => src.ecb
    case "CHF" => SnbRate(src.snbText)
    case "JPY" => BojRate(src.bojMatches)
    case _ => None
  }

  /** `get_interest_rate(currency)`: the native result if it is a valid rate,
      otherwise None; nothing for a currency without a native source. */
  function GetInterestRate(src: Sources, currency: string): (r: Option<Observation>)
    ensures currency !in Currencies ==> r.None?
    ensures r.Some? ==> r.value.value.Finite? && -2.0 <= r.value.value.r <= 25.0
  {
    assert FredCode("interest_rate", "USD") == Some("DFEDTARU");
    Checked("interest_rate", NativeRate(src, currency))
  }

  /** No fallback: outside USD the rate depends on the native sources only,
      never on what FRED would answer. */
  lemma NoFredFallback(src: Sources, other: Sources, currency: string)
    requires currency != "USD"
    requires src.boeText == other.boeText && src.snbText == other.snbText
    requires src.bojMatches == other.bojMatches
    requires src.boc == other.boc && src.rba == other.rba && src.ecb == other.ecb
    ensures GetInterestRate(src, currency) == GetInterestRate(other, currency)
  {
  }

  /** A valid native rate is returned as it is; an invalid one is dropped. */
  lemma InterestRateFromNative(src: Sources, currency: string)
    ensures NativeRate(src, currency).Some? && Validate("interest_rate", Some(NativeRate(src, currency).value.value))
      ==> GetInterestRate(src, currency) == NativeRate(src, currency)
    ensures NativeRate(src, currency).Some? && !Validate("interest_rate", Some(NativeRate(src, currency).value.value))
      ==> GetInterestRate(src, currency).None?
  {
  }

  /** `get_inflation`, `get_gdp_growth`, `get_unemployment`,
      `get_business_confidence`: the FRED series of the currency, kept only
      when valid; None when the currency has no series. */
  function GetFromFred(src: Sources, key: string, currency: string): (r: Option<Observation>)
    requires key in IndicatorKeys
    ensures currency !in Currencies ==> r.None?
    ensures r.Some? ==> Validate(key, Some(r.value.value))
    ensures r.Some? ==> r == FredResult(src.fred(FredCode(key, currency).value))
    ensures currency in Currencies ==>
      (r.Some? <==> FredResult(src.fred(FredCode(key, currency).value)).Some?
                    && Validate(key, Some(FredResult(src.fred(FredCode(key, currency).value)).value.value)))
  {
    match FredCode(key, currency)
    case None => None
    case Some(code) => Checked(key, FredResult(src.fred(code)))
  }

  /** The getter `get_all_data` calls for an indicator. */
  function Getter(src: Sources, key: string, currency: string): (r: Option<Observation>)
    requires key in IndicatorKeys
    ensures r.Some? ==> Validate(key, Some(r.value.value))
  {
    if key == "interest_rate" then GetInterestRate(src, currency)
    else GetFromFred(src, key, currency)
  }

  // ---------------------------------------------------------------------------
  // get_all_data
  // ---------------------------------------------------------------------------

  /** What a getter call did: returned a result (or None), or raised. */
  datatype Outcome = Returned(result: Option<Observation>) | Raised(message: string)

  datatype IndicatorEntry = IndicatorEntry(name: string, value: Option<Num>, date: Option<string>, source: string)
  datatype CurrencyEntry = CurrencyEntry(country: string, indicators: map<string, IndicatorEntry>)
  datatype AllData = AllData(timestamp: string, source: string, data: map<string, CurrencyEntry>)

  const AllSource := "API Banche Centrali + FRED fallback"
  const NotAvailable := "N/A"

  /** The entry written for one indicator. */
  function EntryOf(key: string, outcome: Outcome): (e: IndicatorEntry)
    requires key in IndicatorKeys
    ensures e.name == IndicatorName(key)
    ensures e.value.Some? <==> outcome.Returned? && outcome.result.Some?
    ensures e.date.Some? <==> e.value.Some?
    ensures outcome == Returned(None) ==> e.source == NotAvailable
    ensures outcome.Raised? ==> e.source == "Error: " + outcome.message
    ensures e.value.Some? ==> (e.value.value == outcome.result.value.value
      && e.date.value == outcome.result.value.date && e.source == outcome.result.value.source)
  {
    match outcome
    case Raised(message) => IndicatorEntry(IndicatorName(key), None, None, "Error: " + message)
    case Returned(None) => IndicatorEntry(IndicatorName(key), None, None, NotAvailable)
    case Returned(Some(o)) => IndicatorEntry(IndicatorName(key), Some(o.value), Some(o.date), o.source)
  }

  /** The entries of one currency: every indicator key, nothing else. */
  function IndicatorsOf(currency: string, fetch: (string, string) -> Outcome): (m: map<string, IndicatorEntry>)
    ensures forall k :: k in m <==> k in IndicatorKeys
    ensures forall k :: k in m ==> m[k] == EntryOf(k, fetch(currency, k))
  {
    map k | k in IndicatorKeys :: EntryOf(k, fetch(currency, k))
  }

  /** `get_all_data(currencies)` with the outcome of each getter call given by
      `fetch`; None for `currencies` means the seven default currencies. */
  function AllDataOf(currencies: Option<seq<string>>, timestamp: string,
                     fetch: (string, string) -> Outcome): (d: AllData)
    ensures d.timestamp == timestamp && d.source == AllSource
    ensures forall c :: c in d.data <==> c in (if currencies.None? then Currencies else currencies.value)
    ensures forall c :: c in d.data ==> d.data[c] == CurrencyEntry(CountryName(c), IndicatorsOf(c, fetch))
  {
    var cs := if currencies.None? then Currencies else currencies.value;
    AllData(timestamp, AllSource,
      map c | c in cs :: CurrencyEntry(CountryName(c), IndicatorsOf(c, fetch)))
  }

  /** The loop over currencies and, inside it, over the five indicators,
      filling the nested dict in place. */
  method GetAllData(currencies: Option<seq<string>>, timestamp: string,
                    fetch: (string, string) -> Outcome) returns (results: AllData)
    ensures results == AllDataOf(currencies, timestamp, fetch)
  {
    var cs := if currencies.None? then Currencies else currencies.value;
    var data: map<string, CurrencyEntry> := map[];
    for i := 0 to |cs|
      invariant data == map c | c in cs[..i] :: CurrencyEntry(CountryName(c), IndicatorsOf(c, fetch))
    {
      var currency := cs[i];
      var indicators: map<string, IndicatorEntry> := map[];
      for j := 0 to |IndicatorKeys|
        invariant indicators == map k | k in IndicatorKeys[..j] :: EntryOf(k, fetch(currency, k))
      {
        var key := IndicatorKeys[j];
        assert IndicatorKeys[..j + 1] == IndicatorKeys[..j] + [key];
        indicators := indicators[key := EntryOf(key, fetch(currency, key))];
      }
      assert IndicatorKeys[..|IndicatorKeys|] == IndicatorKeys;
      assert cs[..i + 1] == cs[..i] + [currency];
      data := data[currency := CurrencyEntry(CountryName(currency), indicators)];
    }
    assert cs[..|cs|] == cs;
    results := AllData(timestamp, AllSource, data);
  }

  /** Every requested currency gets all five indicators; a missing result is
      marked None with source "N/A", a raised one "Error: ...". */
  lemma AllDataShape(currencies: Option<seq<string>>, timestamp: string,
                     fetch: (string, string) -> Outcome, c: string, k: string)
    requires c in (if currencies.None? then Currencies else currencies.value)
    requires k in IndicatorKeys
    ensures var d := AllDataOf(currencies, timestamp, fetch).data;
      && c in d && d[c].country == CountryName(c) && k in d[c].indicators
      && (fetch(c, k) == Returned(None) ==>
            d[c].indicators[k] == IndicatorEntry(IndicatorName(k), None, None, NotAvailable))
      && (fetch(c, k).Raised? ==>
            d[c].indicators[k] == IndicatorEntry(IndicatorName(k), None, None, "Error: " + fetch(c, k).message))
      && (fetch(c, k).Returned? && fetch(c, k).result.Some? ==>
            var o := fetch(c, k).result.value;
            d[c].indicators[k] == IndicatorEntry(IndicatorName(k), Some(o.value), Some(o.date), o.source))
  {
  }

  /** With the real getters behind it, every value that `get_all_data`
      reports lies inside its indicator's range. */
  lemma AllDataValuesValid(currencies: Option<seq<string>>, timestamp: string,
                           src: Sources, fetch: (string, string) -> Outcome, c: string, k: string)
    requires forall cur, key :: key in IndicatorKeys ==> fetch(cur, key) == Returned(Getter(src, key, cur))
    requires k in IndicatorKeys
    ensures var d := AllDataOf(currencies, timestamp, fetch).data;
      c in d && d[c].indicators[k].value.Some? ==>
        InClosed(d[c].indicators[k].value.value, Range(k).0, Range(k).1)
  {
    var d := AllDataOf(currencies, timestamp, fetch).data;
    if c in d {
      assert d[c].indicators[k] == EntryOf(k, fetch(c, k));
      var r := Getter(src, k, c);
      assert fetch(c, k) == Returned(r);
    }
  }
}
