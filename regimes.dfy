/** The four-quadrant economic-regime classifier of `economic_regimes.py`:
    PMI and CPI readings, their deltas against the previous months, the
    regime, the momentum arrows and the headline/core CPI divergence. */
module Regimes {
  import opened Common

  // ---------------------------------------------------------------------------
  // Arithmetic on exact values
  // ---------------------------------------------------------------------------

  function Abs(x: real): (a: real)
    ensures a >= 0.0 && (a == x || a == -x)
  {
    if x < 0.0 then -x else x
  }

  function MinR(a: real, b: real): real { if a <= b then a else b }
  function MaxR(a: real, b: real): real { if a <= b then b else a }

  function Sum(xs: seq<real>): real
  {
    if |xs| == 0 then 0.0 else Sum(xs[..|xs| - 1]) + xs[|xs| - 1]
  }

  /** `sum(xs) / len(xs)` */
  function Mean(xs: seq<real>): real
    requires |xs| > 0
  {
    Sum(xs) / |xs| as real
  }

  /** A sum of values within `[lo, hi]` lies within `[n * lo, n * hi]`. */
  lemma {:induction false} SumWithin(xs: seq<real>, lo: real, hi: real)
    requires forall k :: 0 <= k < |xs| ==> lo <= xs[k] <= hi
    ensures |xs| as real * lo <= Sum(xs) <= |xs| as real * hi
  {
    if |xs| > 0 {
      SumWithin(xs[..|xs| - 1], lo, hi);
    }
  }

  /** The mean of values within `[lo, hi]` lies within `[lo, hi]`. */
  lemma MeanWithin(xs: seq<real>, lo: real, hi: real)
    requires |xs| > 0
    requires forall k :: 0 <= k < |xs| ==> lo <= xs[k] <= hi
    ensures lo <= Mean(xs) <= hi
  {
    SumWithin(xs, lo, hi);
    var n := |xs| as real;
    assert n * lo / n == lo;
    assert n * hi / n == hi;
    DivMonotone(n * lo, Sum(xs), n);
    DivMonotone(Sum(xs), n * hi, n);
  }

  lemma DivMonotone(a: real, b: real, p: real)
    requires a <= b && p > 0.0
    ensures a / p <= b / p
  {
    assert b / p - a / p == (b - a) / p;
  }

  /** The integer nearest to `y`, the even one on a tie (Python's `round`). */
  function RoundHalfEven(y: real): (n: int)
    ensures -0.5 <= n as real - y <= 0.5
    ensures (n as real - y == 0.5 || y - n as real == 0.5) ==> n % 2 == 0
  {
    var f := y.Floor;
    var frac := y - f as real;
    if frac < 0.5 then f
    else if frac > 0.5 then f + 1
    else if f % 2 == 0 then f else f + 1
  }

  /** `round(x, 1)` on an exact value: the nearest multiple of 0.1, the
      even multiple on a tie. */
  function Round1(x: real): (r: real)
    ensures (r * 10.0).Floor as real == r * 10.0
    ensures -0.05 <= r - x <= 0.05
    ensures (r - x == 0.05 || x - r == 0.05) ==> (r * 10.0).Floor % 2 == 0
  {
    RoundHalfEven(x * 10.0) as real / 10.0
  }

  /** `round(x, 2)` on an exact value: the nearest multiple of 0.01, the
      even multiple on a tie. */
  function Round2(x: real): (r: real)
    ensures (r * 100.0).Floor as real == r * 100.0
    ensures -0.005 <= r - x <= 0.005
    ensures (r - x == 0.005 || x - r == 0.005) ==> (r * 100.0).Floor % 2 == 0
  {
    RoundHalfEven(x * 100.0) as real / 100.0
  }

  // ---------------------------------------------------------------------------
  // Regimes and their forex score (REGIME_DEFINITIONS, get_regime_forex_score)
  // ---------------------------------------------------------------------------

  datatype Regime = Espansione | Reflazione | Stagflazione | Deflazione

  /** The key a regime is stored under. */
  function Key(r: Regime): string
  {
    match r
    case Espansione => "espansione"
    case Reflazione => "reflazione"
    case Stagflazione => "stagflazione"
    case Deflazione => "deflazione"
  }

  /** The part of a `REGIME_DEFINITIONS` entry the model keeps: its display
      name and its forex score (emoji, colour and prose are left out). */
  datatype RegimeDefinition = RegimeDefinition(name: string, forexScore: int)

  function Definition(r: Regime): (d: RegimeDefinition)
    ensures -2 <= d.forexScore <= 2 && d.forexScore != 0
    ensures d.forexScore > 0 <==> r == Espansione || r == Reflazione
  {
    match r
    case Espansione => RegimeDefinition("Espansione", 1)
    case Reflazione => RegimeDefinition("Reflazione", 2)
    case Stagflazione => RegimeDefinition("Stagflazione", -2)
    case Deflazione => RegimeDefinition("Deflazione", -1)
  }

  /** `get_regime_forex_score(key)`: the score of the regime stored under
      `key`, and 0 for any other key. */
  function RegimeForexScore(key: string): (s: int)
    ensures -2 <= s <= 2
    ensures s != 0 <==> exists r: Regime :: Key(r) == key
  {
    if key == "espansione" then assert Key(Espansione) == key; 1
    else if key == "reflazione" then assert Key(Reflazione) == key; 2
    else if key == "stagflazione" then assert Key(Stagflazione) == key; -2
    else if key == "deflazione" then assert Key(Deflazione) == key; -1
    else 0
  }

  /** Looking a regime up by its key gives the score of its definition. */
  lemma ForexScoreOfKey(r: Regime)
    ensures RegimeForexScore(Key(r)) == Definition(r).forexScore
  {
  }

  // ---------------------------------------------------------------------------
  // identify_regime
  // ---------------------------------------------------------------------------

  /** Smallest delta counted as a move. */
  const Threshold: real := 0.1

  /** `identify_regime(delta_pmi, delta_inflation)`. When both deltas move
      beyond the threshold, their signs pick the quadrant; otherwise the delta
      of larger magnitude decides (PMI only when strictly larger), and a delta
      that does not itself move counts as a fall. */
  function IdentifyRegime(dp: real, di: real): (r: Regime)
    ensures Abs(dp) > Threshold && Abs(di) > Threshold ==>
      r == (if dp > 0.0 then (if di > 0.0 then Reflazione else Espansione)
            else (if di > 0.0 then Stagflazione else Deflazione))
    ensures Abs(di) <= Threshold && Abs(dp) > Abs(di) ==>
      r == (if dp > Threshold then Reflazione else Deflazione)
    ensures Abs(dp) <= Threshold && Abs(di) >= Abs(dp) ==>
      r == (if di > Threshold then Stagflazione else Espansione)
  {
    var pmiUp := dp > Threshold;
    var pmiDown := dp < -Threshold;
    var inflationUp := di > Threshold;
    var inflationDown := di < -Threshold;
    if pmiUp && inflationDown then Espansione
    else if pmiUp && inflationUp then Reflazione
    else if pmiDown && inflationUp then Stagflazione
    else if pmiDown && inflationDown then Deflazione
    else if Abs(dp) > Abs(di) then (if pmiUp then Reflazione else Deflazione)
    else (if inflationUp then Stagflazione else Espansione)
  }

  /** The three cases of `IdentifyRegime`'s contract cover every pair of deltas. */
  lemma IdentifyRegimeCasesCover(dp: real, di: real)
    ensures (Abs(dp) > Threshold && Abs(di) > Threshold)
         || (Abs(di) <= Threshold && Abs(dp) > Abs(di))
         || (Abs(dp) <= Threshold && Abs(di) >= Abs(dp))
  {
  }

  /** Inside the dead zone the classifier never reports rising inflation or
      rising growth: it is Deflazione when the PMI delta is strictly larger,
      otherwise Espansione; in particular no change at all is Espansione. */
  lemma IdentifyRegimeDeadZone(dp: real, di: real)
    requires Abs(dp) <= Threshold && Abs(di) <= Threshold
    ensures IdentifyRegime(dp, di) == (if Abs(dp) > Abs(di) then Deflazione else Espansione)
    ensures IdentifyRegime(0.0, 0.0) == Espansione
  {
  }

  // ---------------------------------------------------------------------------
  // calculate_momentum
  // ---------------------------------------------------------------------------

  /** The seven arrows of `calculate_momentum`. */
  datatype Arrow = StrongUp | Up | SlightUp | Stable | SlightDown | Down | StrongDown

  function Rank(a: Arrow): int
  {
    match a
    case StrongUp => 3
    case Up => 2
    case SlightUp => 1
    case Stable => 0
    case SlightDown => -1
    case Down => -2
    case StrongDown => -3
  }

  function Opposite(a: Arrow): Arrow
  {
    match a
    case StrongUp => StrongDown
    case Up => Down
    case SlightUp => SlightDown
    case Stable => Stable
    case SlightDown => SlightUp
    case Down => Up
    case StrongDown => StrongUp
  }

  /** `calculate_momentum(delta)`: seven disjoint bands with strict cut-offs
      at 1.0, 0.3 and 0.1 on either side. */
  function Momentum(delta: real): (a: Arrow)
    ensures a == StrongUp <==> delta > 1.0
    ensures a == Up <==> 0.3 < delta <= 1.0
    ensures a == SlightUp <==> 0.1 < delta <= 0.3
    ensures a == Stable <==> -0.1 <= delta <= 0.1
    ensures a == SlightDown <==> -0.3 <= delta < -0.1
    ensures a == Down <==> -1.0 <= delta < -0.3
    ensures a == StrongDown <==> delta < -1.0
  {
    if delta > 1.0 then StrongUp
    else if delta > 0.3 then Up
    else if delta > 0.1 then SlightUp
    else if delta < -1.0 then StrongDown
    else if delta < -0.3 then Down
    else if delta < -0.1 then SlightDown
    else Stable
  }

  /** A larger delta never gets a lower arrow. */
  lemma MomentumMonotone(d1: real, d2: real)
    requires d1 <= d2
    ensures Rank(Momentum(d1)) <= Rank(Momentum(d2))
  {
  }

  /** The bands are symmetric around zero. */
  lemma MomentumMirror(d: real)
    ensures Momentum(-d) == Opposite(Momentum(d))
  {
  }

  // ---------------------------------------------------------------------------
  // PMI composite, inflation index, CPI divergence
  // ---------------------------------------------------------------------------

  datatype PmiWeight = PmiWeight(manufacturing: real, services: real)

  /** The currencies listed in `PMI_WEIGHTS`. */
  const WeightedCurrencies: set<string> := {"USD", "EUR", "GBP", "JPY", "CHF", "AUD", "CAD"}

  /** `PMI_WEIGHTS.get(currency, {0.5, 0.5})`: every weighting is convex, an
      unlisted currency weighs both halves equally, and only Switzerland and
      Canada (manufacturing PMI only) give services no weight. */
  function Weights(currency: string): (w: PmiWeight)
    ensures w.manufacturing >= 0.0 && w.services >= 0.0
    ensures w.manufacturing + w.services == 1.0
    ensures currency !in WeightedCurrencies ==> w == PmiWeight(0.5, 0.5)
    ensures w.services == 0.0 <==> currency == "CHF" || currency == "CAD"
    ensures w.services > w.manufacturing <==> currency == "USD" || currency == "GBP"
  {
    if currency == "USD" then PmiWeight(0.30, 0.70)
    else if currency == "EUR" then PmiWeight(0.50, 0.50)
    else if currency == "GBP" then PmiWeight(0.20, 0.80)
    else if currency == "JPY" then PmiWeight(0.60, 0.40)
    else if currency == "CHF" then PmiWeight(1.00, 0.00)
    else if currency == "AUD" then PmiWeight(0.50, 0.50)
    else if currency == "CAD" then PmiWeight(1.00, 0.00)
    else PmiWeight(0.5, 0.5)
  }

  /** `calculate_pmi_composite`: the manufacturing reading alone when there is
      no services reading or services weigh nothing, otherwise the weighted sum. */
  function PmiComposite(manufacturing: real, services: Option<real>, currency: string): (c: real)
    ensures services.None? || Weights(currency).services == 0.0 ==> c == manufacturing
    ensures services.Some? && Weights(currency).services != 0.0 ==>
      c == manufacturing * Weights(currency).manufacturing + services.value * Weights(currency).services
  {
    var w := Weights(currency);
    if services.None? || w.services == 0.0 then manufacturing
    else manufacturing * w.manufacturing + services.value * w.services
  }

  /** A convex combination of two values lies between them. */
  lemma ConvexBetween(a: real, b: real, wa: real, wb: real)
    requires wa >= 0.0 && wb >= 0.0 && wa + wb == 1.0
    ensures MinR(a, b) <= a * wa + b * wb <= MaxR(a, b)
  {
    assert a * wa + b * wb == a + (b - a) * wb;
    if a <= b {
      ScaleDown(b - a, wb);
    } else {
      ScaleDown(a - b, wb);
      assert (b - a) * wb == -((a - b) * wb);
    }
  }

  /** Scaling a non-negative value by a weight in `[0, 1]` does not increase it. */
  lemma ScaleDown(x: real, w: real)
    requires x >= 0.0 && 0.0 <= w <= 1.0
    ensures 0.0 <= x * w <= x
  {
    assert x - x * w == x * (1.0 - w);
  }

  /** The composite never leaves the range of its two readings. */
  lemma PmiCompositeBetween(manufacturing: real, services: real, currency: string)
    ensures MinR(manufacturing, services) <= PmiComposite(manufacturing, Some(services), currency)
                                          <= MaxR(manufacturing, services)
  {
    var w := Weights(currency);
    if w.services != 0.0 {
      ConvexBetween(manufacturing, services, w.manufacturing, w.services);
    }
  }

  /** `calculate_inflation_index`: headline alone without a core reading,
      otherwise 70% core and 30% headline. */
  function InflationIndex(headline: real, core: Option<real>): (x: real)
    ensures core.None? ==> x == headline
    ensures core.Some? ==> MinR(headline, core.value) <= x <= MaxR(headline, core.value)
    ensures core.Some? ==> x - headline == 0.7 * (core.value - headline)
  {
    if core.None? then headline else core.value * 0.7 + headline * 0.3
  }

  datatype DivergenceKind = HeadlineHigher | CoreHigher

  /** A reported divergence: its type and the size of the gap the message shows. */
  datatype Divergence = Divergence(kind: DivergenceKind, gap: real)

  /** `detect_cpi_divergence`: a divergence only when there is a core reading
      more than half a point away from the headline. */
  function DetectCpiDivergence(headline: real, core: Option<real>): (d: Option<Divergence>)
    ensures d.Some? <==> core.Some? && Abs(headline - core.value) > 0.5
    ensures d.Some? ==> (d.value.kind == HeadlineHigher <==> headline > core.value)
    ensures d.Some? ==> d.value.gap == Abs(headline - core.value) && d.value.gap > 0.5
  {
    if core.None? then None
    else
      var diff := headline - core.value;
      if Abs(diff) > 0.5 then
        if diff > 0.0 then Some(Divergence(HeadlineHigher, diff))
        else Some(Divergence(CoreHigher, Abs(diff)))
      else None
  }

  /** A divergence pulls the inflation index away from the headline towards
      the core reading by more than 0.35 points. */
  lemma DivergenceMovesIndex(headline: real, core: real)
    ensures var d := DetectCpiDivergence(headline, Some(core));
            var x := InflationIndex(headline, Some(core));
            (d.Some? && d.value.kind == HeadlineHigher ==> x < headline - 0.35)
            && (d.Some? && d.value.kind == CoreHigher ==> x > headline + 0.35)
  {
  }

  // ---------------------------------------------------------------------------
  // calculate_delta
  // ---------------------------------------------------------------------------

  /** The values of the entries whose `actual` is not None, in order. */
  function Present(h: seq<Option<real>>): (vs: seq<real>)
    ensures |vs| <= |h|
    ensures forall x :: x in vs <==> Some(x) in h
  {
    if |h| == 0 then []
    else if h[|h| - 1].Some? then Present(h[..|h| - 1]) + [h[|h| - 1].value]
    else Present(h[..|h| - 1])
  }

  /** Filtering keeps the order: the values of a concatenation are the
      values of its first part followed by those of its second. */
  lemma {:induction false} PresentConcat(a: seq<Option<real>>, b: seq<Option<real>>)
    ensures Present(a + b) == Present(a) + Present(b)
  {
    if |b| > 0 {
      var n := |b| - 1;
      assert (a + b)[..|a + b| - 1] == a + b[..n];
      PresentConcat(a, b[..n]);
    } else {
      assert a + b == a;
    }
  }

  /** One entry contributes its value if it has one, and nothing otherwise. */
  lemma PresentOne(e: Option<real>)
    ensures Present([e]) == if e.Some? then [e.value] else []
  {
    assert [e][..0] == [];
  }

  /** A window without any value contributes nothing. */
  lemma {:induction false} PresentNone(h: seq<Option<real>>)
    requires forall k :: 0 <= k < |h| ==> h[k].None?
    ensures Present(h) == []
  {
    if |h| > 0 {
      PresentNone(h[..|h| - 1]);
    }
  }

  /** A history whose entries all carry a value. */
  function Lift(xs: seq<real>): (h: seq<Option<real>>)
    ensures |h| == |xs|
    ensures forall k :: 0 <= k < |xs| ==> h[k] == Some(xs[k])
  {
    seq(|xs|, k requires 0 <= k < |xs| => Some(xs[k]))
  }

  lemma {:induction false} PresentLift(xs: seq<real>)
    ensures Present(Lift(xs)) == xs
  {
    if |xs| > 0 {
      var n := |xs| - 1;
      assert Lift(xs)[..n] == Lift(xs[..n]);
      PresentLift(xs[..n]);
      assert xs == xs[..n] + [xs[n]];
    }
  }

  /** `calculate_delta(current, history, months)`: `current` minus the mean of
      the values among `history[1:months + 1]`, and 0.0 when the history is
      shorter than `months` or that window holds no value. */
  function CalculateDelta(current: real, history: seq<Option<real>>, months: nat): (d: real)
    ensures |history| == 0 || |history| < months ==> d == 0.0
    ensures (forall k :: 1 <= k <= months && k < |history| ==> history[k].None?) ==> d == 0.0
  {
    if |history| == 0 || |history| < months then 0.0
    else
      var window := history[1..if months + 1 <= |history| then months + 1 else |history|];
      var values := Present(window);
      if forall k :: 1 <= k <= months && k < |history| ==> history[k].None? then
        PresentNone(window);
        0.0
      else if |values| == 0 then 0.0 else current - Mean(values)
  }

  /** A reading at or above every value of the window gives a delta of at
      least zero, and one at or below all of them a delta of at most zero. */
  lemma CalculateDeltaSign(current: real, history: seq<Option<real>>, months: nat)
    ensures (forall k :: 1 <= k <= months && k < |history| && history[k].Some? ==> history[k].value <= current)
            ==> CalculateDelta(current, history, months) >= 0.0
    ensures (forall k :: 1 <= k <= months && k < |history| && history[k].Some? ==> history[k].value >= current)
            ==> CalculateDelta(current, history, months) <= 0.0
  {
    if |history| > 0 && |history| >= months {
      var hi := if months + 1 <= |history| then months + 1 else |history|;
      var window := history[1..hi];
      var values := Present(window);
      if |values| > 0 {
        if forall k :: 1 <= k <= months && k < |history| && history[k].Some? ==> history[k].value <= current {
          forall k | 0 <= k < |values| ensures values[k] <= current {
            var j :| 0 <= j < |window| && window[j] == Some(values[k]);
            assert history[j + 1] == Some(values[k]);
          }
          MeanWithin(values, MinSeq(values), current);
        }
        if forall k :: 1 <= k <= months && k < |history| && history[k].Some? ==> history[k].value >= current {
          forall k | 0 <= k < |values| ensures current <= values[k] {
            var j :| 0 <= j < |window| && window[j] == Some(values[k]);
            assert history[j + 1] == Some(values[k]);
          }
          MeanWithin(values, current, MaxSeq(values));
        }
      }
    }
  }

  function MinSeq(xs: seq<real>): (m: real)
    requires |xs| > 0
    ensures m in xs
    ensures forall k :: 0 <= k < |xs| ==> m <= xs[k]
  {
    if |xs| == 1 then xs[0] else MinR(MinSeq(xs[..|xs| - 1]), xs[|xs| - 1])
  }

  function MaxSeq(xs: seq<real>): (m: real)
    requires |xs| > 0
    ensures m in xs
    ensures forall k :: 0 <= k < |xs| ==> xs[k] <= m
  {
    if |xs| == 1 then xs[0] else MaxR(MaxSeq(xs[..|xs| - 1]), xs[|xs| - 1])
  }

  // ---------------------------------------------------------------------------
  // Fetched series (CPI_CONFIG, fetch_cpi_data, fetch_pmi_history)
  // ---------------------------------------------------------------------------

  /** Data points of an Investing.com event, newest first, as the download
      returns them once sorted by timestamp; `None` where a point has no value. */
  type EventFeed = int -> seq<Option<real>>

  const MaxResults: nat := 6

  /** What `fetch_investing_event_data(event_id, 6)` keeps of the sorted
      points: the values of the six newest, skipping points without one. */
  function EventData(points: seq<Option<real>>): (actuals: seq<real>)
    ensures |actuals| <= MaxResults
    ensures forall k :: 0 <= k < |actuals| ==>
      Some(actuals[k]) in points[..if |points| < MaxResults then |points| else MaxResults]
    ensures (forall k :: 0 <= k < |points| ==> points[k].Some?) ==>
      && |actuals| == (if |points| < MaxResults then |points| else MaxResults)
      && forall k :: 0 <= k < |actuals| ==> points[k] == Some(actuals[k])
    ensures actuals == Present(points[..if |points| < MaxResults then |points| else MaxResults])
  {
    var newest := points[..if |points| < MaxResults then |points| else MaxResults];
    if forall k :: 0 <= k < |points| ==> points[k].Some? then
      AllPresent(newest);
      Present(newest)
    else Present(newest)
  }

  lemma {:induction false} AllPresent(h: seq<Option<real>>)
    requires forall k :: 0 <= k < |h| ==> h[k].Some?
    ensures |Present(h)| == |h|
    ensures forall k :: 0 <= k < |h| ==> h[k] == Some(Present(h)[k])
  {
    if |h| > 0 {
      AllPresent(h[..|h| - 1]);
    }
  }

  /** The currencies of `CPI_CONFIG`, in its order. */
  const CpiCurrencies: seq<string> := ["USD", "EUR", "GBP", "JPY", "CHF", "AUD", "CAD"]

  /** Investing.com event ids of a currency's headline and core CPI. */
  datatype CpiIds = CpiIds(headline: int, core: Option<int>)

  /** `CPI_CONFIG.get(currency)`: Switzerland publishes no separate core CPI. */
  function CpiConfig(currency: string): (c: Option<CpiIds>)
    ensures c.Some? <==> currency in CpiCurrencies
    ensures c.Some? && c.value.core.None? <==> currency == "CHF"
  {
    if currency == "USD" then Some(CpiIds(733, Some(736)))
    else if currency == "EUR" then Some(CpiIds(68, Some(317)))
    else if currency == "GBP" then Some(CpiIds(67, Some(55)))
    else if currency == "JPY" then Some(CpiIds(992, Some(344)))
    else if currency == "CHF" then Some(CpiIds(956, None))
    else if currency == "AUD" then Some(CpiIds(1011, Some(1017)))
    else if currency == "CAD" then Some(CpiIds(741, Some(1020)))
    else None
  }

  /** A fetched CPI series: its latest value and the values newest first. */
  datatype CpiSeries = CpiSeries(current: real, history: seq<real>)

  datatype CpiData = CpiData(headline: Option<CpiSeries>, core: Option<CpiSeries>)

  function SeriesOf(actuals: seq<real>): (s: Option<CpiSeries>)
    ensures s.Some? <==> |actuals| > 0
    ensures s.Some? ==> s.value.history == actuals && s.value.current == actuals[0]
  {
    if |actuals| > 0 then Some(CpiSeries(actuals[0], actuals)) else None
  }

  /** `fetch_cpi_data(currency)`: a series is present only when the currency is
      configured for it and its download kept at least one value; its current
      value is the newest one. */
  function FetchCpiData(currency: string, feed: EventFeed): (d: CpiData)
    ensures CpiConfig(currency).None? ==> d == CpiData(None, None)
    ensures CpiConfig(currency).Some? ==>
      d.headline == SeriesOf(EventData(feed(CpiConfig(currency).value.headline)))
    ensures d.core.Some? ==> CpiConfig(currency).Some? && CpiConfig(currency).value.core.Some?
    ensures CpiConfig(currency).Some? && CpiConfig(currency).value.core.Some? ==>
      d.core == SeriesOf(EventData(feed(CpiConfig(currency).value.core.value)))
  {
    match CpiConfig(currency)
    case None => CpiData(None, None)
    case Some(ids) =>
      CpiData(SeriesOf(EventData(feed(ids.headline))),
              if ids.core.Some? then SeriesOf(EventData(feed(ids.core.value))) else None)
  }

  /** The Investing.com event id of a currency's manufacturing PMI. */
  function PmiManufacturingId(currency: string): (id: Option<int>)
    ensures id.Some? <==> currency in CpiCurrencies
  {
    if currency == "USD" then Some(173)
    else if currency == "EUR" then Some(201)
    else if currency == "GBP" then Some(204)
    else if currency == "JPY" then Some(202)
    else if currency == "CHF" then Some(278)
    else if currency == "AUD" then Some(1838)
    else if currency == "CAD" then Some(185)
    else None
  }

  /** `fetch_pmi_history(currency)`: at most six manufacturing PMI values,
      newest first, and none for an unknown currency. */
  function FetchPmiHistory(currency: string, feed: EventFeed): (h: seq<real>)
    ensures |h| <= MaxResults
    ensures PmiManufacturingId(currency).None? ==> h == []
    ensures PmiManufacturingId(currency).Some? ==> h == EventData(feed(PmiManufacturingId(currency).value))
  {
    match PmiManufacturingId(currency)
    case None => []
    case Some(id) => EventData(feed(id))
  }

  // ---------------------------------------------------------------------------
  // analyze_currency_regime
  // ---------------------------------------------------------------------------

  /** `history[1:4]` of a history with at least three values. */
  function Window(history: seq<real>): (w: seq<real>)
    requires |history| >= 3
    ensures 2 <= |w| <= 3
  {
    history[1..if 4 <= |history| then 4 else |history|]
  }

  /** The mean of the up to three values before the newest one, when the
      history holds at least three values. */
  function RecentAverage(history: seq<real>): (avg: Option<real>)
    ensures avg.Some? <==> |history| >= 3
    ensures avg.Some? ==> avg.value == Mean(Window(history))
    ensures avg.Some? ==>
      MinSeq(history[1..]) <= avg.value <= MaxSeq(history[1..])
  {
    if |history| >= 3 then
      var window := Window(history);
      var all := history[1..];
      forall k | 0 <= k < |window| ensures MinSeq(all) <= window[k] <= MaxSeq(all) {
        assert window[k] == all[k];
      }
      MeanWithin(window, MinSeq(all), MaxSeq(all));
      Some(Mean(window))
    else None
  }

  /** The three-month average agrees with `calculate_delta(current, history)`
      on a history whose entries all carry a value. */
  lemma RecentAverageIsCalculateDelta(current: real, history: seq<real>)
    requires |history| >= 3
    ensures CalculateDelta(current, Lift(history), 3) == current - RecentAverage(history).value
  {
    var hi := if 4 <= |history| then 4 else |history|;
    assert Lift(history)[1..hi] == Lift(Window(history));
    PresentLift(Window(history));
  }

  /** A delta and the three-month average stored beside it. */
  datatype Trend = Trend(delta: real, average: Option<real>)

  /** The PMI delta of `analyze_currency_regime`: against the recent average
      (stored to one decimal), or, without three values of history, against 50
      (stored as 50.0). */
  function PmiTrend(composite: real, history: seq<real>): (t: Trend)
    ensures |history| < 3 ==> t == Trend(composite - 50.0, Some(50.0))
    ensures |history| >= 3 ==> t.delta == CalculateDelta(composite, Lift(history), 3)
    ensures t.average.Some? && -0.05 <= t.average.value - (composite - t.delta) <= 0.05
    ensures |history| >= 3 ==> t.average == Some(Round1(Mean(Window(history))))
  {
    match RecentAverage(history)
    case Some(avg) =>
      RecentAverageIsCalculateDelta(composite, history);
      Trend(composite - avg, Some(Round1(avg)))
    case None => Trend(composite - 50.0, Some(50.0))
  }

  /** The inflation delta of `analyze_currency_regime`: against the recent
      average (stored to one decimal), or 0 with no stored average. */
  function InflationTrend(index: real, history: seq<real>): (t: Trend)
    ensures |history| < 3 ==> t == Trend(0.0, None)
    ensures t.delta == CalculateDelta(index, Lift(history), 3)
    ensures |history| >= 3 ==> t.average.Some? && -0.05 <= t.average.value - (index - t.delta) <= 0.05
    ensures |history| >= 3 ==> t.average == Some(Round1(Mean(Window(history))))
  {
    match RecentAverage(history)
    case Some(avg) =>
      RecentAverageIsCalculateDelta(index, history);
      Trend(index - avg, Some(Round1(avg)))
    case None => Trend(0.0, None)
  }

  /** The PMI readings handed in for a currency (`pmi_data`); a missing key is None. */
  datatype PmiData = PmiData(manufacturing: Option<real>, services: Option<real>)

  /** The result dict of `analyze_currency_regime`. Histories keep only the
      values of the fetched points. */
  datatype RegimeAnalysis = RegimeAnalysis(
    currency: string,
    regime: Option<Regime>,
    regimeInfo: Option<RegimeDefinition>,
    pmiManufacturing: Option<real>,
    pmiServices: Option<real>,
    pmiComposite: Option<real>,
    pmiHistory: Option<seq<real>>,
    cpiHeadline: Option<real>,
    cpiCore: Option<real>,
    cpiHistory: Option<seq<real>>,
    inflationIndex: Option<real>,
    deltaPmi: Option<real>,
    deltaInflation: Option<real>,
    pmiAvg3m: Option<real>,
    inflationAvg3m: Option<real>,
    momentumPmi: Option<Arrow>,
    momentumInflation: Option<Arrow>,
    divergence: Option<Divergence>,
    error: Option<string>)

  /** The result dict as initialised: every field None. */
  function Blank(currency: string): RegimeAnalysis
  {
    RegimeAnalysis(currency, None, None, None, None, None, None, None, None, None, None,
                   None, None, None, None, None, None, None, None)
  }

  const NoPmiMessage := "PMI Manufacturing non disponibile"
  const NoCpiMessage := "CPI Headline non disponibile"

  function CurrentOf(s: Option<CpiSeries>): (v: Option<real>)
    ensures v.Some? <==> s.Some?
  {
    if s.Some? then Some(s.value.current) else None
  }

  /** What `analyze_currency_regime` returns. An error leaves the regime None;
      otherwise the regime, the arrows and the stored deltas all come from the
      same unrounded deltas, and the divergence from the CPI readings. */
  function RegimeAnalysisOf(currency: string, pmi: PmiData, feed: EventFeed): (a: RegimeAnalysis)
    ensures a.currency == currency
    ensures a.regime.Some? <==> a.error.None?
    ensures a.error.None? <==> pmi.manufacturing.Some? && FetchCpiData(currency, feed).headline.Some?
    ensures pmi.manufacturing.None? ==> a == Blank(currency).(error := Some(NoPmiMessage))
    ensures pmi.manufacturing.Some? && FetchCpiData(currency, feed).headline.None? ==>
      a.error == Some(NoCpiMessage) && a.cpiHeadline.None? && a.inflationIndex.None?
    ensures pmi.manufacturing.Some? && FetchCpiData(currency, feed).headline.None? ==>
      a == Blank(currency).(pmiManufacturing := pmi.manufacturing, pmiServices := pmi.services,
                            pmiComposite := Some(PmiComposite(pmi.manufacturing.value, pmi.services, currency)),
                            pmiHistory := Some(FetchPmiHistory(currency, feed)),
                            error := Some(NoCpiMessage))
    ensures pmi.manufacturing.Some? ==>
      a.pmiManufacturing == pmi.manufacturing && a.pmiServices == pmi.services
      && a.pmiComposite == Some(PmiComposite(pmi.manufacturing.value, pmi.services, currency))
      && a.pmiHistory == Some(FetchPmiHistory(currency, feed))
    ensures a.error.None? ==>
      a.pmiComposite.Some? && a.pmiHistory.Some? && a.cpiHeadline.Some? && a.cpiHistory.Some?
      && a.cpiHeadline == CurrentOf(FetchCpiData(currency, feed).headline)
      && a.cpiCore == CurrentOf(FetchCpiData(currency, feed).core)
      && a.inflationIndex == Some(InflationIndex(a.cpiHeadline.value, a.cpiCore))
      && var p := PmiTrend(a.pmiComposite.value, a.pmiHistory.value);
         var i := InflationTrend(a.inflationIndex.value, a.cpiHistory.value);
         a.regime == Some(IdentifyRegime(p.delta, i.delta))
         && a.regimeInfo == Some(Definition(IdentifyRegime(p.delta, i.delta)))
         && a.deltaPmi == Some(Round2(p.delta)) && a.deltaInflation == Some(Round2(i.delta))
         && a.pmiAvg3m == p.average && a.inflationAvg3m == i.average
         && a.momentumPmi == Some(Momentum(p.delta)) && a.momentumInflation == Some(Momentum(i.delta))
         && a.divergence == DetectCpiDivergence(a.cpiHeadline.value, a.cpiCore)
  {
    if pmi.manufacturing.None? then Blank(currency).(error := Some(NoPmiMessage))
    else
      var composite := PmiComposite(pmi.manufacturing.value, pmi.services, currency);
      var pmiHistory := FetchPmiHistory(currency, feed);
      var withPmi := Blank(currency).(pmiManufacturing := pmi.manufacturing, pmiServices := pmi.services,
                                      pmiComposite := Some(composite), pmiHistory := Some(pmiHistory));
      var cpi := FetchCpiData(currency, feed);
      if cpi.headline.None? then withPmi.(error := Some(NoCpiMessage))
      else
        var headline := cpi.headline.value.current;
        var core := CurrentOf(cpi.core);
        var index := InflationIndex(headline, core);
        var p := PmiTrend(composite, pmiHistory);
        var i := InflationTrend(index, cpi.headline.value.history);
        var regime := IdentifyRegime(p.delta, i.delta);
        withPmi.(cpiHeadline := Some(headline), cpiCore := core, cpiHistory := Some(cpi.headline.value.history),
                 inflationIndex := Some(index), pmiAvg3m := p.average, inflationAvg3m := i.average,
                 deltaPmi := Some(Round2(p.delta)), deltaInflation := Some(Round2(i.delta)),
                 regime := Some(regime), regimeInfo := Some(Definition(regime)),
                 momentumPmi := Some(Momentum(p.delta)), momentumInflation := Some(Momentum(i.delta)),
                 divergence := DetectCpiDivergence(headline, core))
  }

  /** The regime is classified from the unrounded deltas, so it need not be
      the regime of the deltas stored beside it: a PMI delta of 0.104 is a
      move, its stored 0.1 is not. */
  lemma StoredDeltasMayDisagree()
    ensures IdentifyRegime(0.104, 0.05) == Reflazione
    ensures Round2(0.104) == 0.1 && Round2(0.05) == 0.05
    ensures IdentifyRegime(Round2(0.104), Round2(0.05)) == Deflazione
  {
    assert (0.104 * 100.0).Floor == 10;
    assert (0.05 * 100.0).Floor == 5;
  }

  /** `analyze_currency_regime(currency, pmi_data)`, filling the result field by
      field and returning early on a missing reading. */
  method AnalyzeCurrencyRegime(currency: string, pmi: PmiData, feed: EventFeed)
    returns (result: RegimeAnalysis)
    ensures result == RegimeAnalysisOf(currency, pmi, feed)
  {
    result := Blank(currency);
    if pmi.manufacturing.None? {
      result := result.(error := Some(NoPmiMessage));
      return;
    }
    result := result.(pmiManufacturing := pmi.manufacturing, pmiServices := pmi.services);
    var composite := PmiComposite(pmi.manufacturing.value, pmi.services, currency);
    result := result.(pmiComposite := Some(composite));
    var pmiHistory := FetchPmiHistory(currency, feed);
    result := result.(pmiHistory := Some(pmiHistory));
    var cpi := FetchCpiData(currency, feed);
    if cpi.headline.None? {
      result := result.(error := Some(NoCpiMessage));
      return;
    }
    var headline := cpi.headline.value.current;
    var core := CurrentOf(cpi.core);
    var cpiHistory := cpi.headline.value.history;
    result := result.(cpiHeadline := Some(headline), cpiCore := core, cpiHistory := Some(cpiHistory));
    var index := InflationIndex(headline, core);
    result := result.(inflationIndex := Some(index));

    var deltaPmi, pmiAvg := PmiDelta(composite, pmiHistory);
    result := result.(pmiAvg3m := pmiAvg);
    var deltaInflation, inflationAvg := InflationDelta(index, cpiHistory);
    result := result.(inflationAvg3m := inflationAvg);
    result := result.(deltaPmi := Some(Round2(deltaPmi)), deltaInflation := Some(Round2(deltaInflation)));

    var regime := IdentifyRegime(deltaPmi, deltaInflation);
    result := result.(regime := Some(regime), regimeInfo := Some(Definition(regime)));
    result := result.(momentumPmi := Some(Momentum(deltaPmi)), momentumInflation := Some(Momentum(deltaInflation)));
    result := result.(divergence := DetectCpiDivergence(headline, core));
  }

  /** The PMI delta against the recent average, or against 50 with a short history. */
  method PmiDelta(composite: real, history: seq<real>) returns (delta: real, average: Option<real>)
    ensures Trend(delta, average) == PmiTrend(composite, history)
  {
    if |history| >= 3 {
      var avg := Mean(Window(history));
      delta := composite - avg;
      average := Some(Round1(avg));
    } else {
      delta := composite - 50.0;
      average := Some(50.0);
    }
  }

  /** The inflation delta against the recent average, 0 with a short history. */
  method InflationDelta(index: real, history: seq<real>) returns (delta: real, average: Option<real>)
    ensures Trend(delta, average) == InflationTrend(index, history)
  {
    if |history| >= 3 {
      var avg := Mean(Window(history));
      delta := index - avg;
      average := Some(Round1(avg));
    } else {
      delta := 0.0;
      average := None;
    }
  }

  // ---------------------------------------------------------------------------
  // analyze_all_regimes
  // ---------------------------------------------------------------------------

  /** `pmi_data_all.get(currency, {})` */
  function PmiFor(all: map<string, PmiData>, currency: string): (p: PmiData)
    ensures currency !in all ==> p == PmiData(None, None)
    ensures currency in all ==> p == all[currency]
  {
    if currency in all then all[currency] else PmiData(None, None)
  }

  /** `analyze_all_regimes(pmi_data_all)`: one analysis for each `CPI_CONFIG`
      currency, whatever currencies the PMI data names. */
  method AnalyzeAllRegimes(pmiAll: map<string, PmiData>, feed: EventFeed)
    returns (results: map<string, RegimeAnalysis>)
    ensures forall c :: c in results <==> c in CpiCurrencies
    ensures forall c :: c in results ==> results[c] == RegimeAnalysisOf(c, PmiFor(pmiAll, c), feed)
  {
    results := map[];
    var i := 0;
    while i < |CpiCurrencies|
      invariant 0 <= i <= |CpiCurrencies|
      invariant forall c :: c in results <==> c in CpiCurrencies[..i]
      invariant forall c :: c in results ==> results[c] == RegimeAnalysisOf(c, PmiFor(pmiAll, c), feed)
    {
      var currency := CpiCurrencies[i];
      var analysis := AnalyzeCurrencyRegime(currency, PmiFor(pmiAll, currency), feed);
      results := results[currency := analysis];
      assert CpiCurrencies[..i + 1] == CpiCurrencies[..i] + [currency];
      i := i + 1;
    }
    assert CpiCurrencies[..i] == CpiCurrencies;
  }

  /** Every analysed currency with a regime carries a forex score in
      [-2, +2] that is never 0. */
  lemma AnalysisScore(currency: string, pmi: PmiData, feed: EventFeed)
    requires RegimeAnalysisOf(currency, pmi, feed).regime.Some?
    ensures var r := RegimeAnalysisOf(currency, pmi, feed).regime.value;
            RegimeForexScore(Key(r)) != 0 && -2 <= RegimeForexScore(Key(r)) <= 2
  {
    ForexScoreOfKey(RegimeAnalysisOf(currency, pmi, feed).regime.value);
  }
}
