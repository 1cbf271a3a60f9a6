/** Commitment-of-Traders positioning (cot_data.py): the COT Index of the
    latest net position within its 52-week range, the weekly-delta momentum,
    the unified score table in [-2, +2], the per-currency analysis and the
    helpers that read the analysis back out. */
module Cot {
  import opened Common

  /** Weeks used for the min/max of the COT Index and for the delta percentiles. */
  const LookbackWeeks: nat := 52
  /** Weeks in the moving average of the weekly deltas. */
  const MomentumMaWeeks: nat := 4
  /** A currency with fewer weekly rows than this is not analysed. */
  const MinWeeks: nat := 5

  // ---------------------------------------------------------------------------
  // Sequence helpers
  // ---------------------------------------------------------------------------

  /** `xs[-52:]`: the last 52 entries, or all of them when there are fewer. */
  function Window52(xs: seq<int>): (w: seq<int>)
    ensures |w| == if |xs| >= LookbackWeeks then LookbackWeeks else |xs|
    ensures w == xs[|xs| - |w|..]
  {
    if |xs| >= LookbackWeeks then xs[|xs| - LookbackWeeks..] else xs
  }

  /** `xs.min()` */
  function Min(xs: seq<int>): (m: int)
    requires |xs| > 0
    ensures m in xs
    ensures forall k :: 0 <= k < |xs| ==> m <= xs[k]
  {
    if |xs| == 1 then xs[0]
    else
      var rest := Min(xs[1..]);
      if xs[0] <= rest then xs[0] else rest
  }

  /** `xs.max()` */
  function Max(xs: seq<int>): (m: int)
    requires |xs| > 0
    ensures m in xs
    ensures forall k :: 0 <= k < |xs| ==> xs[k] <= m
  {
    if |xs| == 1 then xs[0]
    else
      var rest := Max(xs[1..]);
      if xs[0] >= rest then xs[0] else rest
  }

  /** `np.diff(xs)`: the week-on-week changes. */
  function Deltas(xs: seq<int>): (d: seq<int>)
    ensures |d| == if |xs| == 0 then 0 else |xs| - 1
    ensures forall k :: 0 <= k < |d| ==> d[k] == xs[k + 1] - xs[k]
  {
    if |xs| <= 1 then [] else seq(|xs| - 1, k requires 0 <= k < |xs| - 1 => xs[k + 1] - xs[k])
  }

  function Sum(xs: seq<int>): int
  {
    if |xs| == 0 then 0 else Sum(xs[..|xs| - 1]) + xs[|xs| - 1]
  }

  /** `np.mean(xs)` */
  function Mean(xs: seq<int>): real
    requires |xs| > 0
  {
    Sum(xs) as real / |xs| as real
  }

  /** Consecutive deltas add up to the change over the whole span. */
  lemma {:induction false} Telescope(xs: seq<int>, i: nat, j: nat)
    requires i <= j < |xs|
    ensures Sum(Deltas(xs)[i..j]) == xs[j] - xs[i]
    decreases j - i
  {
    if i < j {
      var d := Deltas(xs);
      Telescope(xs, i, j - 1);
      assert d[i..j][..j - 1 - i] == d[i..j - 1];
    }
  }

  /** The mean of the four deltas before the latest one is a quarter of the
      change over those four weeks. */
  lemma MeanOfFourDeltas(net: seq<int>)
    requires |net| >= 6
    ensures var n := |net|;
      Mean(Deltas(net)[n - 6..n - 2]) == (net[n - 2] - net[n - 6]) as real / 4.0
  {
    var n := |net|;
    var span := Deltas(net)[n - 6..n - 2];
    Telescope(net, n - 6, n - 2);
    var total := Sum(span);
    assert total == net[n - 2] - net[n - 6];
    assert |span| as real == 4.0;
  }

  /** Python's `int(x)` on a float: truncation toward zero. */
  function Trunc(x: real): (n: int)
    ensures x >= 0.0 ==> n as real <= x < n as real + 1.0
    ensures x < 0.0 ==> n as real - 1.0 < x <= n as real
  {
    if x >= 0.0 then x.Floor else -((-x).Floor)
  }

  // ---------------------------------------------------------------------------
  // COT Index
  // ---------------------------------------------------------------------------

  /** Rounds `1000 * a / b` half to even by counting up from `t`, where
      `e == t * b - 1000 * a` is the error of `t`, until the error is at least
      minus half of `b`. */
  function NearestTenths(a: int, b: int, t: int, e: int): int
    requires b > 0
    decreases -e
  {
    if 2 * e < -b then NearestTenths(a, b, t + 1, e + b)
    else if 2 * e == -b && t % 2 != 0 then t + 1
    else t
  }

  /** Counting up stops at the integer nearest to `1000 * a / b`, the even one
      on a tie. */
  lemma {:induction false} NearestTenthsCorrect(a: int, b: int, t: int, e: int)
    requires b > 0 && t >= 0
    requires e == t * b - 1000 * a
    requires 2 * e < b
    ensures var r := NearestTenths(a, b, t, e);
      && r >= t
      && -b <= 2 * (r * b - 1000 * a) <= b
      && ((2 * (r * b - 1000 * a) == b || 2 * (r * b - 1000 * a) == -b) ==> r % 2 == 0)
    decreases -e
  {
    if 2 * e < -b {
      assert e + b == (t + 1) * b - 1000 * a;
      NearestTenthsCorrect(a, b, t + 1, e + b);
    } else if 2 * e == -b && t % 2 != 0 {
      assert (t + 1) * b - 1000 * a == e + b;
    }
  }

  /** `round(a / b * 100, 1)` counted in tenths, for `0 <= a <= b`: the integer
      nearest to `1000 * a / b`, the even one on a tie. */
  function PercentTenths(a: int, b: int): (t: int)
    requires 0 <= a <= b && b > 0
    ensures 0 <= t <= 1000
    ensures a == b ==> t == 1000
    ensures a == 0 ==> t == 0
  {
    NearestTenthsCorrect(a, b, 0, -1000 * a);
    var t := NearestTenths(a, b, 0, -1000 * a);
    TenthsBounds(a, b, t);
    t
  }

  lemma TenthsBounds(a: int, b: int, t: int)
    requires 0 <= a <= b && b > 0 && t >= 0
    requires -b <= 2 * (t * b - 1000 * a) <= b
    ensures t <= 1000
    ensures a == b ==> t == 1000
    ensures a == 0 ==> t == 0
  {
    if t > 1000 {
      MulAtLeast(t, 1001, b);
    }
    if a == b && t < 1000 {
      MulAtLeast(999, t, b);
    }
    if a == 0 && t > 0 {
      MulAtLeast(t, 1, b);
    }
  }

  lemma MulAtLeast(x: int, y: int, b: int)
    requires x >= y && b > 0
    ensures x * b >= y * b
  {
    assert x * b - y * b == (x - y) * b;
  }

  /** `t` is the integer nearest to `1000 * a / b`, the even one on a tie:
      `round(a / b * 100, 1)` counted in tenths. */
  predicate NearestTenth(t: int, a: int, b: int)
  {
    var e := 2 * (t * b - 1000 * a);
    && -b <= e <= b
    && ((e == b || e == -b) ==> t % 2 == 0)
  }

  /** The tenths are the integer nearest to `1000 * a / b`, the even one on a
      tie: Python's round-half-to-even. */
  lemma PercentTenthsNearest(a: int, b: int)
    requires 0 <= a <= b && b > 0
    ensures NearestTenth(PercentTenths(a, b), a, b)
  {
    NearestTenthsCorrect(a, b, 0, -1000 * a);
  }

  /** Where `current` sits in the range `[lo, hi]`, in tenths of a percent:
      1000 at the top, 0 at the bottom, and in between the whole number of
      tenths nearest to `1000 * (current - lo) / (hi - lo)`, the even one on
      a tie. */
  function RangePosition(current: int, lo: int, hi: int): (idx: int)
    requires lo <= current <= hi && lo < hi
    ensures 0 <= idx <= 1000
    ensures current == hi ==> idx == 1000
    ensures current == lo ==> idx == 0
    ensures NearestTenth(idx, current - lo, hi - lo)
  {
    PercentTenthsNearest(current - lo, hi - lo);
    PercentTenths(current - lo, hi - lo)
  }

  /** The latest position lies within the range of the last 52 weeks. */
  lemma LatestWithinWindow(net: seq<int>)
    requires |net| > 0
    ensures Min(Window52(net)) <= net[|net| - 1] <= Max(Window52(net))
  {
    var w := Window52(net);
    assert net[|net| - 1] == w[|w| - 1];
  }

  /** `calculate_cot_index`: where the latest net position sits in the range of
      the last 52 weeks, in percent rounded to one decimal, here counted in
      tenths (`500` is the source's `50.0`). Neutral 50% when there is no range. */
  function CotIndex(net: seq<int>): (idx: int)
    ensures 0 <= idx <= 1000
    ensures |net| < 2 ==> idx == 500
    ensures |net| >= 2 && Min(Window52(net)) == Max(Window52(net)) ==> idx == 500
    ensures |net| >= 2 && Min(Window52(net)) < Max(Window52(net)) ==>
      (net[|net| - 1] == Max(Window52(net)) ==> idx == 1000)
      && (net[|net| - 1] == Min(Window52(net)) ==> idx == 0)
    ensures |net| >= 2 && Min(Window52(net)) < Max(Window52(net)) ==>
      NearestTenth(idx, net[|net| - 1] - Min(Window52(net)), Max(Window52(net)) - Min(Window52(net)))
  {
    if |net| < 2 then 500
    else
      LatestWithinWindow(net);
      WindowPosition(Window52(net), net[|net| - 1])
  }

  /** The position of `current` in the range of the window `w`; 500 when the
      range is empty. */
  function WindowPosition(w: seq<int>, current: int): (idx: int)
    requires |w| > 0 && Min(w) <= current <= Max(w)
    ensures 0 <= idx <= 1000
    ensures Min(w) == Max(w) ==> idx == 500
    ensures Min(w) < Max(w) ==>
      && (current == Max(w) ==> idx == 1000)
      && (current == Min(w) ==> idx == 0)
      && NearestTenth(idx, current - Min(w), Max(w) - Min(w))
  {
    var lo, hi := Min(w), Max(w);
    if hi == lo then 500 else RangePosition(current, lo, hi)
  }

  // ---------------------------------------------------------------------------
  // Momentum
  // ---------------------------------------------------------------------------

  datatype MomentumStatus = MomentumOk | InsufficientData

  /** The momentum record; every number went through Python's `int(...)`. */
  datatype Momentum = Momentum(
    deltaCurrent: int,
    ma4Delta: int,
    deviation: int,
    percentile25: int,
    percentile75: int,
    status: MomentumStatus)

  const NoMomentum: Momentum := Momentum(0, 0, 0, 0, 0, InsufficientData)

  /** `calculate_momentum`: the latest weekly delta against the mean of the four
      deltas before it, and the 25th/75th percentiles of the last 52 deltas as
      `percentile(deltas, q)` (numpy's interpolation is not modelled). With fewer
      than six positions every field is 0. The mean of four consecutive deltas
      is a quarter of the change over those four weeks. */
  function CalculateMomentum(net: seq<int>, percentile: (seq<int>, real) -> real): (m: Momentum)
    ensures m.status == InsufficientData <==> |net| < MomentumMaWeeks + 2
    ensures |net| < MomentumMaWeeks + 2 ==> m == NoMomentum
    ensures |net| >= MomentumMaWeeks + 2 ==>
      var n := |net|;
      var ma := (net[n - 2] - net[n - 6]) as real / 4.0;
      && m.deltaCurrent == net[n - 1] - net[n - 2]
      && m.ma4Delta == Trunc(ma)
      && m.deviation == Trunc(m.deltaCurrent as real - ma)
      && m.percentile25 == Trunc(percentile(Window52(Deltas(net)), 25.0))
      && m.percentile75 == Trunc(percentile(Window52(Deltas(net)), 75.0))
  {
    if |net| < MomentumMaWeeks + 2 then NoMomentum
    else
      // Here there are at least five deltas, so the source's second guard
      // (fewer than four deltas) and its fallback mean over `deltas[:-1]`
      // are never reached.
      var deltas := Deltas(net);
      var n := |deltas|;
      var current := deltas[n - 1];
      var ma4 := Mean(deltas[n - 5..n - 1]);
      MeanOfFourDeltas(net);
      var d52 := Window52(deltas);
      Momentum(current, Trunc(ma4), Trunc(current as real - ma4),
               Trunc(percentile(d52, 25.0)), Trunc(percentile(d52, 75.0)), MomentumOk)
  }

  // ---------------------------------------------------------------------------
  // Unified COT score
  // ---------------------------------------------------------------------------

  datatype Intensity = High | Medium | Low
  datatype Direction = Positive | Stable | Negative

  /** Intensity band of the COT Index (in tenths): above 70%, 30% to 70%,
      below 30%. */
  function IntensityOf(cotIndex: int): (i: Intensity)
    ensures i == High <==> cotIndex > 700
    ensures i == Medium <==> 300 <= cotIndex <= 700
    ensures i == Low <==> cotIndex < 300
  {
    if cotIndex > 700 then High
    else if cotIndex >= 300 then Medium
    else Low
  }

  /** Momentum direction: stable without usable momentum, else the latest delta
      against the 75th and 25th percentiles. */
  function DirectionOf(m: Momentum): (d: Direction)
    ensures m.status != MomentumOk ==> d == Stable
    ensures m.status == MomentumOk ==> (d == Positive <==> m.deltaCurrent > m.percentile75)
    ensures m.status == MomentumOk ==>
      (d == Negative <==> m.deltaCurrent <= m.percentile75 && m.deltaCurrent < m.percentile25)
  {
    if m.status != MomentumOk then Stable
    else if m.deltaCurrent > m.percentile75 then Positive
    else if m.deltaCurrent < m.percentile25 then Negative
    else Stable
  }

  /** The decision table (long/short, intensity, direction) -> score. */
  function ScoreTable(isLong: bool, i: Intensity, d: Direction): (s: int)
    ensures -2 <= s <= 2
    ensures s == 2 <==> isLong && i == High && d == Positive
    ensures s == -2 <==> !isLong && i == Low && d == Negative
  {
    if isLong then
      match i
      case High => (match d case Positive => 2 case Stable => 1 case Negative => 0)
      case Medium => (match d case Positive => 1 case Stable => 0 case Negative => -1)
      case Low => (match d case Positive => 1 case Stable => 0 case Negative => -1)
    else
      match i
      case Low => (match d case Negative => -2 case Stable => -1 case Positive => 0)
      case Medium => (match d case Negative => -1 case Stable => 0 case Positive => 1)
      case High => (match d case Negative => -1 case Stable => 0 case Positive => 1)
  }

  function SwapIntensity(i: Intensity): Intensity
  {
    match i case High => Low case Medium => Medium case Low => High
  }

  function FlipDirection(d: Direction): Direction
  {
    match d case Positive => Negative case Stable => Stable case Negative => Positive
  }

  function DirectionRank(d: Direction): int
  {
    match d case Positive => 1 case Stable => 0 case Negative => -1
  }

  /** The short half of the table mirrors the long half: swap the high and low
      bands, flip the direction and negate the score. */
  lemma ScoreTableMirror(i: Intensity, d: Direction)
    ensures ScoreTable(true, i, d) == -ScoreTable(false, SwapIntensity(i), FlipDirection(d))
  {
  }

  /** For fixed side and band, a stronger direction never lowers the score. */
  lemma ScoreTableMonotone(isLong: bool, i: Intensity, d1: Direction, d2: Direction)
    requires DirectionRank(d1) <= DirectionRank(d2)
    ensures ScoreTable(isLong, i, d1) <= ScoreTable(isLong, i, d2)
  {
  }

  /** The `details` and `cot_score` of `calculate_scores` (the interpretation
      text is determined by the same three inputs and is not modelled). */
  datatype CotScores = CotScores(
    cotScore: int,
    netPosition: int,
    isLong: bool,
    cotIndex: int,
    intensity: Intensity,
    direction: Direction)

  /** `calculate_scores`: a net position of 0 counts as short. */
  function CalculateScores(cotIndex: int, momentum: Momentum, netPosition: int): (r: CotScores)
    ensures r.isLong <==> netPosition > 0
    ensures -2 <= r.cotScore <= 2
    ensures r.cotScore == 2 <==>
      netPosition > 0 && cotIndex > 700 && momentum.status == MomentumOk
      && momentum.deltaCurrent > momentum.percentile75
    ensures r.cotScore == -2 <==>
      netPosition <= 0 && cotIndex < 300 && momentum.status == MomentumOk
      && momentum.deltaCurrent <= momentum.percentile75 && momentum.deltaCurrent < momentum.percentile25
    ensures momentum.status != MomentumOk ==> r.direction == Stable
    ensures r.netPosition == netPosition && r.cotIndex == cotIndex
    ensures r.intensity == IntensityOf(cotIndex) && r.direction == DirectionOf(momentum)
    ensures r.cotScore == ScoreTable(r.isLong, r.intensity, r.direction)
  {
    var isLong := netPosition > 0;
    var intensity := IntensityOf(cotIndex);
    var direction := DirectionOf(momentum);
    CotScores(ScoreTable(isLong, intensity, direction), netPosition, isLong, cotIndex, intensity, direction)
  }

  // ---------------------------------------------------------------------------
  // Per-currency analysis
  // ---------------------------------------------------------------------------

  /** One weekly row of the CFTC report, already sorted by date ascending. */
  datatype WeekRow = WeekRow(
    reportDate: string,
    netPosition: int,
    noncommLong: Option<int>,
    noncommShort: Option<int>)

  /** The rows downloaded for one currency. */
  datatype CurrencyFrame = CurrencyFrame(currency: string, rows: seq<WeekRow>)

  /** The per-currency entry of `analyze_all_currencies`. */
  datatype CurrencyAnalysis =
    | Insufficient(
        weeksAvailable: nat,
        netPosition: int,
        cotIndex: int,
        momentumStatus: MomentumStatus,
        indexScore: int,
        momentumScore: int,
        totalScore: int)
    | Analyzed(
        weeksAvailable: nat,
        reportDate: string,
        netPosition: int,
        netPositionPrev: int,
        noncommLong: Option<int>,
        noncommShort: Option<int>,
        cotIndex: int,
        min52w: int,
        max52w: int,
        momentum: Momentum,
        scores: CotScores)

  function NetPositions(rows: seq<WeekRow>): (net: seq<int>)
    ensures |net| == |rows|
    ensures forall k :: 0 <= k < |rows| ==> net[k] == rows[k].netPosition
  {
    seq(|rows|, k requires 0 <= k < |rows| => rows[k].netPosition)
  }

  /** One iteration of `analyze_all_currencies`: fewer than five weeks give the
      neutral placeholder; otherwise the latest position lies within the
      reported 52-week range, the index within [0, 1000] tenths and the score within
      [-2, +2]. */
  function AnalyzeCurrency(rows: seq<WeekRow>, percentile: (seq<int>, real) -> real): (a: CurrencyAnalysis)
    ensures a.Insufficient? <==> |rows| < MinWeeks
    ensures a.Insufficient? ==> a == Insufficient(|rows|, 0, 500, InsufficientData, 0, 0, 0)
    ensures a.Analyzed? ==>
      && a.weeksAvailable == |rows|
      && a.netPosition == rows[|rows| - 1].netPosition
      && a.netPositionPrev == rows[|rows| - 2].netPosition
      && a.min52w <= a.netPosition <= a.max52w
      && 0 <= a.cotIndex <= 1000
      && -2 <= a.scores.cotScore <= 2
      && a.scores.netPosition == a.netPosition
    ensures a.Analyzed? ==>
      && a.reportDate == rows[|rows| - 1].reportDate
      && a.noncommLong == rows[|rows| - 1].noncommLong
      && a.noncommShort == rows[|rows| - 1].noncommShort
      && a.cotIndex == CotIndex(NetPositions(rows))
      && a.min52w == Min(Window52(NetPositions(rows)))
      && a.max52w == Max(Window52(NetPositions(rows)))
      && a.momentum == CalculateMomentum(NetPositions(rows), percentile)
      && a.scores == CalculateScores(a.cotIndex, a.momentum, a.netPosition)
  {
    if |rows| < MinWeeks then
      Insufficient(|rows|, 0, 500, InsufficientData, 0, 0, 0)
    else
      var net := NetPositions(rows);
      var cotIndex := CotIndex(net);
      var momentum := CalculateMomentum(net, percentile);
      var current := net[|net| - 1];
      var w := Window52(net);
      LatestWithinWindow(net);
      var latest := rows[|rows| - 1];
      Analyzed(|rows|, latest.reportDate, current, rows[|rows| - 2].netPosition,
               latest.noncommLong, latest.noncommShort, cotIndex, Min(w), Max(w),
               momentum, CalculateScores(cotIndex, momentum, current))
  }

  /** The currency of each frame, in order. */
  function Currencies(frames: seq<CurrencyFrame>): (cs: seq<string>)
    ensures |cs| == |frames|
    ensures forall k :: 0 <= k < |frames| ==> cs[k] == frames[k].currency
  {
    seq(|frames|, k requires 0 <= k < |frames| => frames[k].currency)
  }

  /** The analysis of each frame, in order. */
  function Analyses(frames: seq<CurrencyFrame>, percentile: (seq<int>, real) -> real): (r: seq<CurrencyAnalysis>)
    ensures |r| == |frames|
    ensures forall k :: 0 <= k < |frames| ==> r[k] == AnalyzeCurrency(frames[k].rows, percentile)
  {
    seq(|frames|, k requires 0 <= k < |frames| => AnalyzeCurrency(frames[k].rows, percentile))
  }

  /** `frames[i]` is the last frame for its currency. */
  predicate LastFor(frames: seq<CurrencyFrame>, i: int)
  {
    IsLastOf(Currencies(frames), i)
  }

  /** `analyze_all_currencies` with the data supplied: one entry per currency,
      each the analysis of that currency's rows (a later frame for the same
      currency replaces an earlier one, as a dict assignment does). */
  function AnalyzeAll(frames: seq<CurrencyFrame>, percentile: (seq<int>, real) -> real): (r: map<string, CurrencyAnalysis>)
    ensures forall c :: c in r <==> c in Currencies(frames)
    ensures forall i :: LastFor(frames, i) ==> r[frames[i].currency] == AnalyzeCurrency(frames[i].rows, percentile)
  {
    AssignAll(Currencies(frames), Analyses(frames, percentile))
  }

  // ---------------------------------------------------------------------------
  // The manager object and its debug log
  // ---------------------------------------------------------------------------

  datatype LogLevel = Info | Warning | Error

  /** A debug-log line, by what it reports (the timestamp is not modelled). */
  datatype LogMessage =
    | UpdateStarted
    | NoDataDownloaded
    | TooFewWeeks(currency: string, weeks: nat)
    | CurrencySummary(currency: string, netPosition: int, cotIndex: int, cotScore: int, weeks: nat)
    | UpdateCompleted
    | DownloadNote(text: string)

  datatype LogEntry = LogEntry(level: LogLevel, message: LogMessage)

  /** The log line `analyze_all_currencies` writes for one currency. */
  function AnalysisEntry(f: CurrencyFrame, percentile: (seq<int>, real) -> real): LogEntry
  {
    match AnalyzeCurrency(f.rows, percentile)
    case Insufficient(weeks, _, _, _, _, _, _) => LogEntry(Warning, TooFewWeeks(f.currency, weeks))
    case Analyzed(weeks, _, net, _, _, _, idx, _, _, _, scores) =>
      LogEntry(Info, CurrencySummary(f.currency, net, idx, scores.cotScore, weeks))
  }

  /** The log lines for a whole run, in frame order. */
  function AnalysisLog(frames: seq<CurrencyFrame>, percentile: (seq<int>, real) -> real): (log: seq<LogEntry>)
    ensures |log| == |frames|
    ensures forall k :: 0 <= k < |frames| ==> log[k] == AnalysisEntry(frames[k], percentile)
  {
    seq(|frames|, k requires 0 <= k < |frames| => AnalysisEntry(frames[k], percentile))
  }

  /** The result of `fetch_and_update` (`last_update` is a timestamp and is not
      modelled). */
  datatype CotReport =
    | NoReport
    | ErrorReport(message: string, debug: seq<LogEntry>)
    | OkReport(currencies: map<string, CurrencyAnalysis>, fetchStatus: map<string, string>,
               debug: seq<LogEntry>)

  /** `COTDataManager`: its debug log and the per-currency status of the last
      CFTC download. */
  class CotDataManager {
    var debugMessages: seq<LogEntry>
    var lastFetchStatus: map<string, string>

    constructor ()
      ensures debugMessages == [] && lastFetchStatus == map[]
    {
      debugMessages := [];
      lastFetchStatus := map[];
    }

    /** `get_debug_log` */
    method GetDebugLog() returns (log: seq<LogEntry>)
      ensures log == debugMessages
    {
      log := debugMessages;
    }

    /** `clear_debug_log` */
    method ClearDebugLog()
      modifies this
      ensures debugMessages == [] && lastFetchStatus == old(lastFetchStatus)
    {
      debugMessages := [];
    }

    /** `_log_debug` (the timestamp and the console echo are not modelled) */
    method LogDebug(entry: LogEntry)
      modifies this
      ensures debugMessages == old(debugMessages) + [entry]
      ensures lastFetchStatus == old(lastFetchStatus)
    {
      debugMessages := debugMessages + [entry];
    }

    /** `analyze_all_currencies(data)`: fills the result dict currency by
        currency and logs one line for each. */
    method AnalyzeAllCurrencies(frames: seq<CurrencyFrame>, percentile: (seq<int>, real) -> real)
      returns (results: map<string, CurrencyAnalysis>)
      modifies this
      ensures results == AnalyzeAll(frames, percentile)
      ensures debugMessages == old(debugMessages) + AnalysisLog(frames, percentile)
      ensures lastFetchStatus == old(lastFetchStatus)
    {
      results := map[];
      var i := 0;
      while i < |frames|
        invariant 0 <= i <= |frames|
        invariant results == AssignAll(Currencies(frames)[..i], Analyses(frames, percentile)[..i])
        invariant debugMessages == old(debugMessages) + AnalysisLog(frames, percentile)[..i]
        invariant lastFetchStatus == old(lastFetchStatus)
      {
        var f := frames[i];
        var a := AnalyzeCurrency(f.rows, percentile);
        AssignAllStep(Currencies(frames), Analyses(frames, percentile), i);
        results := results[f.currency := a];
        LogDebug(AnalysisEntry(f, percentile));
        AppendNext(old(debugMessages), AnalysisLog(frames, percentile), i);
        i := i + 1;
      }
      assert Currencies(frames)[..|frames|] == Currencies(frames);
      assert Analyses(frames, percentile)[..|frames|] == Analyses(frames, percentile);
      assert AnalysisLog(frames, percentile)[..|frames|] == AnalysisLog(frames, percentile);
    }

    /** What `fetch_cot_from_cftc` leaves on the manager besides its frames:
        the lines it logged, after the existing ones, and the per-currency
        statuses it recorded, over the old ones. */
    method RecordDownload(downloadLog: seq<LogEntry>, downloadStatus: map<string, string>)
      modifies this
      ensures debugMessages == old(debugMessages) + downloadLog
      ensures lastFetchStatus == old(lastFetchStatus) + downloadStatus
    {
      debugMessages := debugMessages + downloadLog;
      lastFetchStatus := lastFetchStatus + downloadStatus;
    }

    /** `fetch_and_update`, with the CFTC download given as its frames, the
        lines it logged and the per-currency status it recorded: starts a
        fresh log, reports an error when nothing was downloaded, and otherwise
        the analysis of every frame. */
    method FetchAndUpdate(downloaded: seq<CurrencyFrame>, downloadLog: seq<LogEntry>,
                          downloadStatus: map<string, string>,
                          percentile: (seq<int>, real) -> real)
      returns (report: CotReport)
      modifies this
      ensures lastFetchStatus == old(lastFetchStatus) + downloadStatus
      ensures |downloaded| == 0 ==> report == ErrorReport(NoDataMessage, debugMessages)
      ensures |downloaded| > 0 ==>
        report == OkReport(AnalyzeAll(downloaded, percentile), lastFetchStatus, debugMessages)
      ensures |downloaded| == 0 ==>
        debugMessages == [LogEntry(Info, UpdateStarted)] + downloadLog
                         + [LogEntry(Error, NoDataDownloaded)]
      ensures |downloaded| > 0 ==>
        debugMessages == [LogEntry(Info, UpdateStarted)] + downloadLog
                         + AnalysisLog(downloaded, percentile) + [LogEntry(Info, UpdateCompleted)]
    {
      ClearDebugLog();
      LogDebug(LogEntry(Info, UpdateStarted));
      RecordDownload(downloadLog, downloadStatus);
      ghost var head := debugMessages;
      assert head == [LogEntry(Info, UpdateStarted)] + downloadLog;
      if |downloaded| == 0 {
        LogDebug(LogEntry(Error, NoDataDownloaded));
        report := ErrorReport(NoDataMessage, debugMessages);
        return;
      }
      var analysis := AnalyzeAllCurrencies(downloaded, percentile);
      assert debugMessages == head + AnalysisLog(downloaded, percentile);
      LogDebug(LogEntry(Info, UpdateCompleted));
      report := OkReport(analysis, lastFetchStatus, debugMessages);
    }
  }

  const NoDataMessage: string := "Impossibile scaricare dati dalla CFTC"

  // ---------------------------------------------------------------------------
  // Reading the analysis back
  // ---------------------------------------------------------------------------

  /** `get_cot_scores_for_currency`: the currency's unified score, 0 unless the
      report is ok and the currency was analysed. */
  function CotScoreFor(report: CotReport, currency: string): (s: int)
    ensures s != 0 ==> report.OkReport? && currency in report.currencies
                       && report.currencies[currency].Analyzed?
    ensures report.OkReport? && currency in report.currencies && report.currencies[currency].Analyzed? ==>
      s == report.currencies[currency].scores.cotScore
  {
    if !report.OkReport? then 0
    else if currency !in report.currencies then 0
    else match report.currencies[currency]
      case Insufficient(_, _, _, _, _, _, _) => 0
      case Analyzed(_, _, _, _, _, _, _, _, _, _, scores) => scores.cotScore
  }

  /** For a report built by the analysis, the score read back is in [-2, +2]
      and is 0 for a currency with fewer than five weeks or without data. */
  lemma CotScoreOfAnalysis(frames: seq<CurrencyFrame>, percentile: (seq<int>, real) -> real,
                           status: map<string, string>, debug: seq<LogEntry>, i: nat)
    requires LastFor(frames, i)
    ensures var s := CotScoreFor(OkReport(AnalyzeAll(frames, percentile), status, debug), frames[i].currency);
      && -2 <= s <= 2
      && (|frames[i].rows| < MinWeeks ==> s == 0)
  {
  }

  /** The currencies of the display table, in display order. */
  const DisplayOrder: seq<string> := ["USD", "EUR", "GBP", "JPY", "CHF", "AUD", "CAD"]

  /** One row of the display table, with its numbers unformatted. */
  datatype DisplayRow =
    | NotAvailableRow(currency: string, weeks: nat)
    | DataRow(currency: string, netPosition: int, cotIndex: int, deltaCurrent: int,
              ma4Delta: int, percentile75: int, weeks: nat)

  /** The row for one currency: "N/A" unless it was analysed, with the weeks
      available (0 for a currency missing from the report). */
  function RowFor(currencies: map<string, CurrencyAnalysis>, c: string): (row: DisplayRow)
    ensures row.currency == c
    ensures row.DataRow? <==> c in currencies && currencies[c].Analyzed?
    ensures c !in currencies ==> row == NotAvailableRow(c, 0)
    ensures c in currencies && currencies[c].Insufficient? ==>
      row == NotAvailableRow(c, currencies[c].weeksAvailable)
    ensures c in currencies && currencies[c].Analyzed? ==>
      var a := currencies[c];
      row == DataRow(c, a.netPosition, a.cotIndex, a.momentum.deltaCurrent,
                     a.momentum.ma4Delta, a.momentum.percentile75, a.weeksAvailable)
  {
    if c !in currencies then NotAvailableRow(c, 0)
    else match currencies[c]
      case Insufficient(weeks, _, _, _, _, _, _) => NotAvailableRow(c, weeks)
      case Analyzed(weeks, _, net, _, _, _, idx, _, _, m, _) =>
        DataRow(c, net, idx, m.deltaCurrent, m.ma4Delta, m.percentile75, weeks)
  }

  /** `format_cot_for_display`: nothing unless the report is ok, else exactly
      one row per currency in the fixed display order. */
  method FormatCotForDisplay(report: CotReport) returns (rows: seq<DisplayRow>)
    ensures !report.OkReport? ==> rows == []
    ensures report.OkReport? ==> |rows| == |DisplayOrder| == 7
    ensures report.OkReport? ==>
      forall k :: 0 <= k < |rows| ==>
        rows[k].currency == DisplayOrder[k] && rows[k] == RowFor(report.currencies, DisplayOrder[k])
  {
    rows := [];
    if !report.OkReport? {
      return;
    }
    var i := 0;
    while i < |DisplayOrder|
      invariant 0 <= i <= |DisplayOrder|
      invariant |rows| == i
      invariant forall k :: 0 <= k < i ==> rows[k] == RowFor(report.currencies, DisplayOrder[k])
    {
      rows := rows + [RowFor(report.currencies, DisplayOrder[i])];
      i := i + 1;
    }
  }
}
