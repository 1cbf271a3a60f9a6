/** The deterministic helpers of the Streamlit app `forex_analyzer_claude.py`:
    bias icons, date formatting, cleaning the model's JSON reply, the local
    analysis history, the score totals of the detail view and the
    TradingEconomics indicator table reader. */
module ForexAnalyzer {
  import opened Common
  import opened Text

  // ---------------------------------------------------------------------------
  // get_bias_color
  // ---------------------------------------------------------------------------

  datatype BiasIcon = DoubleGreen | Green | DoubleRed | Red | White

  function AbsInt(x: int): nat
  {
    if x < 0 then -x else x
  }

  /** `get_bias_color(bias, diff)`: green for "bullish", red for "bearish",
      doubled from a differential of 4 either way; white for any other bias. */
  function GetBiasColor(bias: string, diff: int): (icon: BiasIcon)
    ensures icon == DoubleGreen <==> bias == "bullish" && AbsInt(diff) >= 4
    ensures icon == Green <==> bias == "bullish" && AbsInt(diff) < 4
    ensures icon == DoubleRed <==> bias == "bearish" && AbsInt(diff) >= 4
    ensures icon == Red <==> bias == "bearish" && AbsInt(diff) < 4
    ensures icon == White <==> bias != "bullish" && bias != "bearish"
  {
    if bias == "bullish" then (if AbsInt(diff) >= 4 then DoubleGreen else Green)
    else if bias == "bearish" then (if AbsInt(diff) >= 4 then DoubleRed else Red)
    else White
  }

  function Mirror(icon: BiasIcon): BiasIcon
  {
    match icon
    case DoubleGreen => DoubleRed
    case Green => Red
    case DoubleRed => DoubleGreen
    case Red => Green
    case White => White
  }

  /** The icon depends on the size of the differential, not its sign, and
      swapping "bullish" for "bearish" swaps green for red. */
  lemma BiasColorSymmetry(diff: int)
    ensures forall bias :: GetBiasColor(bias, -diff) == GetBiasColor(bias, diff)
    ensures GetBiasColor("bearish", diff) == Mirror(GetBiasColor("bullish", diff))
  {
  }

  // ---------------------------------------------------------------------------
  // Dates: strptime("%Y-%m-%d") and strftime("%d/%m/%Y")
  // ---------------------------------------------------------------------------

  datatype Date = Date(year: int, month: int, day: int)

  predicate IsLeap(y: int)
  {
    y % 4 == 0 && (y % 100 != 0 || y % 400 == 0)
  }

  function DaysInMonth(y: int, m: int): int
    requires 1 <= m <= 12
  {
    if m == 2 then (if IsLeap(y) then 29 else 28)
    else if m == 4 || m == 6 || m == 9 || m == 11 then 30
    else 31
  }

  /** A date `datetime` accepts: year 1 to 9999, a real day of its month. */
  predicate ValidDate(d: Date)
  {
    1 <= d.year <= 9999 && 1 <= d.month <= 12 && 1 <= d.day <= DaysInMonth(d.year, d.month)
  }

  function DigitOf(c: char): int
  {
    c as int - '0' as int
  }

  function DigitChar(n: int): char
    requires 0 <= n <= 9
  {
    ('0' as int + n) as char
  }

  /** `%Y` in strptime: exactly four digits. */
  function YearField(s: string): (y: Option<int>)
    ensures y.Some? ==> 0 <= y.value <= 9999
  {
    if |s| == 4 && AllDigits(s) then
      Some(1000 * DigitOf(s[0]) + 100 * DigitOf(s[1]) + 10 * DigitOf(s[2]) + DigitOf(s[3]))
    else None
  }

  /** `%m` in strptime when a `-` follows: `1`-`9`, `01`-`09` or `10`-`12`. */
  function MonthField(s: string): (m: Option<int>)
    ensures m.Some? ==> 1 <= m.value <= 12
  {
    if |s| == 1 && '1' <= s[0] <= '9' then Some(DigitOf(s[0]))
    else if |s| == 2 && s[0] == '0' && '1' <= s[1] <= '9' then Some(DigitOf(s[1]))
    else if |s| == 2 && s[0] == '1' && '0' <= s[1] <= '2' then Some(10 + DigitOf(s[1]))
    else None
  }

  /** `%d` in strptime at the end of the input: `30`, `31`, `10`-`29`,
      `01`-`09`, `1`-`9`, or a space and `1`-`9`. */
  function DayField(s: string): (d: Option<int>)
    ensures d.Some? ==> 1 <= d.value <= 31
  {
    if |s| == 2 && s[0] == '3' && (s[1] == '0' || s[1] == '1') then Some(30 + DigitOf(s[1]))
    else if |s| == 2 && (s[0] == '1' || s[0] == '2') && IsDigit(s[1]) then Some(10 * DigitOf(s[0]) + DigitOf(s[1]))
    else if |s| == 2 && s[0] == '0' && '1' <= s[1] <= '9' then Some(DigitOf(s[1]))
    else if |s| == 1 && '1' <= s[0] <= '9' then Some(DigitOf(s[0]))
    else if |s| == 2 && s[0] == ' ' && '1' <= s[1] <= '9' then Some(DigitOf(s[1]))
    else None
  }

  /** `datetime.strptime(s, "%Y-%m-%d")`, or None where it raises: four year
      digits, `-`, the month up to the next `-`, the day up to the end, and a
      date that exists. */
  function ParseDate(s: string): (d: Option<Date>)
    ensures d.Some? ==> ValidDate(d.value)
  {
    if |s| < 5 || s[4] != '-' || '-' !in s[5..] then None
    else
      var rest := s[5..];
      var j := FirstIndexOfChar(rest, '-');
      match (YearField(s[..4]), MonthField(rest[..j]), DayField(rest[j + 1..]))
      case (Some(y), Some(m), Some(day)) =>
        var date := Date(y, m, day);
        if ValidDate(date) then Some(date) else None
      case _ => None
  }

  function Pad2(n: int): (s: string)
    requires 0 <= n <= 99
    ensures |s| == 2 && AllDigits(s)
    ensures 10 * DigitOf(s[0]) + DigitOf(s[1]) == n
  {
    [DigitChar(n / 10), DigitChar(n % 10)]
  }

  function Pad4(n: int): (s: string)
    requires 0 <= n <= 9999
    ensures |s| == 4 && AllDigits(s)
    ensures 1000 * DigitOf(s[0]) + 100 * DigitOf(s[1]) + 10 * DigitOf(s[2]) + DigitOf(s[3]) == n
  {
    var hi := Pad2(n / 100);
    var lo := Pad2(n % 100);
    assert 100 * (n / 100) + n % 100 == n;
    hi + lo
  }

  /** The canonical `YYYY-MM-DD` text of a date. */
  function IsoDate(d: Date): (s: string)
    requires ValidDate(d)
    ensures |s| == 10 && s[4] == '-' && s[7] == '-' && '_' !in s
  {
    Pad4(d.year) + "-" + Pad2(d.month) + "-" + Pad2(d.day)
  }

  /** `strftime("%d/%m/%Y")` */
  function ItalianDate(d: Date): (s: string)
    requires ValidDate(d)
    ensures |s| == 10 && s[2] == '/' && s[5] == '/'
  {
    Pad2(d.day) + "/" + Pad2(d.month) + "/" + Pad4(d.year)
  }

  /** Every date comes back from its canonical text. */
  lemma ParseIsoDate(d: Date)
    requires ValidDate(d)
    ensures ParseDate(IsoDate(d)) == Some(d)
  {
    var s := IsoDate(d);
    var rest := s[5..];
    assert rest == Pad2(d.month) + "-" + Pad2(d.day);
    assert rest[2] == '-' && '-' !in rest[..2];
    assert FirstIndexOfChar(rest, '-') == 2;
    assert s[..4] == Pad4(d.year);
    assert rest[..2] == Pad2(d.month);
    assert rest[3..] == Pad2(d.day);
    var m := Pad2(d.month);
    assert MonthField(m) == Some(d.month);
    var dd := Pad2(d.day);
    assert DayField(dd) == Some(d.day);
  }

  /** `format_date_ita(date_str)`: the date as `DD/MM/YYYY`, or the input
      unchanged when strptime rejects it. */
  function FormatDateIta(s: string): (r: string)
    ensures ParseDate(s).None? ==> r == s
    ensures ParseDate(s).Some? ==> r == ItalianDate(ParseDate(s).value)
  {
    match ParseDate(s)
    case Some(d) => ItalianDate(d)
    case None => s
  }

  /** `YYYY-MM-DD` becomes `DD/MM/YYYY`, reusing the same digits. */
  lemma FormatDateItaOfIso(d: Date)
    requires ValidDate(d)
    ensures var s := IsoDate(d);
            FormatDateIta(s) == s[8..10] + "/" + s[5..7] + "/" + s[..4]
  {
    ParseIsoDate(d);
    var s := IsoDate(d);
    assert s[8..10] == Pad2(d.day);
    assert s[5..7] == Pad2(d.month);
    assert s[..4] == Pad4(d.year);
  }

  /** `format_datetime_display(datetime_str)`: `DATE_TIME` becomes the Italian
      date, a space and the time with `-` turned into `:`; text without `_` is
      formatted like `format_date_ita`; anything else is returned unchanged. */
  function FormatDatetimeDisplay(s: string): (r: string)
    ensures CountChar(s, '_') >= 2 ==> r == s
    ensures '_' !in s ==> r == FormatDateIta(s)
    ensures '_' in s && CountChar(s, '_') == 1 ==>
      var i := FirstIndexOfChar(s, '_');
      && (ParseDate(s[..i]).None? ==> r == s)
      && (ParseDate(s[..i]).Some? ==>
            r == ItalianDate(ParseDate(s[..i]).value) + " " + ReplaceChar(s[i + 1..], '-', ':'))
  {
    if '_' in s then
      SplitOnce(s, '_');
      var parts := Split(s, '_');
      if |parts| != 2 then s
      else
        match ParseDate(parts[0])
        case Some(d) => ItalianDate(d) + " " + ReplaceChar(parts[1], '-', ':')
        case None => s
    else
      CountNone(s, '_');
      FormatDateIta(s)
  }

  /** A text with one separator splits into what comes before and after it. */
  lemma SplitOnce(s: string, sep: char)
    requires sep in s
    ensures CountChar(s, sep) == 1 ==>
      var i := FirstIndexOfChar(s, sep);
      Split(s, sep) == [s[..i], s[i + 1..]]
  {
    var i := FirstIndexOfChar(s, sep);
    CountSplit(s, sep, i);
    if CountChar(s, sep) == 1 {
      if sep in s[i + 1..] {
        CountPositive(s[i + 1..], sep);
      }
      assert s == s[..i] + [sep] + s[i + 1..];
      SplitAtOnly(s[..i], s[i + 1..], sep);
    }
  }

  /** Splitting at the only separator gives back the two sides. */
  lemma SplitAtOnly(a: string, b: string, sep: char)
    requires sep !in a && sep !in b
    ensures Split(a + [sep] + b, sep) == [a, b]
  {
    var s := a + [sep] + b;
    CountNone(a, sep);
    CountNone(b, sep);
    CountSplit(s, sep, |a|);
    assert s[|a| + 1..] == b;
    var parts := Split(s, sep);
    assert |parts| == 2;
    var p := parts[0];
    assert Join(parts, sep) == p + [sep] + parts[1];
    assert forall k :: 0 <= k < |p| ==> s[k] == p[k] && p[k] != sep;
    assert s[|p|] == sep;
    assert forall k :: 0 <= k < |a| ==> s[k] == a[k] && a[k] != sep;
    assert s[|a|] == sep;
    assert |p| == |a|;
    assert p == s[..|a|] == a;
    assert parts[1] == s[|a| + 1..];
  }

  /** `YYYY-MM-DD_HH-MM` is displayed as `DD/MM/YYYY HH:MM`. */
  lemma FormatDatetimeOfStamp(d: Date, hh: string, mm: string)
    requires ValidDate(d)
    requires |hh| == 2 && |mm| == 2 && AllDigits(hh) && AllDigits(mm)
    ensures FormatDatetimeDisplay(IsoDate(d) + "_" + hh + "-" + mm)
            == ItalianDate(d) + " " + hh + ":" + mm
  {
    var time := hh + "-" + mm;
    var stamp := IsoDate(d) + "_" + hh + "-" + mm;
    assert '_' !in time;
    assert stamp == IsoDate(d) + ['_'] + time;
    assert stamp[10] == '_';
    SplitAtOnly(IsoDate(d), time, '_');
    ParseIsoDate(d);
    var shown := ReplaceChar(time, '-', ':');
    assert shown == hh + ":" + mm;
    assert FormatDatetimeDisplay(stamp) == ItalianDate(d) + " " + shown;
  }

  // ---------------------------------------------------------------------------
  // Cleaning the model's reply (analyze_all_pairs)
  // ---------------------------------------------------------------------------

  const Fence := "```"
  const JsonFence := "```json"

  /** The text before the first `pat` contains no `pat`. */
  lemma BeforeExcludes(s: string, pat: string)
    requires |pat| > 0
    ensures !Contains(Before(s, pat), pat)
  {
    var r := Before(s, pat);
    forall j | 0 <= j <= |r|
      ensures !OccursAt(r, pat, j)
    {
      if j + |pat| <= |r| {
        assert r == s[..|r|];
        assert r[j..j + |pat|] == s[j..j + |pat|];
        assert !OccursAt(s, pat, j);
      }
    }
  }

  /** A "```json" fence is also a fence. */
  lemma JsonFenceIsFence(t: string)
    requires Contains(t, JsonFence)
    ensures Contains(t, Fence)
  {
    var i := IndexOf(t, JsonFence).value;
    assert t[i..i + |Fence|] == t[i..i + |JsonFence|][..|Fence|];
    assert OccursAt(t, Fence, i);
  }

  /** What remains of the reply once markdown fences are dropped: after the
      first "```json" fence, the text up to the next "```json" and then up to
      its first fence; otherwise, when the reply has a fence, the text between
      its first two fences; otherwise all of it. A fenced reply leaves no fence
      behind. */
  function FenceContent(t: string): (r: string)
    ensures !Contains(t, Fence) ==> r == t
    ensures Contains(t, Fence) ==> !Contains(r, Fence)
    ensures Contains(t, JsonFence) ==>
      r == Before(Before(t[IndexOf(t, JsonFence).value + |JsonFence|..], JsonFence), Fence)
    ensures !Contains(t, JsonFence) && Contains(t, Fence) ==> r == Between(t, Fence)
  {
    if Contains(t, JsonFence) then
      var piece := Before(t[IndexOf(t, JsonFence).value + |JsonFence|..], JsonFence);
      JsonFenceIsFence(t);
      BeforeExcludes(piece, Fence);
      Before(piece, Fence)
    else if Contains(t, Fence) then
      var i := IndexOf(t, Fence).value;
      BeforeExcludes(t[i + |Fence|..], Fence);
      Between(t, Fence)
    else t
  }

  /** A second "```json" cuts the kept text before any plain fence does:
      "```json1````json" keeps "1`". */
  lemma {:induction false} FenceContentSecondJsonFence()
    ensures FenceContent("```json1````json") == "1`"
  {
    var t := "```json1````json";
    assert OccursAt(t, JsonFence, 0);
    assert IndexOf(t, JsonFence) == Some(0);
    var rest := t[|JsonFence|..];
    assert rest == "1````json";
    assert OccursAt(rest, JsonFence, 2);
    assert rest[0..7][0] == '1' != JsonFence[0];
    assert rest[1..8][3] == '`' != JsonFence[3];
    assert IndexOf(rest, JsonFence) == Some(2);
    assert Before(rest, JsonFence) == "1`";
    assert IndexOf("1`", Fence).None?;
  }

  /** The reply has a `{` and, after it, a `}`. */
  predicate HasBraces(t: string)
  {
    '{' in t && '}' in t && LastIndexOfChar(t, '}').value > FirstIndexOfChar(t, '{')
  }

  /** The reply cut to run from its first `{` to its last `}` when there is
      such a span, and unchanged otherwise. */
  function BraceSpan(t: string): (r: string)
    ensures !HasBraces(t) ==> r == t
    ensures HasBraces(t) ==>
      var i := FirstIndexOfChar(t, '{');
      var j := LastIndexOfChar(t, '}').value;
      r == t[i..j + 1] && '{' !in t[..i] && '}' !in t[j + 1..]
    ensures HasBraces(t) ==> |r| >= 2 && r[0] == '{' && r[|r| - 1] == '}'
  {
    if HasBraces(t) then
      var i := FirstIndexOfChar(t, '{');
      var j := LastIndexOfChar(t, '}').value;
      t[i..j + 1]
    else t
  }

  /** The cleanup of the reply text before `json.loads`: drop the fences,
      strip whitespace, then cut to the outermost braces. */
  method CleanReply(reply: string) returns (text: string)
    ensures text == BraceSpan(Strip(FenceContent(reply)))
  {
    text := DropFences(reply);
    text := Strip(text);
    text := CutBraces(text);
  }

  /** The last step of `CleanReply`: slice from the first `{` to the last `}`. */
  method CutBraces(t: string) returns (text: string)
    ensures text == BraceSpan(t)
  {
    text := t;
    CutToBraces(text);
    if '{' in text && '}' in text {
      var start := FirstIndexOfChar(text, '{');
      var end := LastIndexOfChar(text, '}').value;
      if end > start {
        text := text[start..end + 1];
      }
    }
  }

  /** `BraceSpan` as the two steps of the cleanup compute it. */
  lemma CutToBraces(t: string)
    ensures !('{' in t && '}' in t) ==> BraceSpan(t) == t
    ensures '{' in t && '}' in t ==>
      BraceSpan(t) == if LastIndexOfChar(t, '}').value > FirstIndexOfChar(t, '{')
                      then t[FirstIndexOfChar(t, '{')..LastIndexOfChar(t, '}').value + 1]
                      else t
  {
  }

  /** The first step of `CleanReply`. */
  method DropFences(reply: string) returns (text: string)
    ensures text == FenceContent(reply)
  {
    text := reply;
    if Contains(text, JsonFence) {
      var i := IndexOf(text, JsonFence).value;
      text := Before(Before(text[i + |JsonFence|..], JsonFence), Fence);
    } else if Contains(text, Fence) {
      text := Between(text, Fence);
    }
  }

  /** A reply that already is a bare object, up to surrounding whitespace,
      is only stripped. */
  lemma CleanBareObject(reply: string)
    requires !Contains(reply, Fence)
    requires var t := Strip(reply); |t| >= 2 && t[0] == '{' && t[|t| - 1] == '}'
    ensures BraceSpan(Strip(FenceContent(reply))) == Strip(reply)
  {
    var t := Strip(reply);
    assert FirstIndexOfChar(t, '{') == 0;
    assert LastIndexOfChar(t, '}') == Some(|t| - 1);
    assert t[0..|t|] == t;
  }

  // ---------------------------------------------------------------------------
  // The parsed reply
  // ---------------------------------------------------------------------------

  /** A value produced by `json.loads`. */
  datatype Json =
    | JNull
    | JBool(b: bool)
    | JInt(i: int)
    | JFloat(f: real)
    | JStr(s: string)
    | JArr(items: seq<Json>)
    | JObj(fields: map<string, Json>)

  /** Python truthiness of a parsed value. */
  predicate Truthy(j: Json)
  {
    match j
    case JNull => false
    case JBool(b) => b
    case JInt(i) => i != 0
    case JFloat(f) => f != 0.0
    case JStr(s) => |s| > 0
    case JArr(items) => |items| > 0
    case JObj(fields) => |fields| > 0
  }

  const CurrenciesData := "currencies_data"

  /** An analysis whose `currencies_data` is missing or empty takes the
      TradingEconomics data; otherwise it is kept as it is. No other key changes. */
  function FillCurrenciesData(analysis: map<string, Json>, teData: Json): (r: map<string, Json>)
    ensures CurrenciesData in r
    ensures CurrenciesData !in analysis || !Truthy(analysis[CurrenciesData]) ==>
      r[CurrenciesData] == teData
    ensures CurrenciesData in analysis && Truthy(analysis[CurrenciesData]) ==> r == analysis
    ensures forall k :: k != CurrenciesData ==> (k in r <==> k in analysis)
    ensures forall k :: k != CurrenciesData && k in r ==> r[k] == analysis[k]
  {
    if CurrenciesData !in analysis || !Truthy(analysis[CurrenciesData]) then
      analysis[CurrenciesData := teData]
    else analysis
  }

  // ---------------------------------------------------------------------------
  // Score totals of the detail view (get_score_info, total_a / total_b)
  // ---------------------------------------------------------------------------

  /** The six scored parameters, in display order. */
  const Params: seq<string> :=
    ["rates_now", "rates_future", "inflation", "growth", "risk_sentiment", "balance_fiscal"]

  /** A parsed value as the `+=` and `:+d` formatting of the view take it: an
      int, or a bool as 0/1; anything else makes the view raise (None). */
  function IntValue(j: Json): (n: Option<int>)
    ensures n.Some? <==> j.JInt? || j.JBool?
    ensures j.JInt? ==> n == Some(j.i)
    ensures j.JBool? ==> n == Some(if j.b then 1 else 0)
  {
    match j
    case JInt(i) => Some(i)
    case JBool(b) => Some(if b then 1 else 0)
    case _ => None
  }

  /** `get_score_info(scores, key)[0]`: a missing key scores 0, an object its
      "score" (0 when it has none), an int itself, anything else 0. */
  function GetScoreInfo(scores: map<string, Json>, key: string): (s: Option<int>)
    ensures key !in scores ==> s == Some(0)
    ensures key in scores && scores[key].JInt? ==> s == Some(scores[key].i)
    ensures key in scores && scores[key].JObj? ==>
      s == if "score" in scores[key].fields then IntValue(scores[key].fields["score"]) else Some(0)
    ensures key in scores && !scores[key].JObj? ==> s.Some?
    ensures key in scores && scores[key].JBool? ==> s == Some(if scores[key].b then 1 else 0)
    ensures key in scores && !(scores[key].JObj? || scores[key].JInt? || scores[key].JBool?) ==> s == Some(0)
  {
    var item := if key in scores then scores[key] else JObj(map[]);
    match item
    case JObj(fields) => if "score" in fields then IntValue(fields["score"]) else Some(0)
    case JInt(i) => Some(i)
    case JBool(b) => Some(if b then 1 else 0)
    case _ => Some(0)
  }

  /** The sum of the scores of `keys`, None as soon as one cannot be summed. */
  function SumScores(scores: map<string, Json>, keys: seq<string>): Option<int>
  {
    if |keys| == 0 then Some(0)
    else
      match (SumScores(scores, keys[..|keys| - 1]), GetScoreInfo(scores, keys[|keys| - 1]))
      case (Some(a), Some(b)) => Some(a + b)
      case _ => None
  }

  /** Scores without any entry sum to 0. */
  lemma {:induction false} SumScoresEmpty(keys: seq<string>)
    ensures SumScores(map[], keys) == Some(0)
  {
    if |keys| > 0 {
      SumScoresEmpty(keys[..|keys| - 1]);
    }
  }

  /** The sum is defined exactly when every key's score is. */
  lemma {:induction false} SumScoresDefined(scores: map<string, Json>, keys: seq<string>)
    ensures SumScores(scores, keys).Some? <==> forall k :: k in keys ==> GetScoreInfo(scores, k).Some?
  {
    if |keys| > 0 {
      var n := |keys| - 1;
      SumScoresDefined(scores, keys[..n]);
      assert keys == keys[..n] + [keys[n]];
    }
  }

  /** The scores object of one side of a pair (`pair_data.get("scores_a", {})`);
      None when it is not an object, where the view raises. */
  function ScoresOf(pair: map<string, Json>, key: string): (s: Option<map<string, Json>>)
    ensures key !in pair ==> s == Some(map[])
    ensures s.Some? && key in pair ==> pair[key] == JObj(s.value)
    ensures key in pair ==> (s.Some? <==> pair[key].JObj?)
  {
    if key !in pair then Some(map[])
    else match pair[key]
      case JObj(fields) => Some(fields)
      case _ => None
  }

  /** The total the detail view shows for one side of a pair: the reply's own
      total when it has one, else the sum of the six parameter scores; None
      where the view raises. */
  function DisplayedTotal(pair: map<string, Json>, scoresKey: string, totalKey: string): (t: Option<int>)
  {
    match ScoresOf(pair, scoresKey)
    case None => None
    case Some(scores) =>
      match SumScores(scores, Params)
      case None => None
      case Some(sum) => if totalKey in pair then IntValue(pair[totalKey]) else Some(sum)
  }

  /** `total_calc` accumulated over the parameters as the view does, then the
      reply's total preferred over it. */
  method DetailTotal(pair: map<string, Json>, scoresKey: string, totalKey: string)
    returns (total: Option<int>)
    ensures total == DisplayedTotal(pair, scoresKey, totalKey)
  {
    var scores := ScoresOf(pair, scoresKey);
    if scores.None? {
      return None;
    }
    var totalCalc := 0;
    var i := 0;
    while i < |Params|
      invariant 0 <= i <= |Params|
      invariant SumScores(scores.value, Params[..i]) == Some(totalCalc)
    {
      var score := GetScoreInfo(scores.value, Params[i]);
      assert Params[..i + 1][..i] == Params[..i];
      if score.None? {
        SumScoresDefined(scores.value, Params);
        return None;
      }
      totalCalc := totalCalc + score.value;
      i := i + 1;
    }
    assert Params[..i] == Params;
    if totalKey in pair {
      total := IntValue(pair[totalKey]);
    } else {
      total := Some(totalCalc);
    }
  }

  /** A pair without totals or scores shows a total of 0; a reply's own int
      total is shown as it is. */
  lemma DisplayedTotalDefaults(pair: map<string, Json>, scoresKey: string, totalKey: string)
    ensures scoresKey !in pair && totalKey !in pair ==> DisplayedTotal(pair, scoresKey, totalKey) == Some(0)
    ensures scoresKey !in pair && totalKey in pair && pair[totalKey].JInt? ==>
      DisplayedTotal(pair, scoresKey, totalKey) == Some(pair[totalKey].i)
  {
    SumScoresEmpty(Params);
  }

  // ---------------------------------------------------------------------------
  // Local history of analyses (file names, get_available_dates,
  // get_latest_analysis)
  // ---------------------------------------------------------------------------

  const Prefix := "analysis_"
  const Suffix := ".json"

  /** The file an analysis stamped `dt` is saved to. */
  function FileName(dt: string): string
  {
    Prefix + dt + Suffix
  }

  /** The names the glob `analysis_*.json` matches. */
  predicate IsAnalysisFile(name: string)
  {
    |name| >= |Prefix| + |Suffix| && StartsWith(name, Prefix) && EndsWith(name, Suffix)
  }

  /** The stamp a listed file stands for: its stem with every `analysis_` removed. */
  function DateOf(name: string): string
    requires IsAnalysisFile(name)
  {
    RemoveAll(name[..|name| - |Suffix|], Prefix)
  }

  /** A stamp in which `analysis_` does not occur is listed back as itself. */
  lemma FileNameRoundTrip(dt: string)
    requires !Contains(dt, Prefix)
    ensures IsAnalysisFile(FileName(dt))
    ensures DateOf(FileName(dt)) == dt
  {
    var name := FileName(dt);
    assert name[..|name| - |Suffix|] == Prefix + dt;
    assert OccursAt(Prefix + dt, Prefix, 0);
    assert (Prefix + dt)[|Prefix|..] == dt;
    RemoveAllAbsent(dt, Prefix);
  }

  /** Text without the letter `a` cannot contain `analysis_`. */
  lemma NoPrefixWithoutA(s: string)
    requires 'a' !in s
    ensures !Contains(s, Prefix)
  {
    forall j | 0 <= j <= |s| ensures !OccursAt(s, Prefix, j) {
      if j + |Prefix| <= |s| {
        assert s[j..j + |Prefix|][0] == s[j];
      }
    }
  }

  /** The stamps the app saves under (`%Y-%m-%d_%H-%M`) survive the round trip. */
  lemma StampRoundTrip(d: Date, hh: string, mm: string)
    requires ValidDate(d)
    requires |hh| == 2 && |mm| == 2 && AllDigits(hh) && AllDigits(mm)
    ensures DateOf(FileName(IsoDate(d) + "_" + hh + "-" + mm)) == IsoDate(d) + "_" + hh + "-" + mm
  {
    var stamp := IsoDate(d) + "_" + hh + "-" + mm;
    var y, m, day := Pad4(d.year), Pad2(d.month), Pad2(d.day);
    assert stamp == y + "-" + m + "-" + day + "_" + hh + "-" + mm;
    assert 'a' !in stamp;
    NoPrefixWithoutA(stamp);
    FileNameRoundTrip(stamp);
  }

  /** Newest first: no stamp is smaller than one listed after it. */
  predicate NewestFirst(xs: seq<string>)
  {
    forall i, j :: 0 <= i < j < |xs| ==> !LexLess(xs[i], xs[j])
  }

  /** "Not smaller than" is transitive. */
  lemma NotLessTransitive(a: string, b: string, c: string)
    requires !LexLess(a, b) && !LexLess(b, c)
    ensures !LexLess(a, c)
  {
    if LexLess(a, c) {
      if a == b {
        assert false;
      }
      LexLessTotal(a, b);
      LexLessTransitive(b, a, c);
    }
  }

  /** Inserts `x` into a newest-first list before the first element smaller than it. */
  function {:induction false} Insert(x: string, xs: seq<string>): (r: seq<string>)
    requires NewestFirst(xs)
    ensures NewestFirst(r)
    ensures multiset(r) == multiset(xs) + multiset{x}
  {
    if |xs| == 0 then [x]
    else if !LexLess(x, xs[0]) then
      forall j | 0 <= j < |xs| ensures !LexLess(x, xs[j]) {
        if j > 0 { NotLessTransitive(x, xs[0], xs[j]); }
      }
      [x] + xs
    else
      var rest := Insert(x, xs[1..]);
      LexLessAsymmetric(x, xs[0]);
      assert xs == [xs[0]] + xs[1..];
      forall j | 0 <= j < |rest| ensures !LexLess(xs[0], rest[j]) {
        assert rest[j] in multiset(rest);
        if rest[j] != x {
          var k :| 1 <= k < |xs| && xs[k] == rest[j];
        }
      }
      [xs[0]] + rest
  }

  /** `sorted(dates, reverse=True)` on strings. */
  function SortDescending(xs: seq<string>): (r: seq<string>)
    ensures NewestFirst(r)
    ensures multiset(r) == multiset(xs)
  {
    if |xs| == 0 then []
    else
      assert xs == [xs[0]] + xs[1..];
      Insert(xs[0], SortDescending(xs[1..]))
  }

  /** The stamps of the analysis files of a directory listing, in listing order. */
  function DatesOf(listing: seq<string>): (r: seq<string>)
    ensures |r| <= |listing|
    ensures forall n :: n in listing && IsAnalysisFile(n) ==> DateOf(n) in r
  {
    if |listing| == 0 then []
    else
      var init := listing[..|listing| - 1];
      var name := listing[|listing| - 1];
      assert listing == init + [name];
      if IsAnalysisFile(name) then DatesOf(init) + [DateOf(name)] else DatesOf(init)
  }

  /** One more listed name adds its stamp when it is an analysis file. */
  lemma DatesOfStep(listing: seq<string>, i: nat)
    requires i < |listing|
    ensures DatesOf(listing[..i + 1]) == if IsAnalysisFile(listing[i])
      then DatesOf(listing[..i]) + [DateOf(listing[i])] else DatesOf(listing[..i])
  {
    assert listing[..i + 1][..i] == listing[..i];
  }

  /** Collects the stamps of the analysis files, then sorts them newest first. */
  method GetAvailableDates(listing: seq<string>) returns (dates: seq<string>)
    ensures dates == SortDescending(DatesOf(listing))
    ensures NewestFirst(dates)
    ensures multiset(dates) == multiset(DatesOf(listing))
  {
    dates := CollectDates(listing);
    dates := SortDescending(dates);
  }

  /** The loop over the glob: one stamp appended per analysis file. */
  method CollectDates(listing: seq<string>) returns (dates: seq<string>)
    ensures dates == DatesOf(listing)
  {
    dates := [];
    for i := 0 to |listing|
      invariant dates == DatesOf(listing[..i])
    {
      DatesOfStep(listing, i);
      if IsAnalysisFile(listing[i]) {
        dates := dates + [DateOf(listing[i])];
      }
    }
    assert listing[..|listing|] == listing;
  }

  /** A saved analysis whose file is listed shows up among the available dates. */
  lemma SavedIsAvailable(dt: string, listing: seq<string>)
    requires !Contains(dt, Prefix)
    requires FileName(dt) in listing
    ensures dt in SortDescending(DatesOf(listing))
  {
    FileNameRoundTrip(dt);
    var sorted := SortDescending(DatesOf(listing));
    assert dt in multiset(sorted);
  }

  /** `load_analysis(dt)` on the local folder: the content of its file, None
      when the file is missing or does not parse (modelled as a None entry). */
  function LoadAnalysis(folder: map<string, Option<Json>>, dt: string): Option<Json>
  {
    if FileName(dt) in folder then folder[FileName(dt)] else None
  }

  /** Loads the newest listed analysis, or nothing when none is listed. */
  method GetLatestAnalysis(folder: map<string, Option<Json>>, listing: seq<string>)
    returns (analysis: Option<Json>)
    ensures |DatesOf(listing)| == 0 ==> analysis.None?
    ensures |DatesOf(listing)| > 0 ==>
      exists d :: (d in DatesOf(listing)
        && analysis == LoadAnalysis(folder, d)
        && forall e :: e in DatesOf(listing) ==> !LexLess(d, e))
  {
    var dates := GetAvailableDates(listing);
    if |dates| > 0 {
      var latest := dates[0];
      assert latest in multiset(DatesOf(listing));
      forall e | e in DatesOf(listing) ensures !LexLess(latest, e) {
        assert e in multiset(dates);
        var k :| 0 <= k < |dates| && dates[k] == e;
        if k == 0 { LexLessIrreflexive(e); }
      }
      analysis := LoadAnalysis(folder, latest);
    } else {
      assert multiset(DatesOf(listing)) == multiset{};
      analysis := None;
    }
  }

  // ---------------------------------------------------------------------------
  // TradingEconomics indicator table (fetch_trading_economics_data)
  // ---------------------------------------------------------------------------

  /** The currencies with an indicators page. */
  const TeCurrencies: seq<string> := ["EUR", "USD", "GBP", "JPY", "CHF", "AUD", "CAD"]

  /** Indicator names as the page shows them, with the key each is stored under,
      in the order they are tried. */
  const IndicatorsMap: seq<(string, string)> := [
    ("Interest Rate", "interest_rate"),
    ("Inflation Rate", "inflation_rate"),
    ("GDP Growth Rate", "gdp_growth"),
    ("Unemployment Rate", "unemployment"),
    ("Manufacturing PMI", "manufacturing_pmi"),
    ("Services PMI", "services_pmi"),
    ("Current Account to GDP", "current_account_gdp"),
    ("Government Debt to GDP", "debt_to_gdp")
  ]

  const IndicatorKeys: seq<string> := [
    "interest_rate", "inflation_rate", "gdp_growth", "unemployment",
    "manufacturing_pmi", "services_pmi", "current_account_gdp", "debt_to_gdp"
  ]

  const NotAvailable := "N/A"

  /** The row of a table as the text of its cells (`td` or `th`, stripped). */
  type Row = seq<string>
  type Table = seq<Row>

  /** The data before any row is read: every indicator "N/A". */
  function Defaults(): (d: map<string, string>)
    ensures forall k :: k in d <==> k in IndicatorKeys
    ensures forall k :: k in d ==> d[k] == NotAvailable
  {
    map k | k in IndicatorKeys :: NotAvailable
  }

  /** The first entry of the map, from `from` on, whose name occurs in the
      row name, both lower-cased. */
  function MatchFrom(name: string, from: nat): (r: Option<nat>)
    requires from <= |IndicatorsMap|
    ensures r.Some? ==> (from <= r.value < |IndicatorsMap|
      && Contains(Lower(name), Lower(IndicatorsMap[r.value].0)))
    ensures forall k :: from <= k < |IndicatorsMap| && (r.None? || k < r.value) ==>
      !Contains(Lower(name), Lower(IndicatorsMap[k].0))
    decreases |IndicatorsMap| - from
  {
    if from == |IndicatorsMap| then None
    else if Contains(Lower(name), Lower(IndicatorsMap[from].0)) then Some(from)
    else MatchFrom(name, from + 1)
  }

  /** The key a row is stored under: the first matching entry, if the row has
      at least two cells. */
  function RowKey(row: Row): (k: Option<string>)
    ensures k.Some? ==> k.value in IndicatorKeys && |row| >= 2
    ensures k.Some? <==> |row| >= 2 && MatchFrom(row[0], 0).Some?
    ensures k.Some? ==> k.value == IndicatorsMap[MatchFrom(row[0], 0).value].1
  {
    if |row| >= 2 && MatchFrom(row[0], 0).Some? then
      var i := MatchFrom(row[0], 0).value;
      assert IndicatorsMap[i].1 == IndicatorKeys[i];
      Some(IndicatorsMap[i].1)
    else None
  }

  /** The value stored for a cell: without `%` and stripped when that parses
      as a number, the raw cell text otherwise. */
  function CleanValue(value: string): (r: string)
    ensures r == value || (ParseFloat(r).Some? && '%' !in r)
    ensures ParseFloat(Strip(RemoveChar(value, '%'))).None? ==> r == value
    ensures ParseFloat(Strip(RemoveChar(value, '%'))).Some? ==> r == Strip(RemoveChar(value, '%'))
  {
    var clean := Strip(RemoveChar(value, '%'));
    if ParseFloat(clean).Some? then
      StripKeepsOut(RemoveChar(value, '%'), '%');
      clean
    else value
  }

  /** Stripping cannot bring in a character. */
  lemma StripKeepsOut(t: string, c: char)
    requires c !in t
    ensures c !in Strip(t)
  {
    var a := LeadingCount(t, IsSpace);
    var r := Strip(t);
    assert r == t[a..a + |r|];
    forall k | 0 <= k < |r| ensures r[k] != c {
      assert r[k] == t[a + k];
    }
  }

  /** One row applied to the data. */
  function ApplyRow(data: map<string, string>, row: Row): map<string, string>
  {
    match RowKey(row)
    case Some(k) => data[k := CleanValue(row[1])]
    case None => data
  }

  /** The rows applied in order. */
  function ApplyRows(data: map<string, string>, rows: seq<Row>): map<string, string>
  {
    if |rows| == 0 then data
    else ApplyRow(ApplyRows(data, rows[..|rows| - 1]), rows[|rows| - 1])
  }

  /** The rows of every table, table after table. */
  function Flatten(tables: seq<Table>): seq<Row>
  {
    if |tables| == 0 then [] else Flatten(tables[..|tables| - 1]) + tables[|tables| - 1]
  }

  /** `fetch_trading_economics_data(currency)` given the tables of the fetched
      page, None when the request failed: no data for a currency without a
      page, the defaults when the request failed, the rows applied otherwise. */
  function TradingEconomicsData(currency: string, page: Option<seq<Table>>): map<string, string>
  {
    if currency !in TeCurrencies then map[]
    else if page.None? then Defaults()
    else ApplyRows(Defaults(), Flatten(page.value))
  }

  /** The loop over the tables of the page, updating the data dict in place. */
  method FetchTradingEconomicsData(currency: string, page: Option<seq<Table>>)
    returns (data: map<string, string>)
    ensures data == TradingEconomicsData(currency, page)
  {
    if currency !in TeCurrencies {
      return map[];
    }
    data := Defaults();
    if page.None? {
      return;
    }
    var tables := page.value;
    for t := 0 to |tables|
      invariant data == ApplyRows(Defaults(), Flatten(tables[..t]))
    {
      data := ReadTable(data, tables[t]);
      assert tables[..t + 1][..t] == tables[..t];
      ApplyRowsConcat(Defaults(), Flatten(tables[..t]), tables[t]);
    }
    assert tables[..|tables|] == tables;
  }

  /** The loop over the rows of one table. */
  method ReadTable(data0: map<string, string>, table: Table) returns (data: map<string, string>)
    ensures data == ApplyRows(data0, table)
  {
    data := data0;
    for r := 0 to |table|
      invariant data == ApplyRows(data0, table[..r])
    {
      assert table[..r + 1][..r] == table[..r];
      data := ReadRow(data, table[r]);
    }
    assert table[..|table|] == table;
  }

  /** One row: the map entries are tried in order and the first match is
      stored, then the search stops. */
  method ReadRow(data0: map<string, string>, row: Row) returns (data: map<string, string>)
    ensures data == ApplyRow(data0, row)
  {
    data := data0;
    if |row| >= 2 {
      var j := 0;
      while j < |IndicatorsMap|
        invariant 0 <= j <= |IndicatorsMap|
        invariant MatchFrom(row[0], 0) == MatchFrom(row[0], j)
      {
        if Contains(Lower(row[0]), Lower(IndicatorsMap[j].0)) {
          data := data[IndicatorsMap[j].1 := CleanValue(row[1])];
          return;
        }
        j := j + 1;
      }
    }
  }

  /** Reading two runs of rows one after the other. */
  lemma {:induction false} ApplyRowsConcat(data: map<string, string>, a: seq<Row>, b: seq<Row>)
    ensures ApplyRows(data, a + b) == ApplyRows(ApplyRows(data, a), b)
  {
    if |b| > 0 {
      var n := |b| - 1;
      assert (a + b)[..|a| + n] == a + b[..n];
      ApplyRowsConcat(data, a, b[..n]);
    } else {
      assert a + b == a;
    }
  }

  /** Reading rows never adds or drops a key. */
  lemma {:induction false} ApplyRowsKeys(data: map<string, string>, rows: seq<Row>)
    requires forall k :: k in data <==> k in IndicatorKeys
    ensures forall k :: k in ApplyRows(data, rows) <==> k in IndicatorKeys
  {
    if |rows| > 0 {
      ApplyRowsKeys(data, rows[..|rows| - 1]);
    }
  }

  /** For a currency with a page the result has exactly the eight indicator keys. */
  lemma TradingEconomicsKeys(currency: string, page: Option<seq<Table>>)
    requires currency in TeCurrencies
    ensures forall k :: k in TradingEconomicsData(currency, page) <==> k in IndicatorKeys
  {
    if page.Some? {
      ApplyRowsKeys(Defaults(), Flatten(page.value));
    }
  }

  /** The value of a key is the cleaned value of the last row stored under it. */
  lemma {:induction false} LastMatchWins(data: map<string, string>, rows: seq<Row>, key: string, i: nat)
    requires key in data
    requires i < |rows| && RowKey(rows[i]) == Some(key)
    requires forall j :: i < j < |rows| ==> RowKey(rows[j]) != Some(key)
    ensures key in ApplyRows(data, rows)
    ensures ApplyRows(data, rows)[key] == CleanValue(rows[i][1])
    decreases |rows|, 1
  {
    var n := |rows| - 1;
    if i < n {
      LaterRowsKeep(data, rows, key, i);
    } else {
      KeyStays(data, rows[..n], key);
      ApplyRowEffect(ApplyRows(data, rows[..n]), rows[n], key);
    }
  }

  /** The inductive step of `LastMatchWins`: the last row is not stored under
      the key, so the value read before it stays. */
  lemma {:induction false} LaterRowsKeep(data: map<string, string>, rows: seq<Row>, key: string, i: nat)
    requires key in data
    requires i < |rows| - 1 && RowKey(rows[i]) == Some(key)
    requires forall j :: i < j < |rows| ==> RowKey(rows[j]) != Some(key)
    ensures key in ApplyRows(data, rows)
    ensures ApplyRows(data, rows)[key] == CleanValue(rows[i][1])
    decreases |rows|, 0
  {
    var n := |rows| - 1;
    var init := rows[..n];
    assert init[i] == rows[i];
    assert forall j :: i < j < n ==> init[j] == rows[j];
    LastMatchWins(data, init, key, i);
    ApplyRowEffect(ApplyRows(data, init), rows[n], key);
  }

  /** One row changes at most the key it is stored under. */
  lemma ApplyRowEffect(data: map<string, string>, row: Row, key: string)
    requires key in data
    ensures key in ApplyRow(data, row)
    ensures RowKey(row) == Some(key) ==> ApplyRow(data, row)[key] == CleanValue(row[1])
    ensures RowKey(row) != Some(key) ==> ApplyRow(data, row)[key] == data[key]
  {
  }

  /** A key present before reading rows is still present after. */
  lemma {:induction false} KeyStays(data: map<string, string>, rows: seq<Row>, key: string)
    requires key in data
    ensures key in ApplyRows(data, rows)
  {
    if |rows| > 0 {
      KeyStays(data, rows[..|rows| - 1], key);
    }
  }

  /** A key that no row is stored under keeps its value. */
  lemma {:induction false} UnmatchedKeyKept(data: map<string, string>, rows: seq<Row>, key: string)
    requires key in data
    requires forall j :: 0 <= j < |rows| ==> RowKey(rows[j]) != Some(key)
    ensures key in ApplyRows(data, rows)
    ensures ApplyRows(data, rows)[key] == data[key]
  {
    if |rows| > 0 {
      var n := |rows| - 1;
      assert forall j :: 0 <= j < n ==> rows[..n][j] == rows[j];
      UnmatchedKeyKept(data, rows[..n], key);
      ApplyRowEffect(ApplyRows(data, rows[..n]), rows[n], key);
    }
  }
}
