/**
 * The analysis panel of src/components/CoinAgent.js: for each coin it asks
 * the agent route for a labelled analysis, parses the reply into a record
 * whose enumerated fields always take one of their allowed values, and
 * keeps the records, the per-coin loading flags, the expanded cards and a
 * counter of parsed analyses. The request's round trip is split at its
 * `await`: `BeginAnalysis` runs before it, `FinishAnalysis` after it.
 */
module CoinAgentView {
  import opened Base
  import opened JsText
  import opened ReplyScan
  import CoinsRoute

  /** One stored analysis (`timestamp` is `Date.now()` when it was stored). */
  datatype Analysis = Analysis(
    verdict: string,
    confidence: nat,
    thesis: string,
    targetReturn: string,
    riskGrade: string,
    strategicAnalysis: string,
    bullCase: seq<string>,
    bearCase: seq<string>,
    horizon: string,
    score: nat,
    timestamp: int)

  const Verdicts := ["ACQUIRE", "MONITOR", "AVOID"]
  const RiskGrades := ["A", "B", "C", "D"]
  const Horizons := ["7D", "30D", "90D"]

  const DefaultThesis := "Market dynamics require deeper analysis"
  const DefaultTargetReturn := "+8-15%"
  const DefaultStrategicAnalysis := "Market conditions show mixed signals with moderate volatility expected."
  const DefaultBullCase := "Strong fundamentals, Growing adoption"
  const DefaultBearCase := "Market volatility, Regulatory risks"
  const DefaultConfidence := 75
  const DefaultScore := 70

  /** `x || fallback` for a captured string: an absent or empty capture gives the fallback. */
  function OrElse(o: Option<string>, fallback: string): (r: string)
    ensures o.Some? && o.value != "" ==> r == o.value
    ensures o.None? || o.value == "" ==> r == fallback
  {
    if o.Some? && o.value != "" then o.value else fallback
  }

  /** The enumerated fields take allowed values, no text is empty, each case list holds at most two non-empty points. */
  predicate WellFormed(a: Analysis) {
    && a.verdict in Verdicts && a.riskGrade in RiskGrades && a.horizon in Horizons
    && a.thesis != "" && a.targetReturn != "" && a.strategicAnalysis != ""
    && |a.bullCase| <= 2 && (forall k :: 0 <= k < |a.bullCase| ==> a.bullCase[k] != "")
    && |a.bearCase| <= 2 && (forall k :: 0 <= k < |a.bearCase| ==> a.bearCase[k] != "")
  }

  /** The record parsed from a reply received at time `now`. */
  function ParseAnalysis(reply: string, now: int): Analysis
  {
    Analysis(
      KeywordField(reply, "VERDICT:", Verdicts).GetOr("MONITOR"),
      DigitField(reply, "CONFIDENCE:", "/100").GetOr(DefaultConfidence),
      OrElse(LineField(reply, "THESIS:"), DefaultThesis),
      OrElse(LineField(reply, "TARGET_RETURN:"), DefaultTargetReturn),
      KeywordField(reply, "RISK_GRADE:", RiskGrades).GetOr("B"),
      OrElse(BlockField(reply, "STRATEGIC_ANALYSIS:", "BULL_CASE:"), DefaultStrategicAnalysis),
      Points(OrElse(BlockField(reply, "BULL_CASE:", "BEAR_CASE:"), DefaultBullCase)),
      Points(OrElse(BlockField(reply, "BEAR_CASE:", "HORIZON:"), DefaultBearCase)),
      KeywordField(reply, "HORIZON:", Horizons).GetOr("30D"),
      DigitField(reply, "TRDN_SCORE:", "").GetOr(DefaultScore),
      now)
  }

  /**
   * Whatever the reply, the verdict is one of `Verdicts`: the alternative written
   * at the leftmost "VERDICT:" label followed by one, read case-insensitively,
   * or "MONITOR" when no such label is in the reply.
   */
  lemma ParsedVerdict(reply: string, now: int)
    ensures var a := ParseAnalysis(reply, now);
      && a.verdict in Verdicts
      && ((exists k :: MatchAt(reply, k, "VERDICT:", OneOf(Verdicts))) ==>
            MatchesAt(reply, CaptureStart(reply, "VERDICT:", OneOf(Verdicts)).value, a.verdict))
      && ((forall k :: !MatchAt(reply, k, "VERDICT:", OneOf(Verdicts))) ==> a.verdict == "MONITOR")
  {
  }

  /**
   * Whatever the reply, the risk grade is one of `RiskGrades`: the alternative written
   * at the leftmost "RISK_GRADE:" label followed by one, read case-insensitively,
   * or "B" when no such label is in the reply.
   */
  lemma ParsedRiskGrade(reply: string, now: int)
    ensures var a := ParseAnalysis(reply, now);
      && a.riskGrade in RiskGrades
      && ((exists k :: MatchAt(reply, k, "RISK_GRADE:", OneOf(RiskGrades))) ==>
            MatchesAt(reply, CaptureStart(reply, "RISK_GRADE:", OneOf(RiskGrades)).value, a.riskGrade))
      && ((forall k :: !MatchAt(reply, k, "RISK_GRADE:", OneOf(RiskGrades))) ==> a.riskGrade == "B")
  {
  }

  /**
   * Whatever the reply, the horizon is one of `Horizons`: the alternative written
   * at the leftmost "HORIZON:" label followed by one, read case-insensitively,
   * or "30D" when no such label is in the reply.
   */
  lemma ParsedHorizon(reply: string, now: int)
    ensures var a := ParseAnalysis(reply, now);
      && a.horizon in Horizons
      && ((exists k :: MatchAt(reply, k, "HORIZON:", OneOf(Horizons))) ==>
            MatchesAt(reply, CaptureStart(reply, "HORIZON:", OneOf(Horizons)).value, a.horizon))
      && ((forall k :: !MatchAt(reply, k, "HORIZON:", OneOf(Horizons))) ==> a.horizon == "30D")
  {
  }

  /**
   * The confidence is the number written after the leftmost "CONFIDENCE:"
   * that is followed by digits and "/100", and the score the number after
   * the leftmost "TRDN_SCORE:" followed by digits; each is its default when
   * no such label is in the reply.
   */
  lemma ParsedScores(reply: string, now: int)
    ensures var a := ParseAnalysis(reply, now);
      && ((exists k :: MatchAt(reply, k, "CONFIDENCE:", DigitRun("/100"))) ==>
            a.confidence == DigitsAt(reply, CaptureStart(reply, "CONFIDENCE:", DigitRun("/100")).value))
      && ((exists k :: MatchAt(reply, k, "TRDN_SCORE:", DigitRun(""))) ==>
            a.score == DigitsAt(reply, CaptureStart(reply, "TRDN_SCORE:", DigitRun("")).value))
      && ((forall k :: !MatchAt(reply, k, "CONFIDENCE:", DigitRun("/100"))) ==> a.confidence == DefaultConfidence)
      && ((forall k :: !MatchAt(reply, k, "TRDN_SCORE:", DigitRun(""))) ==> a.score == DefaultScore)
  {
  }

  /**
   * Whatever the reply, no text field is empty and each case list holds at
   * most two non-empty points. A field whose label is followed by text holds
   * that text, trimmed (for the cases, the points of that text); a field
   * whose label is missing or followed by blanks only takes its default.
   */
  lemma ParsedTexts(reply: string, now: int)
    ensures var a := ParseAnalysis(reply, now);
      && a.thesis != "" && a.targetReturn != "" && a.strategicAnalysis != ""
      && |a.bullCase| <= 2 && (forall k :: 0 <= k < |a.bullCase| ==> a.bullCase[k] != "")
      && |a.bearCase| <= 2 && (forall k :: 0 <= k < |a.bearCase| ==> a.bearCase[k] != "")
      && (HasText(reply, "THESIS:") ==> a.thesis == LineAfter(reply, "THESIS:"))
      && (HasText(reply, "TARGET_RETURN:") ==> a.targetReturn == LineAfter(reply, "TARGET_RETURN:"))
      && (HasText(reply, "STRATEGIC_ANALYSIS:") ==>
            a.strategicAnalysis == BlockAfter(reply, "STRATEGIC_ANALYSIS:", "BULL_CASE:"))
      && (HasText(reply, "BULL_CASE:") ==> a.bullCase == Points(BlockAfter(reply, "BULL_CASE:", "BEAR_CASE:")))
      && (HasText(reply, "BEAR_CASE:") ==> a.bearCase == Points(BlockAfter(reply, "BEAR_CASE:", "HORIZON:")))
      && (!HasText(reply, "THESIS:") ==> a.thesis == DefaultThesis)
      && (!HasText(reply, "TARGET_RETURN:") ==> a.targetReturn == DefaultTargetReturn)
      && (!HasText(reply, "STRATEGIC_ANALYSIS:") ==> a.strategicAnalysis == DefaultStrategicAnalysis)
      && (!HasText(reply, "BULL_CASE:") ==> a.bullCase == Points(DefaultBullCase))
      && (!HasText(reply, "BEAR_CASE:") ==> a.bearCase == Points(DefaultBearCase))
  {
    LineFieldText(reply, "THESIS:");
    LineFieldText(reply, "TARGET_RETURN:");
    BlockFieldText(reply, "STRATEGIC_ANALYSIS:", "BULL_CASE:");
    BlockFieldText(reply, "BULL_CASE:", "BEAR_CASE:");
    BlockFieldText(reply, "BEAR_CASE:", "HORIZON:");
  }

  /** Every parsed record is well formed and stamped with the time it was parsed. */
  lemma ParsedAnalysisIsWellFormed(reply: string, now: int)
    ensures WellFormed(ParseAnalysis(reply, now)) && ParseAnalysis(reply, now).timestamp == now
  {
    ParsedVerdict(reply, now);
    ParsedRiskGrade(reply, now);
    ParsedHorizon(reply, now);
    ParsedTexts(reply, now);
  }

  /** The record stored when the request or its response handling throws. */
  function Fallback(now: int): (a: Analysis)
    ensures a.verdict == "MONITOR" && a.confidence == 50 && a.riskGrade == "C"
    ensures a.horizon == "30D" && a.score == 50 && a.timestamp == now
    ensures WellFormed(a)
  {
    Analysis("MONITOR", 50, "Analysis temporarily unavailable", "TBD", "C",
             "Unable to process market data at this time.",
             ["Market presence"], ["Data unavailable"], "30D", 50, now)
  }

  /** A card is shown expanded when its entry is present and true (a missing entry is falsy). */
  predicate IsExpanded(m: map<string, bool>, key: string) {
    key in m && m[key]
  }

  /** `{ ...prev, [key]: !prev[key] }`. */
  function ToggleExpansion(m: map<string, bool>, key: string): (r: map<string, bool>)
    ensures key in r && IsExpanded(r, key) == !IsExpanded(m, key)
    ensures forall j :: j != key ==> (j in r <==> j in m)
    ensures forall j :: j != key && j in m ==> r[j] == m[j]
  {
    m[key := !IsExpanded(m, key)]
  }

  /** Toggling a card twice shows every card as it was. */
  lemma ToggleExpansionTwice(m: map<string, bool>, key: string)
    ensures forall j :: IsExpanded(ToggleExpansion(ToggleExpansion(m, key), key), j) == IsExpanded(m, j)
  {
  }

  /** The coin is shown under the filter: "ALL" shows every coin, a verdict shows coins analysed with it. */
  predicate Shown(c: CoinsRoute.Coin, filter: string, analyses: map<string, Analysis>) {
    filter == "ALL" || (ToUpper(c.symbol) in analyses && analyses[ToUpper(c.symbol)].verdict == filter)
  }

  /**
   * `filteredCoins`: the shown coins, each as often as in `coins` (their
   * order is kept, as `FilteredCoinsAppend` shows).
   */
  function FilteredCoins(coins: seq<CoinsRoute.Coin>, filter: string, analyses: map<string, Analysis>)
    : (r: seq<CoinsRoute.Coin>)
    ensures filter == "ALL" ==> r == coins
    ensures forall c :: c in r <==> c in coins && Shown(c, filter, analyses)
    ensures forall c :: multiset(r)[c] == if Shown(c, filter, analyses) then multiset(coins)[c] else 0
  {
    if coins == [] then []
    else
      var rest := FilteredCoins(coins[1..], filter, analyses);
      assert coins == [coins[0]] + coins[1..];
      if Shown(coins[0], filter, analyses) then [coins[0]] + rest else rest
  }

  /** Filtering a concatenation filters each part: the shown coins stay in their order. */
  lemma {:induction false} FilteredCoinsAppend(a: seq<CoinsRoute.Coin>, b: seq<CoinsRoute.Coin>,
                                               filter: string, analyses: map<string, Analysis>)
    ensures FilteredCoins(a + b, filter, analyses) == FilteredCoins(a, filter, analyses) + FilteredCoins(b, filter, analyses)
  {
    if a == [] {
      assert a + b == b;
    } else {
      assert (a + b)[1..] == a[1..] + b;
      FilteredCoinsAppend(a[1..], b, filter, analyses);
    }
  }

  /** What a response adds to the analysis counter: one for a reply, nothing otherwise. */
  function Counted(d: Delivery): (n: nat)
    ensures n == 1 <==> HasReply(d)
    ensures n <= 1
  {
    if HasReply(d) then 1 else 0
  }

  /**
   * The analyses once a response is in: a reply is parsed and stored, a
   * failure stores the fallback record, a response without a reply changes
   * nothing; only the coin's own entry can change.
   */
  function AfterResponse(m: map<string, Analysis>, coinKey: string, delivery: Delivery, now: int)
    : (r: map<string, Analysis>)
    ensures HasReply(delivery) ==> r == m[coinKey := ParseAnalysis(delivery.reply.value, now)]
    ensures delivery.Undelivered? ==> r == m[coinKey := Fallback(now)]
    ensures delivery.Delivered? && !HasReply(delivery) ==> r == m
  {
    if HasReply(delivery) then m[coinKey := ParseAnalysis(delivery.reply.value, now)]
    else if delivery.Undelivered? then m[coinKey := Fallback(now)]
    else m
  }

  /** The component state the analysis requests update. */
  class CoinAgentPanel {
    var aiAnalysis: map<string, Analysis>
    var analysisLoading: map<string, bool>
    var expandedCards: map<string, bool>
    var analysisCount: int

    constructor()
      ensures aiAnalysis == map[] && analysisLoading == map[] && expandedCards == map[]
      ensures analysisCount == 0
    {
      aiAnalysis := map[];
      analysisLoading := map[];
      expandedCards := map[];
      analysisCount := 0;
    }

    /** The synchronous start of an analysis: the coin's key is its upper-cased symbol, now loading. */
    method BeginAnalysis(symbol: string) returns (coinKey: string)
      modifies this
      ensures coinKey == ToUpper(symbol)
      ensures analysisLoading == old(analysisLoading)[coinKey := true]
      ensures aiAnalysis == old(aiAnalysis) && expandedCards == old(expandedCards)
      ensures analysisCount == old(analysisCount)
    {
      coinKey := ToUpper(symbol);
      analysisLoading := analysisLoading[coinKey := true];
    }

    /**
     * The end of an analysis once the response is in: a reply is parsed,
     * stored and counted; a failure stores the fallback record uncounted;
     * a response without a reply stores nothing. The coin stops loading in
     * every case.
     */
    method FinishAnalysis(coinKey: string, delivery: Delivery, now: int)
      modifies this
      ensures analysisLoading == old(analysisLoading)[coinKey := false]
      ensures expandedCards == old(expandedCards)
      ensures aiAnalysis == AfterResponse(old(aiAnalysis), coinKey, delivery, now)
      ensures analysisCount == old(analysisCount) + Counted(delivery)
    {
      aiAnalysis := AfterResponse(aiAnalysis, coinKey, delivery, now);
      analysisCount := analysisCount + Counted(delivery);
      analysisLoading := analysisLoading[coinKey := false];
    }

    /** `toggleCardExpansion(coinKey)`. */
    method ToggleCardExpansion(coinKey: string)
      modifies this
      ensures expandedCards == ToggleExpansion(old(expandedCards), coinKey)
      ensures aiAnalysis == old(aiAnalysis) && analysisLoading == old(analysisLoading)
      ensures analysisCount == old(analysisCount)
    {
      expandedCards := expandedCards[coinKey := !(coinKey in expandedCards && expandedCards[coinKey])];
    }
  }
}
