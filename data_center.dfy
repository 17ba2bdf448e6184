/**
 * The signal panel of src/components/DataCenterHome.js: for each coin it
 * asks the agent route for an action, a thesis, a timeline and a conviction,
 * stores the parsed signal under the coin's upper-cased symbol, counts the
 * ACCUMULATE signals, and keeps a watchlist of symbols. As in the analysis
 * panel, the request's round trip is split at its `await`.
 */
module DataCenterView {
  import opened Base
  import opened JsText
  import opened ReplyScan

  /** One stored signal; `conviction` is the exact decimal the reply wrote. */
  datatype Signal = Signal(action: string, thesis: string, timeline: string, conviction: real, timestamp: int)

  const Actions := ["ACCUMULATE", "MONITOR", "DIVEST"]
  const Timelines := ["SHORT", "MEDIUM", "LONG"]

  const DefaultThesis := "Market dynamics under review"
  const DefaultConviction := 7.5

  /**
   * The signal parsed from a reply received at time `now`. Unlike the
   * analysis panel, the thesis has no `||` fallback: a label followed by
   * blanks only yields the empty thesis.
   */
  function ParseSignal(reply: string, now: int): Signal {
    Signal(
      KeywordField(reply, "ACTION:", Actions).GetOr("MONITOR"),
      LineField(reply, "THESIS:").GetOr(DefaultThesis),
      KeywordField(reply, "TIMELINE:", Timelines).GetOr("MEDIUM"),
      DecimalField(reply, "CONVICTION:", "/10").GetOr(DefaultConviction),
      now)
  }

  /**
   * Whatever the reply, the action and the timeline take allowed values:
   * the alternative written at the leftmost label followed by one, read
   * case-insensitively, or the default when no such label is in the reply.
   */
  lemma ParsedSignalKeywords(reply: string, now: int)
    ensures var g := ParseSignal(reply, now);
      && g.action in Actions && g.timeline in Timelines && g.timestamp == now
      && ((exists k :: MatchAt(reply, k, "ACTION:", OneOf(Actions))) ==>
            MatchesAt(reply, CaptureStart(reply, "ACTION:", OneOf(Actions)).value, g.action))
      && ((exists k :: MatchAt(reply, k, "TIMELINE:", OneOf(Timelines))) ==>
            MatchesAt(reply, CaptureStart(reply, "TIMELINE:", OneOf(Timelines)).value, g.timeline))
      && ((forall k :: !MatchAt(reply, k, "ACTION:", OneOf(Actions))) ==> g.action == "MONITOR")
      && ((forall k :: !MatchAt(reply, k, "TIMELINE:", OneOf(Timelines))) ==> g.timeline == "MEDIUM")
  {
  }

  /**
   * The conviction is the decimal written after the leftmost "CONVICTION:"
   * that is followed by a number and "/10", so it is never negative, and
   * 7.5 when no such label is in the reply.
   */
  lemma ParsedConviction(reply: string, now: int)
    ensures var g := ParseSignal(reply, now);
      && g.conviction >= 0.0
      && ((exists k :: MatchAt(reply, k, "CONVICTION:", Decimal("/10"))) ==>
            DecimalAt(reply, CaptureStart(reply, "CONVICTION:", Decimal("/10")).value) == Some(g.conviction))
      && ((forall k :: !MatchAt(reply, k, "CONVICTION:", Decimal("/10"))) ==> g.conviction == DefaultConviction)
  {
  }

  /**
   * The thesis is the trimmed rest of the line where the text after the
   * first "THESIS:" starts (the blanks skipped may span lines). With blanks
   * only after the label it is "" when one of them is not a line terminator
   * and the default otherwise; it is the default when the label is missing.
   */
  lemma ParsedThesis(reply: string, now: int)
    ensures var g := ParseSignal(reply, now);
      && (HasText(reply, "THESIS:") ==> g.thesis == LineAfter(reply, "THESIS:") && g.thesis != "")
      && (FirstLabel(reply, "THESIS:").None? ==> g.thesis == DefaultThesis)
    ensures FirstLabel(reply, "THESIS:").Some? && !HasText(reply, "THESIS:") ==>
      var e := FirstLabel(reply, "THESIS:").value + |"THESIS:"|;
      ParseSignal(reply, now).thesis == if exists j :: e <= j < |reply| && !IsLineTerminator(reply[j]) then "" else DefaultThesis
  {
    LineFieldText(reply, "THESIS:");
  }

  /** The signal stored when the request or its response handling throws. */
  function Fallback(now: int): (g: Signal)
    ensures g.action == "MONITOR" && g.timeline == "MEDIUM" && g.conviction == 5.0
    ensures g.action in Actions && g.timeline in Timelines && g.timestamp == now
  {
    Signal("MONITOR", "Insufficient data for analysis", "MEDIUM", 5.0, now)
  }

  /** The signals once a response is in: a reply is parsed and stored, a failure stores the fallback. */
  function AfterResponse(m: map<string, Signal>, coinKey: string, delivery: Delivery, now: int)
    : (r: map<string, Signal>)
    ensures HasReply(delivery) ==> r == m[coinKey := ParseSignal(delivery.reply.value, now)]
    ensures delivery.Undelivered? ==> r == m[coinKey := Fallback(now)]
    ensures delivery.Delivered? && !HasReply(delivery) ==> r == m
  {
    if HasReply(delivery) then m[coinKey := ParseSignal(delivery.reply.value, now)]
    else if delivery.Undelivered? then m[coinKey := Fallback(now)]
    else m
  }

  /** What a response adds to the active-signal counter: one exactly for a parsed ACCUMULATE. */
  function NewSignals(delivery: Delivery, now: int): (n: nat)
    ensures n <= 1
    ensures n == 1 <==> HasReply(delivery) && ParseSignal(delivery.reply.value, now).action == "ACCUMULATE"
  {
    if HasReply(delivery) && ParseSignal(delivery.reply.value, now).action == "ACCUMULATE" then 1 else 0
  }

  /** A failure or a reply without an ACCUMULATE action never adds a signal. */
  lemma FallbackAddsNoSignal(now: int)
    ensures NewSignals(Undelivered, now) == 0
    ensures Fallback(now).action != "ACCUMULATE"
  {
  }

  /** The watchlist with `symbol` added when it was absent and removed when it was present. */
  function WatchToggled(watchlist: set<string>, symbol: string): (r: set<string>)
    ensures symbol in r <==> symbol !in watchlist
    ensures forall x :: x != symbol ==> (x in r <==> x in watchlist)
  {
    if symbol in watchlist then watchlist - {symbol} else watchlist + {symbol}
  }

  /** Toggling the same symbol twice restores the watchlist. */
  lemma WatchToggleTwice(watchlist: set<string>, symbol: string)
    ensures WatchToggled(WatchToggled(watchlist, symbol), symbol) == watchlist
  {
  }

  /** The component state the signal requests update. */
  class DataCenterPanel {
    var aiAnalysis: map<string, Signal>
    var analysisLoading: map<string, bool>
    var watchlist: set<string>
    var activeSignals: int

    constructor()
      ensures aiAnalysis == map[] && analysisLoading == map[] && watchlist == {} && activeSignals == 0
    {
      aiAnalysis := map[];
      analysisLoading := map[];
      watchlist := {};
      activeSignals := 0;
    }

    /** The synchronous start of a request: the coin's key is its upper-cased symbol, now loading. */
    method BeginAnalysis(symbol: string) returns (coinKey: string)
      modifies this
      ensures coinKey == ToUpper(symbol)
      ensures analysisLoading == old(analysisLoading)[coinKey := true]
      ensures aiAnalysis == old(aiAnalysis) && watchlist == old(watchlist)
      ensures activeSignals == old(activeSignals)
    {
      coinKey := ToUpper(symbol);
      analysisLoading := analysisLoading[coinKey := true];
    }

    /**
     * The end of a request once the response is in: the coin's signal is
     * stored as `AfterResponse` says, the counter grows by one exactly for
     * a parsed ACCUMULATE, and the coin stops loading in every case.
     */
    method FinishAnalysis(coinKey: string, delivery: Delivery, now: int)
      modifies this
      ensures aiAnalysis == AfterResponse(old(aiAnalysis), coinKey, delivery, now)
      ensures activeSignals == old(activeSignals) + NewSignals(delivery, now)
      ensures analysisLoading == old(analysisLoading)[coinKey := false]
      ensures watchlist == old(watchlist)
    {
      aiAnalysis := AfterResponse(aiAnalysis, coinKey, delivery, now);
      activeSignals := activeSignals + NewSignals(delivery, now);
      analysisLoading := analysisLoading[coinKey := false];
    }

    /** `toggleWatchlist(coinSymbol)`: flips the symbol's membership and nothing else. */
    method ToggleWatchlist(coinSymbol: string)
      modifies this
      ensures watchlist == WatchToggled(old(watchlist), coinSymbol)
      ensures aiAnalysis == old(aiAnalysis) && analysisLoading == old(analysisLoading)
      ensures activeSignals == old(activeSignals)
    {
      var next := watchlist;
      if coinSymbol in next {
        next := next - {coinSymbol};
      } else {
        next := next + {coinSymbol};
      }
      watchlist := next;
    }
  }
}
