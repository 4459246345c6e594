/** Where every entry of the backtest's books comes from: the signal it was
    opened on, the print that filled it and the print that closed it, said of the
    event stream and the strategy's responses alone. */
module Provenance {
  import opened Prelude
  import opened Simulator

  // ------------------------------------------------------------- the stream

  /** The event carries a price of this coin. */
  predicate IsPrint(e: Event, c: Coin)
  {
    e.coin == Some(c) && !e.payload.OtherPayload?
  }

  function Printed(e: Event): real
  {
    match e.payload
    case Trade(px) => px
    case AssetCtx(markPx) => markPx
    case OtherPayload => 0.0
  }

  /** The coin's last price among the first `n` events. */
  function LastPrint(events: seq<Event>, n: nat, c: Coin): Option<real>
    requires n <= |events|
  {
    if n == 0 then None
    else if IsPrint(events[n - 1], c) then Some(Printed(events[n - 1]))
    else LastPrint(events, n - 1, c)
  }

  function Unit(x: real): real { if x < 0.0 then 0.0 else if x > 1.0 then 1.0 else x }

  /** At `px` or better for one who would buy (long) or sell (short) at `limit`. */
  predicate AtOrBetter(side: Side, px: real, limit: real)
  {
    match side case Long => px <= limit case Short => px >= limit
  }

  /** At `px` or further in the position's favour. */
  predicate AtOrBeyond(side: Side, px: real, target: real)
  {
    match side case Long => px >= target case Short => px <= target
  }

  // ------------------------------------------------------------- the entry

  predicate OrderOf(o: MakerOrder, s: Signal)
  {
    && o.coin == s.coin && o.side == s.side && o.limitPx == s.entryMarkPrice > 0.0
    && o.placedTs == s.timestamp && o.confidence == Unit(s.confidence)
  }

  /** Everything an entry on this signal at `entryPx` fixes for good. */
  predicate TermsAt(cfg: SimConfig, t: Terms, s: Signal, entryPx: real, entryBps: real)
  {
    && t.coin == s.coin && t.side == s.side && t.entryPx == entryPx > 0.0
    && t.confidence == Unit(s.confidence)
    && t.notional == cfg.minNotional + (cfg.maxNotional - cfg.minNotional) * Unit(s.confidence)
    && t.qty == t.notional / t.entryPx
    && t.entryFee == t.notional * entryBps / BPS
    && t.risk == t.notional * cfg.stopLossPct
    && t.tpPx == match t.side case Long => t.entryPx * (1.0 + cfg.takeProfitPct) case Short => t.entryPx * (1.0 - cfg.takeProfitPct)
  }

  /** The entry fee: makers where entries rest, takers otherwise. */
  function EntryBps(cfg: SimConfig): real { if cfg.makerEntryEnabled then cfg.makerFeeBps else cfg.takerFeeBps }

  predicate TermsOf(cfg: SimConfig, t: Terms, s: Signal)
  {
    TermsAt(cfg, t, s, s.entryMarkPrice, EntryBps(cfg))
  }

  function FirstStop(cfg: SimConfig, t: Terms): real
  {
    match t.side case Long => t.entryPx * (1.0 - cfg.stopLossPct) case Short => t.entryPx * (1.0 + cfg.stopLossPct)
  }

  /** Event `k` leaves an order of signal `s` resting. */
  predicate StaysResting(cfg: SimConfig, e: Event, s: Signal)
  {
    IsPrint(e, s.coin) ==>
      && !AtOrBetter(s.side, Printed(e), s.entryMarkPrice)
      && (cfg.makerFillTimeoutSeconds > 0.0 ==> e.ts - s.timestamp < cfg.makerFillTimeoutSeconds)
  }

  /** Signal `i` rested and no event before `n` ended it. */
  predicate RestsFrom(cfg: SimConfig, events: seq<Event>, responses: seq<Option<Signal>>, n: nat, i: nat)
    requires n <= |events| == |responses|
  {
    && cfg.makerEntryEnabled && i < n && responses[i].Some?
    && forall k | i < k < n :: StaysResting(cfg, events[k], responses[i].value)
  }

  ghost predicate Waiting(cfg: SimConfig, events: seq<Event>, responses: seq<Option<Signal>>, n: nat, o: MakerOrder)
    requires n <= |events| == |responses|
  {
    exists i: nat | i < n :: RestsFrom(cfg, events, responses, n, i) && OrderOf(o, responses[i].value)
  }

  /** Entered on signal `i` at event `j`: at once, or by the first print that
      touched its resting order, inside its timeout. */
  predicate EnteredAt(cfg: SimConfig, events: seq<Event>, responses: seq<Option<Signal>>, t: Terms, i: nat, j: nat)
    requires |events| == |responses|
  {
    && i <= j < |events| && responses[i].Some? && TermsOf(cfg, t, responses[i].value)
    && if cfg.makerEntryEnabled then
         && i < j && RestsFrom(cfg, events, responses, j, i) && t.entryTs == events[j].ts
         && IsPrint(events[j], t.coin) && AtOrBetter(t.side, Printed(events[j]), t.entryPx)
         && (cfg.makerFillTimeoutSeconds > 0.0 ==> events[j].ts - responses[i].value.timestamp < cfg.makerFillTimeoutSeconds)
       else i == j && t.entryTs == responses[i].value.timestamp
  }

  // ------------------------------------------------------------- the life

  /** The initial stop, or the fee buffer beyond entry once that is tighter. */
  predicate StopOf(cfg: SimConfig, t: Terms, stopPx: real, armed: bool)
  {
    if !armed then stopPx == FirstStop(cfg, t)
    else match t.side
      case Long => stopPx == RMax(FirstStop(cfg, t), t.entryPx * (1.0 + cfg.feeBufferPct))
      case Short => stopPx == RMin(FirstStop(cfg, t), t.entryPx * (1.0 - cfg.feeBufferPct))
  }

  /** `px` is better than entry by the break-even trigger. */
  predicate Gained(cfg: SimConfig, t: Terms, px: real)
  {
    (match t.side case Long => px - t.entryPx case Short => t.entryPx - px) >= cfg.breakEvenTriggerPct * t.entryPx
  }

  /** Some print after event `j` gained the break-even trigger. */
  ghost predicate ArmedBy(cfg: SimConfig, events: seq<Event>, n: nat, j: nat, t: Terms)
    requires n <= |events|
  {
    cfg.breakEvenTriggerPct > 0.0 && exists k | j < k < n :: IsPrint(events[k], t.coin) && Gained(cfg, t, Printed(events[k]))
  }

  /** The best of the entry and the prints after event `j`. */
  ghost predicate BestSince(events: seq<Event>, n: nat, j: nat, t: Terms, peakPx: real)
    requires n <= |events|
  {
    && AtOrBeyond(t.side, peakPx, t.entryPx)
    && (forall k | j < k < n && IsPrint(events[k], t.coin) :: AtOrBeyond(t.side, peakPx, Printed(events[k])))
    && (peakPx == t.entryPx || exists k | j < k < n :: IsPrint(events[k], t.coin) && Printed(events[k]) == peakPx)
  }

  /** Stop and peak as the first `n` events leave them. */
  ghost predicate Moved(cfg: SimConfig, events: seq<Event>, n: nat, j: nat, t: Terms, stopPx: real, peakPx: real)
    requires n <= |events|
  {
    StopOf(cfg, t, stopPx, ArmedBy(cfg, events, n, j, t)) && BestSince(events, n, j, t, peakPx)
  }

  predicate TargetDue(cfg: SimConfig, t: Terms, px: real)
  {
    cfg.takeProfitPct > 0.0 && AtOrBeyond(t.side, px, t.tpPx)
  }

  /** `px` gave back the trailing callback from the peak. */
  predicate TrailDue(cfg: SimConfig, t: Terms, px: real, peakPx: real)
  {
    && cfg.trailingCallbackPct > 0.0
    && AtOrBetter(t.side, px, peakPx * match t.side case Long => 1.0 - cfg.trailingCallbackPct case Short => 1.0 + cfg.trailingCallbackPct)
  }

  predicate TimeDue(cfg: SimConfig, t: Terms, ts: Instant)
  {
    cfg.timeStopSeconds > 0.0 && ts - t.entryTs >= cfg.timeStopSeconds
  }

  /** Stop, target, trail and time stop: the first that is due, and its price. */
  predicate Due(cfg: SimConfig, t: Terms, stopPx: real, peakPx: real, px: real, ts: Instant, reason: ExitReason, exitPx: real)
  {
    match reason
    case StopExit => AtOrBetter(t.side, px, stopPx) && exitPx == stopPx
    case TakeProfitExit => !AtOrBetter(t.side, px, stopPx) && TargetDue(cfg, t, px) && exitPx == t.tpPx
    case TrailingStopExit =>
      !AtOrBetter(t.side, px, stopPx) && !TargetDue(cfg, t, px) && TrailDue(cfg, t, px, peakPx) && exitPx == px
    case TimeStopExit =>
      && !AtOrBetter(t.side, px, stopPx) && !TargetDue(cfg, t, px) && !TrailDue(cfg, t, px, peakPx)
      && TimeDue(cfg, t, ts) && exitPx == px
    case EodMark => false
  }

  predicate NothingDue(cfg: SimConfig, t: Terms, stopPx: real, peakPx: real, px: real, ts: Instant)
  {
    !AtOrBetter(t.side, px, stopPx) && !TargetDue(cfg, t, px) && !TrailDue(cfg, t, px, peakPx) && !TimeDue(cfg, t, ts)
  }

  /** Event `k` has no reason to close the position, judged on all prints up to it. */
  ghost predicate Survives(cfg: SimConfig, events: seq<Event>, k: nat, j: nat, t: Terms)
    requires k < |events|
  {
    IsPrint(events[k], t.coin) ==>
      exists stopPx, peakPx :: SafeAt(cfg, events, k, j, t, stopPx, peakPx)
  }

  ghost predicate SafeAt(cfg: SimConfig, events: seq<Event>, k: nat, j: nat, t: Terms, stopPx: real, peakPx: real)
    requires k < |events|
  {
    Moved(cfg, events, k + 1, j, t, stopPx, peakPx) && NothingDue(cfg, t, stopPx, peakPx, Printed(events[k]), events[k].ts)
  }

  /** Entered at event `j` and moved by the prints since, none of which had a
      reason to close it. */
  ghost predicate Lives(cfg: SimConfig, events: seq<Event>, n: nat, j: nat, p: Position)
    requires n <= |events|
  {
    && j < n
    && (p.breakEvenArmed <==> ArmedBy(cfg, events, n, j, p.terms))
    && Moved(cfg, events, n, j, p.terms, p.stopPx, p.peakPx)
    && forall k | j < k < n :: Survives(cfg, events, k, j, p.terms)
  }

  ghost predicate Held(cfg: SimConfig, events: seq<Event>, responses: seq<Option<Signal>>, n: nat, p: Position)
    requires n <= |events| == |responses|
  {
    exists i: nat, j: nat :: EnteredAt(cfg, events, responses, p.terms, i, j) && Lives(cfg, events, n, j, p)
  }

  // ------------------------------------------------------------- the exit

  /** Booked at `px` less slippage, with both fees taken off. */
  predicate PaidOut(cfg: SimConfig, trade: ClosedTrade, px: real)
  {
    var t := trade.terms;
    && trade.exitPx == (match t.side case Long => px - px * cfg.slippageBps / BPS case Short => px + px * cfg.slippageBps / BPS)
    && trade.grossPnl == (match t.side case Long => (trade.exitPx - t.entryPx) * t.qty case Short => (t.entryPx - trade.exitPx) * t.qty)
    && trade.fees == t.entryFee + trade.exitPx * t.qty * cfg.takerFeeBps / BPS
    && trade.netPnl == trade.grossPnl - trade.fees
    && trade.rMultiple == if t.risk > 0.0 then trade.netPnl / t.risk else 0.0
  }

  /** Print `k` closes the position, at `px` before slippage. */
  ghost predicate ClosesAt(cfg: SimConfig, events: seq<Event>, k: nat, j: nat, trade: ClosedTrade, px: real, stopPx: real, peakPx: real)
    requires k < |events|
  {
    && Moved(cfg, events, k + 1, j, trade.terms, stopPx, peakPx)
    && Due(cfg, trade.terms, stopPx, peakPx, Printed(events[k]), events[k].ts, trade.reason, px)
    && PaidOut(cfg, trade, px)
  }

  /** Closed by the first print after event `j` that had a reason to. */
  ghost predicate Ends(cfg: SimConfig, events: seq<Event>, n: nat, j: nat, k: nat, trade: ClosedTrade)
    requires n <= |events|
  {
    && j < k < n
    && (forall m | j < m < k :: Survives(cfg, events, m, j, trade.terms))
    && IsPrint(events[k], trade.terms.coin) && trade.exitTs == events[k].ts
    && exists px, stopPx, peakPx :: ClosesAt(cfg, events, k, j, trade, px, stopPx, peakPx)
  }

  ghost predicate Closed(cfg: SimConfig, events: seq<Event>, responses: seq<Option<Signal>>, n: nat, trade: ClosedTrade)
    requires n <= |events| == |responses|
  {
    exists i: nat, j: nat, k: nat ::
      EnteredAt(cfg, events, responses, trade.terms, i, j) && Ends(cfg, events, n, j, k, trade)
  }

  /** Still open at the end: booked at the coin's last price, at entry if it had none. */
  ghost predicate Remains(cfg: SimConfig, events: seq<Event>, j: nat, trade: ClosedTrade)
  {
    var last := LastPrint(events, |events|, trade.terms.coin);
    && trade.reason == EodMark && trade.exitTs == trade.terms.entryTs
    && PaidOut(cfg, trade, if last.Some? then last.value else trade.terms.entryPx)
    && forall k | j < k < |events| :: Survives(cfg, events, k, j, trade.terms)
  }

  ghost predicate EndMarked(cfg: SimConfig, events: seq<Event>, responses: seq<Option<Signal>>, trade: ClosedTrade)
    requires |events| == |responses|
  {
    exists i: nat, j: nat :: EnteredAt(cfg, events, responses, trade.terms, i, j) && Remains(cfg, events, j, trade)
  }

  // ------------------------------------------------------------- the books

  ghost predicate OrdersExplained(cfg: SimConfig, events: seq<Event>, responses: seq<Option<Signal>>, n: nat, pending: map<Coin, MakerOrder>)
    requires n <= |events| == |responses|
  {
    forall c <- pending :: pending[c].coin == c && Waiting(cfg, events, responses, n, pending[c])
  }

  ghost predicate PositionsExplained(cfg: SimConfig, events: seq<Event>, responses: seq<Option<Signal>>, n: nat, open: map<Coin, Position>)
    requires n <= |events| == |responses|
  {
    forall c <- open :: open[c].terms.coin == c && Held(cfg, events, responses, n, open[c])
  }

  ghost predicate TradesExplained(cfg: SimConfig, events: seq<Event>, responses: seq<Option<Signal>>, n: nat, trades: seq<ClosedTrade>)
    requires n <= |events| == |responses|
  {
    forall t <- trades :: Closed(cfg, events, responses, n, t)
  }

  predicate MarksExplained(events: seq<Event>, n: nat, marks: map<Coin, real>, c: Coin)
    requires n <= |events|
  {
    LastPrint(events, n, c) == if c in marks then Some(marks[c]) else None
  }

  /** Every order, position and trade has its signal and its prints, and the
      marks are the last prints. */
  ghost predicate Explained(cfg: SimConfig, events: seq<Event>, responses: seq<Option<Signal>>, n: nat, s: SimState)
    requires n <= |events| == |responses|
  {
    && OrdersExplained(cfg, events, responses, n, s.pending)
    && PositionsExplained(cfg, events, responses, n, s.open)
    && TradesExplained(cfg, events, responses, n, s.result.trades)
    && forall c :: MarksExplained(events, n, s.marks, c)
  }

  const EMPTY := SimState(map[], map[], map[], EMPTY_RESULT)

  lemma WaitingOn(cfg: SimConfig, events: seq<Event>, responses: seq<Option<Signal>>, n: nat, o: MakerOrder)
    requires n < |events| == |responses| && Waiting(cfg, events, responses, n, o)
    requires IsPrint(events[n], o.coin) ==>
      !AtOrBetter(o.side, Printed(events[n]), o.limitPx)
      && (cfg.makerFillTimeoutSeconds > 0.0 ==> events[n].ts - o.placedTs < cfg.makerFillTimeoutSeconds)
    ensures Waiting(cfg, events, responses, n + 1, o)
  {
    var i: nat :| i < n && RestsFrom(cfg, events, responses, n, i) && OrderOf(o, responses[i].value);
    assert RestsFrom(cfg, events, responses, n + 1, i);
  }

  lemma LivesElsewhere(cfg: SimConfig, events: seq<Event>, n: nat, j: nat, p: Position)
    requires n < |events| && Lives(cfg, events, n, j, p) && !IsPrint(events[n], p.terms.coin)
    ensures Lives(cfg, events, n + 1, j, p)
  {
    hide StopOf;
    assert Survives(cfg, events, n, j, p.terms);
    hide Survives;
  }

  lemma ElsewhereHeld(cfg: SimConfig, events: seq<Event>, responses: seq<Option<Signal>>, n: nat, p: Position)
    requires n < |events| == |responses| && Held(cfg, events, responses, n, p) && !IsPrint(events[n], p.terms.coin)
    ensures Held(cfg, events, responses, n + 1, p)
  {
    hide EnteredAt, Lives;
    var i: nat, j: nat :| EnteredAt(cfg, events, responses, p.terms, i, j) && Lives(cfg, events, n, j, p);
    LivesElsewhere(cfg, events, n, j, p);
  }

  lemma StaysEnded(cfg: SimConfig, events: seq<Event>, n: nat, j: nat, k: nat, trade: ClosedTrade)
    requires n < |events| && Ends(cfg, events, n, j, k, trade)
    ensures Ends(cfg, events, n + 1, j, k, trade)
  {
    hide ClosesAt, Survives;
  }

  lemma StaysClosed(cfg: SimConfig, events: seq<Event>, responses: seq<Option<Signal>>, n: nat, trade: ClosedTrade)
    requires n < |events| == |responses| && Closed(cfg, events, responses, n, trade)
    ensures Closed(cfg, events, responses, n + 1, trade)
  {
    hide EnteredAt, Ends;
    var i: nat, j: nat, k: nat :| EnteredAt(cfg, events, responses, trade.terms, i, j) && Ends(cfg, events, n, j, k, trade);
    StaysEnded(cfg, events, n, j, k, trade);
  }

  // ------------------------------------------------------------- one event

  lemma GainedIs(cfg: SimConfig, t: Terms, px: real)
    requires t.entryPx > 0.0
    ensures var gain := (px - t.entryPx) / t.entryPx;
            Gained(cfg, t, px) <==> (if t.side == Long then gain else -gain) >= cfg.breakEvenTriggerPct
  {
    var gain := (px - t.entryPx) / t.entryPx;
    assert gain * t.entryPx == px - t.entryPx;
    ProductOrder(gain, cfg.breakEvenTriggerPct, t.entryPx);
    ProductOrder(-gain, cfg.breakEvenTriggerPct, t.entryPx);
  }

  lemma ProductOrder(x: real, y: real, e: real)
    requires e > 0.0
    ensures x >= y <==> x * e >= y * e
  {
    if x < y { assert (y - x) * e > 0.0; } else { assert (x - y) * e >= 0.0; }
  }

  lemma ArmedStep(cfg: SimConfig, events: seq<Event>, n: nat, j: nat, t: Terms)
    requires j < n < |events| && IsPrint(events[n], t.coin)
    ensures ArmedBy(cfg, events, n + 1, j, t)
       <==> ArmedBy(cfg, events, n, j, t) || (cfg.breakEvenTriggerPct > 0.0 && Gained(cfg, t, Printed(events[n])))
  {
    hide Gained;
  }

  lemma BestSinceStep(cfg: SimConfig, events: seq<Event>, n: nat, j: nat, p: Position)
    requires n < |events| && j < n && p.terms.entryPx > 0.0
    requires BestSince(events, n, j, p.terms, p.peakPx) && IsPrint(events[n], p.terms.coin)
    ensures BestSince(events, n + 1, j, p.terms, Advance(cfg, p, Printed(events[n])).peakPx)
  {
    var q := Advance(cfg, p, Printed(events[n]));
    if q.peakPx != Printed(events[n]) && q.peakPx != p.terms.entryPx {
      var k :| j < k < n && IsPrint(events[k], p.terms.coin) && Printed(events[k]) == p.peakPx;
      assert j < k < n + 1 && Printed(events[k]) == q.peakPx;
    }
  }

  /** A print moves stop, flag and peak to where the prints so far put them. */
  lemma AdvanceMoves(cfg: SimConfig, events: seq<Event>, n: nat, j: nat, p: Position)
    requires j < n < |events| && p.terms.entryPx > 0.0 && IsPrint(events[n], p.terms.coin)
    requires (p.breakEvenArmed <==> ArmedBy(cfg, events, n, j, p.terms)) && Moved(cfg, events, n, j, p.terms, p.stopPx, p.peakPx)
    ensures var q := Advance(cfg, p, Printed(events[n]));
            && (q.breakEvenArmed <==> ArmedBy(cfg, events, n + 1, j, q.terms))
            && Moved(cfg, events, n + 1, j, q.terms, q.stopPx, q.peakPx)
  {
    ArmedStep(cfg, events, n, j, p.terms);
    BestSinceStep(cfg, events, n, j, p);
    GainedIs(cfg, p.terms, Printed(events[n]));
    hide ArmedBy, BestSince, Gained;
  }

  lemma BookedPaysOut(cfg: SimConfig, p: Position, px: real, ts: Instant, reason: ExitReason)
    ensures var b := Booked(cfg, p, px, ts, reason);
            PaidOut(cfg, b, px) && b.terms == p.terms && b.exitTs == ts && b.reason == reason
  {
  }

  /** The exit decided on a position is the one due on its terms, stop and peak. */
  lemma ExitIsDue(cfg: SimConfig, p: Position, px: real, ts: Instant)
    ensures match ExitOf(cfg, p, px, ts)
            case None => NothingDue(cfg, p.terms, p.stopPx, p.peakPx, px, ts)
            case Some(e) => Due(cfg, p.terms, p.stopPx, p.peakPx, px, ts, e.reason, e.px)
  {
  }

  /** A print of a position's coin: it lives on, advanced, or ends for the first
      reason the stream shows. */
  lemma PrintActs(cfg: SimConfig, events: seq<Event>, n: nat, j: nat, p: Position)
    requires n < |events| && Lives(cfg, events, n, j, p) && p.terms.entryPx > 0.0 && IsPrint(events[n], p.terms.coin)
    ensures var q := Advance(cfg, p, Printed(events[n]));
            match ExitOf(cfg, q, Printed(events[n]), events[n].ts)
            case None => Lives(cfg, events, n + 1, j, q)
            case Some(e) => Ends(cfg, events, n + 1, j, n, Booked(cfg, q, e.px, events[n].ts, e.reason))
  {
    hide Moved, ArmedBy, StopOf, Booked, PaidOut, Advance, ExitOf, NothingDue, Due;
    var q := Advance(cfg, p, Printed(events[n]));
    AdvanceMoves(cfg, events, n, j, p);
    ExitIsDue(cfg, q, Printed(events[n]), events[n].ts);
    match ExitOf(cfg, q, Printed(events[n]), events[n].ts)
    case None =>
      assert SafeAt(cfg, events, n, j, q.terms, q.stopPx, q.peakPx);
      assert Survives(cfg, events, n, j, q.terms);
      hide Survives;
    case Some(e) =>
      BookedPaysOut(cfg, q, e.px, events[n].ts, e.reason);
      assert ClosesAt(cfg, events, n, j, Booked(cfg, q, e.px, events[n].ts, e.reason), e.px, q.stopPx, q.peakPx);
      hide Survives, ClosesAt;
  }

  lemma HeldIsActedOn(cfg: SimConfig, events: seq<Event>, responses: seq<Option<Signal>>, n: nat, p: Position)
    requires n < |events| == |responses| && Held(cfg, events, responses, n, p) && IsPrint(events[n], p.terms.coin)
    ensures p.terms.entryPx > 0.0
    ensures var q := Advance(cfg, p, Printed(events[n]));
            match ExitOf(cfg, q, Printed(events[n]), events[n].ts)
            case None => Held(cfg, events, responses, n + 1, q)
            case Some(e) => Closed(cfg, events, responses, n + 1, Booked(cfg, q, e.px, events[n].ts, e.reason))
  {
    hide Lives, Ends, Advance, ExitOf, Booked, PaidOut;
    var i: nat, j: nat :| EnteredAt(cfg, events, responses, p.terms, i, j) && Lives(cfg, events, n, j, p);
    PrintActs(cfg, events, n, j, p);
    BookedKeepsTerms(cfg, Advance(cfg, p, Printed(events[n])));
    hide EnteredAt;
  }

  lemma BookedKeepsTerms(cfg: SimConfig, p: Position)
    ensures forall px, ts, reason :: Booked(cfg, p, px, ts, reason).terms == p.terms
  {
  }

  lemma LivesFromEntry(cfg: SimConfig, events: seq<Event>, n: nat, p: Position)
    requires n < |events| && !p.breakEvenArmed && StopOf(cfg, p.terms, p.stopPx, false) && p.peakPx == p.terms.entryPx
    ensures Lives(cfg, events, n + 1, n, p)
  {
  }

  lemma OpenedTerms(cfg: SimConfig, s: Signal, entryPx: real, ts: Instant)
    requires entryPx > 0.0
    ensures var p := Opened(cfg, s.coin, s.side, entryPx, ts, Unit(s.confidence));
            && TermsAt(cfg, p.terms, s, entryPx, EntryBps(cfg)) && p.terms.entryTs == ts && !p.breakEvenArmed
            && StopOf(cfg, p.terms, p.stopPx, false) && p.peakPx == p.terms.entryPx
  {
  }

  /** A print that touches a resting order opens its signal's position. */
  lemma PrintFills(cfg: SimConfig, events: seq<Event>, responses: seq<Option<Signal>>, n: nat, o: MakerOrder)
    requires n < |events| == |responses| && Waiting(cfg, events, responses, n, o) && IsPrint(events[n], o.coin)
    requires AtOrBetter(o.side, Printed(events[n]), o.limitPx)
    requires cfg.makerFillTimeoutSeconds > 0.0 ==> events[n].ts - o.placedTs < cfg.makerFillTimeoutSeconds
    ensures o.limitPx > 0.0
    ensures Held(cfg, events, responses, n + 1, Opened(cfg, o.coin, o.side, o.limitPx, events[n].ts, o.confidence))
  {
    var i: nat :| i < n && RestsFrom(cfg, events, responses, n, i) && OrderOf(o, responses[i].value);
    OpenedTerms(cfg, responses[i].value, o.limitPx, events[n].ts);
    hide Opened, TermsAt, StopOf, RestsFrom;
    var p := Opened(cfg, o.coin, o.side, o.limitPx, events[n].ts, o.confidence);
    LivesFromEntry(cfg, events, n, p);
    assert EnteredAt(cfg, events, responses, p.terms, i, n);
  }

  lemma ExitsExplained(cfg: SimConfig, events: seq<Event>, responses: seq<Option<Signal>>, n: nat, s: SimState, coin: Coin)
    requires n < |events| == |responses| && Tradeable(s) && IsPrint(events[n], coin)
    requires PositionsExplained(cfg, events, responses, n, s.open) && TradesExplained(cfg, events, responses, n, s.result.trades)
    ensures var t := AfterExits(cfg, s, coin, Printed(events[n]), events[n].ts);
            && PositionsExplained(cfg, events, responses, n + 1, t.open)
            && TradesExplained(cfg, events, responses, n + 1, t.result.trades)
            && t.pending == s.pending && t.marks == s.marks
  {
    hide Advance, ExitOf, Booked, Held, Closed;
    forall trade <- s.result.trades ensures Closed(cfg, events, responses, n + 1, trade) { StaysClosed(cfg, events, responses, n, trade); }
    forall c <- s.open | c != coin ensures Held(cfg, events, responses, n + 1, s.open[c]) {
      ElsewhereHeld(cfg, events, responses, n, s.open[c]);
    }
    if coin in s.open {
      HeldIsActedOn(cfg, events, responses, n, s.open[coin]);
    }
  }

  lemma FillsExplained(cfg: SimConfig, events: seq<Event>, responses: seq<Option<Signal>>, n: nat, s: SimState, coin: Coin)
    requires n < |events| == |responses| && Tradeable(s) && IsPrint(events[n], coin)
    requires OrdersExplained(cfg, events, responses, n, s.pending) && PositionsExplained(cfg, events, responses, n + 1, s.open)
    ensures var t := AfterFills(cfg, s, coin, Printed(events[n]), events[n].ts);
            && OrdersExplained(cfg, events, responses, n + 1, t.pending)
            && PositionsExplained(cfg, events, responses, n + 1, t.open)
            && t.result.trades == s.result.trades && t.marks == s.marks
  {
    hide Opened, Held, Waiting;
    forall c <- s.pending | c != coin ensures Waiting(cfg, events, responses, n + 1, s.pending[c]) {
      WaitingOn(cfg, events, responses, n, s.pending[c]);
    }
    if coin in s.pending {
      var o := s.pending[coin];
      if !TimedOut(cfg, o, events[n].ts) {
        if Touches(o.side, o.limitPx, Printed(events[n])) {
          PrintFills(cfg, events, responses, n, o);
        } else {
          WaitingOn(cfg, events, responses, n, o);
        }
      }
    }
  }

  /** A signal's order or position is its own, on its own side. */
  lemma SignalExplained(cfg: SimConfig, events: seq<Event>, responses: seq<Option<Signal>>, n: nat, s: SimState, signal: Signal)
    requires n < |events| == |responses| && Tradeable(s) && responses[n] == Some(signal)
    requires OrdersExplained(cfg, events, responses, n + 1, s.pending) && PositionsExplained(cfg, events, responses, n + 1, s.open)
    ensures var t := AfterSignal(cfg, s, signal);
            && OrdersExplained(cfg, events, responses, n + 1, t.pending)
            && PositionsExplained(cfg, events, responses, n + 1, t.open)
            && t.result.trades == s.result.trades && t.marks == s.marks
  {
    hide Held, Waiting, Opened;
    if !Refused(cfg, s, signal) {
      assert Clamp(0.0, 1.0, signal.confidence) == Unit(signal.confidence);
      if cfg.makerEntryEnabled {
        SignalRests(cfg, events, responses, n, signal);
      } else {
        SignalOpens(cfg, events, responses, n, signal);
      }
    }
  }

  lemma SignalRests(cfg: SimConfig, events: seq<Event>, responses: seq<Option<Signal>>, n: nat, s: Signal)
    requires n < |events| == |responses| && responses[n] == Some(s) && s.entryMarkPrice > 0.0 && cfg.makerEntryEnabled
    ensures Waiting(cfg, events, responses, n + 1, MakerOrder(s.coin, s.side, s.entryMarkPrice, s.timestamp, Unit(s.confidence)))
  {
    assert RestsFrom(cfg, events, responses, n + 1, n);
  }

  lemma SignalOpens(cfg: SimConfig, events: seq<Event>, responses: seq<Option<Signal>>, n: nat, s: Signal)
    requires n < |events| == |responses| && responses[n] == Some(s) && s.entryMarkPrice > 0.0 && !cfg.makerEntryEnabled
    ensures Held(cfg, events, responses, n + 1, Opened(cfg, s.coin, s.side, s.entryMarkPrice, s.timestamp, Unit(s.confidence)))
  {
    OpenedTerms(cfg, s, s.entryMarkPrice, s.timestamp);
    hide Opened, TermsAt, StopOf;
    var p := Opened(cfg, s.coin, s.side, s.entryMarkPrice, s.timestamp, Unit(s.confidence));
    LivesFromEntry(cfg, events, n, p);
    assert EnteredAt(cfg, events, responses, p.terms, n, n);
  }

  lemma NoPrintExplained(cfg: SimConfig, events: seq<Event>, responses: seq<Option<Signal>>, n: nat, s: SimState)
    requires n < |events| == |responses| && Explained(cfg, events, responses, n, s)
    requires forall c :: !IsPrint(events[n], c)
    ensures Explained(cfg, events, responses, n + 1, s)
  {
    hide Held, Waiting, Closed, IsPrint;
    forall trade <- s.result.trades ensures Closed(cfg, events, responses, n + 1, trade) { StaysClosed(cfg, events, responses, n, trade); }
    forall c <- s.open ensures Held(cfg, events, responses, n + 1, s.open[c]) { ElsewhereHeld(cfg, events, responses, n, s.open[c]); }
    forall c <- s.pending ensures Waiting(cfg, events, responses, n + 1, s.pending[c]) { WaitingOn(cfg, events, responses, n, s.pending[c]); }
    var next := n + 1;
    forall c ensures MarksExplained(events, next, s.marks, c) { assert MarksExplained(events, n, s.marks, c); }
  }

  lemma PriceExplained(cfg: SimConfig, events: seq<Event>, responses: seq<Option<Signal>>, n: nat, s: SimState)
    requires n < |events| == |responses| && Tradeable(s) && Explained(cfg, events, responses, n, s)
    ensures Explained(cfg, events, responses, n + 1, AfterPrice(cfg, s, events[n]))
  {
    hide OrdersExplained, PositionsExplained, TradesExplained, AfterExits, AfterFills, Tradeable;
    var e := events[n];
    var s1 := s.(result := s.result.(processed := s.result.processed + 1));
    CountersDoNotTrade(s, s1.result);
    if PriceOf(e).None? {
      NoPrintExplained(cfg, events, responses, n, s1);
    } else {
      var c := e.coin.value;
      var s2 := s1.(marks := s1.marks[c := PriceOf(e).value]);
      MarksDoNotTrade(s1, s2.marks);
      ExitsExplained(cfg, events, responses, n, s2, c);
      var s3 := AfterExits(cfg, s2, c, Printed(e), e.ts);
      FillsExplained(cfg, events, responses, n, s3, c);
      var next := n + 1;
      forall d ensures MarksExplained(events, next, s2.marks, d) { assert MarksExplained(events, n, s.marks, d); }
    }
  }

  lemma MarksDoNotTrade(s: SimState, marks: map<Coin, real>)
    requires Tradeable(s)
    ensures Tradeable(s.(marks := marks))
  {
  }

  lemma EventExplained(cfg: SimConfig, events: seq<Event>, responses: seq<Option<Signal>>, n: nat, s: SimState)
    requires n < |events| == |responses| && Tradeable(s) && Explained(cfg, events, responses, n, s)
    ensures Explained(cfg, events, responses, n + 1, AfterEvent(cfg, s, events[n], responses[n]))
  {
    hide OrdersExplained, PositionsExplained, TradesExplained, AfterPrice, AfterSignal, Tradeable, MarksExplained;
    PriceExplained(cfg, events, responses, n, s);
    if responses[n].Some? {
      var s1 := AfterPrice(cfg, s, events[n]);
      var counted := s1.(result := s1.result.(signals := s1.result.signals + 1));
      CountersDoNotTrade(s1, counted.result);
      SignalExplained(cfg, events, responses, n, counted, responses[n].value);
    }
  }

  /** In every state of every run from empty books: each resting order, open
      position and booked trade carries the coin, side, price, size and time of a
      signal the strategy gave, was filled, held and closed by the prints that
      had to do so, and by no later ones. */
  lemma {:induction false} RunIsExplained(cfg: SimConfig, events: seq<Event>, responses: seq<Option<Signal>>, n: nat)
    requires n <= |events| == |responses|
    ensures Explained(cfg, events, responses, n, AfterEvents(cfg, EMPTY, events[..n], responses[..n]))
  {
    hide AfterEvent, Explained;
    if n == 0 {
      NothingToExplain(cfg, events, responses);
    } else {
      assert events[..n][..n - 1] == events[..n - 1] && responses[..n][..n - 1] == responses[..n - 1];
      RunIsExplained(cfg, events, responses, n - 1);
      EventExplained(cfg, events, responses, n - 1, AfterEvents(cfg, EMPTY, events[..n - 1], responses[..n - 1]));
    }
  }

  lemma NothingToExplain(cfg: SimConfig, events: seq<Event>, responses: seq<Option<Signal>>)
    requires |events| == |responses|
    ensures Explained(cfg, events, responses, 0, EMPTY)
  {
  }

  lemma {:induction false} MarkedIsExplained(cfg: SimConfig, events: seq<Event>, responses: seq<Option<Signal>>, s: SimState, order: seq<Coin>)
    requires |events| == |responses| && Explained(cfg, events, responses, |events|, s) && forall c <- order :: c in s.open
    ensures forall t <- MarkedToMarket(cfg, s, order) :: EndMarked(cfg, events, responses, t)
  {
    hide Explained, EndMarked, Marked;
    if order != [] {
      MarkedIsExplained(cfg, events, responses, s, order[..|order| - 1]);
      LastIsExplained(cfg, events, responses, s, order[|order| - 1]);
    }
  }

  lemma LastIsExplained(cfg: SimConfig, events: seq<Event>, responses: seq<Option<Signal>>, s: SimState, c: Coin)
    requires |events| == |responses| && Explained(cfg, events, responses, |events|, s) && c in s.open
    ensures EndMarked(cfg, events, responses, Marked(cfg, s, c))
  {
    var p := s.open[c];
    assert MarksExplained(events, |events|, s.marks, c) && Held(cfg, events, responses, |events|, p);
    var i: nat, j: nat :| EnteredAt(cfg, events, responses, p.terms, i, j) && Lives(cfg, events, |events|, j, p);
    BookedPaysOut(cfg, p, if c in s.marks then s.marks[c] else p.terms.entryPx, p.terms.entryTs, EodMark);
    hide Booked, PaidOut, EnteredAt, Survives, Moved, ArmedBy, LastPrint;
    assert Remains(cfg, events, j, Marked(cfg, s, c));
  }

  /** So is the final result, the positions still open booked at the last print. */
  lemma ResultIsExplained(cfg: SimConfig, events: seq<Event>, responses: seq<Option<Signal>>, r: BacktestResult)
    requires |events| == |responses| && BooksClosed(cfg, AfterEvents(cfg, EMPTY, events, responses), r)
    ensures forall t <- r.trades :: Closed(cfg, events, responses, |events|, t) || EndMarked(cfg, events, responses, t)
  {
    hide AfterEvents, Closed, EndMarked, MarkedToMarket;
    var s := AfterEvents(cfg, EMPTY, events, responses);
    RunIsExplained(cfg, events, responses, |events|);
    assert events[..|events|] == events && responses[..|events|] == responses;
    assert TradesExplained(cfg, events, responses, |events|, s.result.trades);
    var order :| IsOrderOf(order, s.open.Keys) && r == s.result.(
        expired := s.result.expired + |s.pending|,
        skipped := s.result.skipped + |s.pending|,
        trades := s.result.trades + MarkedToMarket(cfg, s, order));
    MarkedIsExplained(cfg, events, responses, s, order);
  }

  /** A signal is taken exactly when its coin is free, the cap leaves room and it
      has a price; it then changes nothing of any other coin. */
  lemma SignalIsTakenIff(cfg: SimConfig, s: SimState, signal: Signal)
    requires Tradeable(s)
    ensures var t, c := AfterSignal(cfg, s, signal), signal.coin;
            if c in s.open || c in s.pending || |s.open| + |s.pending| >= cfg.maxConcurrent || signal.entryMarkPrice <= 0.0 then
              t == s.(result := s.result.(skipped := s.result.skipped + 1))
            else if cfg.makerEntryEnabled then
              c in t.pending && t == s.(pending := s.pending[c := t.pending[c]], result := s.result.(placed := s.result.placed + 1))
            else
              c in t.open && t == s.(open := s.open[c := t.open[c]])
  {
    hide Opened, Clamp, Tradeable;
  }
}
