/** When and at what price the live bot closes, said of the marks alone. */
module LiveExits {
  import opened Prelude
  import opened PositionManagement
  import opened Lockstep

  predicate AtOrBelow(side: Side, px: real, level: real)
  {
    match side case Long => px <= level case Short => px >= level
  }

  predicate AtOrAbove(side: Side, px: real, level: real)
  {
    match side case Long => px >= level case Short => px <= level
  }

  /** The mark beats the entry by the trigger, a percentage. */
  predicate Gained(settings: Settings, p: Managed, px: real)
  {
    p.entryPx > 0.0 &&
    (match p.side case Long => px - p.entryPx case Short => p.entryPx - px) * 100.0 >= settings.breakEvenTriggerPct * p.entryPx
  }

  /** Armed, the stop is a tenth of a percent beyond entry unless already further. */
  predicate StopOf(p: Managed, stopPx: real, armed: bool)
  {
    if !armed then stopPx == p.stopPx
    else match p.side
      case Long => AtOrAbove(Long, stopPx, p.stopPx) && AtOrAbove(Long, stopPx, p.entryPx * 1.001)
                   && (stopPx == p.stopPx || stopPx == p.entryPx * 1.001)
      case Short => AtOrAbove(Short, stopPx, p.stopPx) && AtOrAbove(Short, stopPx, p.entryPx * 0.999)
                    && (stopPx == p.stopPx || stopPx == p.entryPx * 0.999)
  }

  // ------------------------------------------------------------- reasons

  predicate Stopped(settings: Settings, q: Managed, px: real, now: Instant)
  {
    AtOrBelow(q.side, px, q.stopPx) && (settings.minHoldSeconds <= 0.0 || now - q.openedAt >= settings.minHoldSeconds)
  }

  /** Back at the rolling mean, and in profit. */
  predicate Reverted(settings: Settings, q: Managed, px: real, target: Option<real>)
  {
    settings.reversionTpEnabled && target.Some? && AtOrAbove(q.side, px, target.value) && !AtOrBelow(q.side, px, q.entryPx)
  }

  /** The callback given back from a positive peak. */
  predicate Trailed(settings: Settings, q: Managed, px: real)
  {
    && q.peakPx.Some? && q.peakPx.value > 0.0 && settings.trailingCallbackPct > 0.0
    && AtOrBelow(q.side, px, q.peakPx.value * match q.side case Long => 1.0 - settings.trailingCallbackPct
                                                          case Short => 1.0 + settings.trailingCallbackPct)
  }

  predicate HeldTooLong(settings: Settings, q: Managed, now: Instant)
  {
    settings.maxHoldSeconds > 0.0 && now - q.openedAt >= settings.maxHoldSeconds
  }

  predicate NothingDue(settings: Settings, q: Managed, px: real, now: Instant, target: Option<real>)
  {
    !Stopped(settings, q, px, now) && !Reverted(settings, q, px, target) && !Trailed(settings, q, px) && !HeldTooLong(settings, q, now)
  }

  /** The first reason that applies. */
  predicate Due(settings: Settings, q: Managed, px: real, now: Instant, target: Option<real>, reason: ExitReason)
  {
    match reason
    case StopLoss => Stopped(settings, q, px, now)
    case ReversionTp => !Stopped(settings, q, px, now) && Reverted(settings, q, px, target)
    case TrailingStop => !Stopped(settings, q, px, now) && !Reverted(settings, q, px, target) && Trailed(settings, q, px)
    case TimeStop =>
      && !Stopped(settings, q, px, now) && !Reverted(settings, q, px, target) && !Trailed(settings, q, px)
      && HeldTooLong(settings, q, now)
    case KillSwitchExit => false
  }

  lemma DecisionIsDue(settings: Settings, q: Managed, px: real, now: Instant, target: Option<real>)
    ensures match ExitDecision(settings, q, px, now, target)
            case None => NothingDue(settings, q, px, now, target)
            case Some(request) => Due(settings, q, px, now, target, request.reason) && request.px == px
  {
  }

  // ------------------------------------------------------------- one mark

  /** The best of the peak (the mark, if there is none) and the mark; the stop
      armed by this mark, or as it was. */
  predicate MarkMoves(settings: Settings, p: Managed, px: real, q: Managed)
  {
    && q == p.(stopPx := q.stopPx, breakEvenArmed := q.breakEvenArmed, peakPx := q.peakPx)
    && q.peakPx.Some? && AtOrAbove(p.side, q.peakPx.value, px)
    && (p.peakPx.None? ==> q.peakPx.value == px)
    && (p.peakPx.Some? ==> AtOrAbove(p.side, q.peakPx.value, p.peakPx.value) && (q.peakPx == p.peakPx || q.peakPx.value == px))
    && (q.breakEvenArmed <==> p.breakEvenArmed || (settings.breakEvenTriggerPct > 0.0 && Gained(settings, p, px)))
    && StopOf(p, q.stopPx, q.breakEvenArmed && !p.breakEvenArmed)
  }

  lemma GainIs(settings: Settings, p: Managed, px: real)
    requires settings.breakEvenTriggerPct > 0.0
    ensures Gained(settings, p, px) <==> GainPct(p, px) >= settings.breakEvenTriggerPct
  {
    if p.entryPx > 0.0 {
      var move := match p.side case Long => px - p.entryPx case Short => p.entryPx - px;
      PercentOf(move, p.entryPx, settings.breakEvenTriggerPct);
    }
  }

  lemma PercentOf(move: real, entry: real, trigger: real)
    requires entry > 0.0
    ensures move / entry * 100.0 >= trigger <==> move * 100.0 >= trigger * entry
  {
    var gain := move / entry;
    assert gain * entry == move;
    var d := gain * 100.0 - trigger;
    assert d * entry == move * 100.0 - trigger * entry;
    SignOf(d, entry);
  }

  lemma SignOf(d: real, e: real)
    requires e > 0.0
    ensures d >= 0.0 <==> d * e >= 0.0
  {
  }

  lemma AdvancedMoves(settings: Settings, p: Managed, px: real)
    ensures MarkMoves(settings, p, px, Advanced(settings, p, px))
  {
    if settings.breakEvenTriggerPct > 0.0 { GainIs(settings, WithPeak(p, px), px); }
    hide GainPct;
  }

  /** One fresh mark with the switch untripped: the position moves; if a reason
      is due, one row is journalled at the mark, and the position leaves exactly
      if the exchange accepts the exit. */
  lemma MarkActs(settings: Settings, s: Live, coin: Coin, px: real, now: Instant, target: Option<real>, response: Response)
    returns (q: Managed, reason: ExitReason)
    requires KeyedByCoin(s) && coin in s.book
    ensures MarkMoves(settings, s.book[coin], px, q)
    ensures var t := AfterMark(settings, s, coin, px, now, target, response);
            if NothingDue(settings, q, px, now, target) then t.book == s.book[coin := q] && t.journal == s.journal
            else
              && Due(settings, q, px, now, target, reason)
              && t.book == (if response == Accepted then s.book - {coin} else s.book[coin := q])
              && |t.journal| == |s.journal| + 1 && s.journal == t.journal[..|s.journal|]
              && Journals(settings, t.journal[|s.journal|], q, px, reason)
  {
    q := Advanced(settings, s.book[coin], px);
    AdvancedMoves(settings, s.book[coin], px);
    DecisionIsDue(settings, q, px, now, target);
    var request := ExitDecision(settings, q, px, now, target);
    hide MarkMoves, ExitDecision, RowOf, NothingDue, Due, Journals, WithPeak, WithBreakEven;
    OneRow(settings, s, coin, px, now, target, response);
    reason := TimeStop;
    if request.Some? {
      reason := request.value.reason;
      RowJournals(settings, q, request.value);
      DueIsNotNothing(settings, q, px, now, target, reason);
    }
  }

  lemma DueIsNotNothing(settings: Settings, q: Managed, px: real, now: Instant, target: Option<real>, reason: ExitReason)
    requires Due(settings, q, px, now, target, reason)
    ensures !NothingDue(settings, q, px, now, target)
  {
  }

  lemma OneRow(settings: Settings, s: Live, coin: Coin, px: real, now: Instant, target: Option<real>, response: Response)
    requires KeyedByCoin(s) && coin in s.book
    ensures var t, q := AfterMark(settings, s, coin, px, now, target, response), Advanced(settings, s.book[coin], px);
            match ExitDecision(settings, q, px, now, target)
            case None => t.book == s.book[coin := q] && t.journal == s.journal
            case Some(request) =>
              && t.book == (if response == Accepted then s.book - {coin} else s.book[coin := q])
              && t.journal == s.journal + [RowOf(settings, q, request)]
  {
    hide WithPeak, WithBreakEven, ExitDecision, RowOf, AfterPeak, AfterBreakEven;
  }

  // ------------------------------------------------------------- whole lives

  ghost predicate ArmedBy(settings: Settings, p: Managed, ticks: seq<Tick>)
  {
    settings.breakEvenTriggerPct > 0.0 && exists k | 0 <= k < |ticks| :: Gained(settings, p, ticks[k].px)
  }

  /** The best of the entry and all marks. */
  ghost predicate BestMark(p: Managed, ticks: seq<Tick>, peakPx: real)
  {
    && AtOrAbove(p.side, peakPx, p.entryPx)
    && (forall k | 0 <= k < |ticks| :: AtOrAbove(p.side, peakPx, ticks[k].px))
    && (peakPx == p.entryPx || exists k | 0 <= k < |ticks| :: ticks[k].px == peakPx)
  }

  /** The position a newly entered one has become after these marks. */
  ghost predicate Became(settings: Settings, p: Managed, ticks: seq<Tick>, q: Managed)
  {
    && q == p.(stopPx := q.stopPx, breakEvenArmed := q.breakEvenArmed, peakPx := q.peakPx)
    && (q.breakEvenArmed <==> ArmedBy(settings, p, ticks))
    && StopOf(p, q.stopPx, q.breakEvenArmed)
    && q.peakPx.Some? && BestMark(p, ticks, q.peakPx.value)
  }

  /** No reason to close at mark `k`, judged on all marks up to it. */
  ghost predicate Survives(settings: Settings, p: Managed, ticks: seq<Tick>, targets: seq<Option<real>>, k: nat)
    requires k < |ticks| == |targets|
  {
    exists q :: Became(settings, p, ticks[..k + 1], q) && NothingDue(settings, q, ticks[k].px, ticks[k].ts, targets[k])
  }

  lemma BestMarkStep(p: Managed, ticks: seq<Tick>, peak: real, px: real, ts: Instant, next: real)
    requires BestMark(p, ticks, peak) && AtOrAbove(p.side, next, px) && AtOrAbove(p.side, next, peak) && (next == peak || next == px)
    ensures BestMark(p, ticks + [Tick(px, ts)], next)
  {
    var more := ticks + [Tick(px, ts)];
    if next != px && next != p.entryPx {
      var k :| 0 <= k < |ticks| && ticks[k].px == peak;
      assert more[k].px == next;
    }
    assert more[|ticks|].px == px;
  }

  lemma ArmedStep(settings: Settings, p: Managed, ticks: seq<Tick>, px: real, ts: Instant)
    ensures ArmedBy(settings, p, ticks + [Tick(px, ts)])
       <==> ArmedBy(settings, p, ticks) || (settings.breakEvenTriggerPct > 0.0 && Gained(settings, p, px))
  {
    hide Gained;
    var more := ticks + [Tick(px, ts)];
    assert more[|ticks|].px == px;
    assert forall k | 0 <= k < |ticks| :: more[k] == ticks[k];
  }

  /** One more mark takes the position to what one more mark makes of it. */
  lemma BecameStep(settings: Settings, p: Managed, ticks: seq<Tick>, q: Managed, px: real, ts: Instant, r: Managed)
    requires Became(settings, p, ticks, q) && MarkMoves(settings, q, px, r)
    ensures Became(settings, p, ticks + [Tick(px, ts)], r)
  {
    ArmedStep(settings, p, ticks, px, ts);
    BestMarkStep(p, ticks, q.peakPx.value, px, ts, r.peakPx.value);
    hide ArmedBy, BestMark;
    assert Gained(settings, p, px) == Gained(settings, q, px);
    hide Gained;
  }

  /** Entered with its peak at the entry, a position lives exactly until the first
      mark with a reason to close it, judged on all its marks. */
  lemma {:induction false} LiveClosesAtFirstDueMark(settings: Settings, p: Managed, ticks: seq<Tick>, targets: seq<Option<real>>)
    requires p.peakPx == Some(p.entryPx) && !p.breakEvenArmed && |targets| == |ticks|
    ensures match LiveLife(settings, p, ticks, targets)
            case LiveOpen(q) => Became(settings, p, ticks, q) && forall k: nat | k < |ticks| :: Survives(settings, p, ticks, targets, k)
            case LiveClosed(at, q, request) =>
              && at < |ticks| && Became(settings, p, ticks[..at + 1], q)
              && Due(settings, q, ticks[at].px, ticks[at].ts, targets[at], request.reason) && request.px == ticks[at].px
              && forall k: nat | k < at :: Survives(settings, p, ticks, targets, k)
  {
    hide Became, Due, NothingDue, MarkMoves, Advanced, ExitDecision;
    if ticks == [] {
      FreshBecame(settings, p);
    } else {
      var n := |ticks| - 1;
      var init := ticks[..n];
      LiveClosesAtFirstDueMark(settings, p, init, targets[..n]);
      forall k: nat | k < n ensures Survives(settings, p, init, targets[..n], k) == Survives(settings, p, ticks, targets, k) {
        assert init[..k + 1] == ticks[..k + 1];
      }
      match LiveLife(settings, p, init, targets[..n])
      case LiveOpen(q) =>
        var r := Advanced(settings, q, ticks[n].px);
        AdvancedMoves(settings, q, ticks[n].px);
        BecameStep(settings, p, init, q, ticks[n].px, ticks[n].ts, r);
        assert init + [Tick(ticks[n].px, ticks[n].ts)] == ticks == ticks[..n + 1];
        DecisionIsDue(settings, r, ticks[n].px, ticks[n].ts, targets[n]);
      case LiveClosed(at, _, _) =>
        assert init[..at + 1] == ticks[..at + 1];
    }
  }

  lemma FreshBecame(settings: Settings, p: Managed)
    requires p.peakPx == Some(p.entryPx) && !p.breakEvenArmed
    ensures Became(settings, p, [], p)
  {
  }

  /** On the books, exits accepted: the position is open as its marks made it, or
      gone with one row, at the first mark that had to close it. */
  lemma LiveBooksAreExplained(settings: Settings, s: Live, coin: Coin, ticks: seq<Tick>, targets: seq<Option<real>>)
    requires KeyedByCoin(s) && coin in s.book && |targets| == |ticks|
    requires s.book[coin].peakPx == Some(s.book[coin].entryPx) && !s.book[coin].breakEvenArmed
    ensures var t, p := LiveAfter(settings, s, coin, ticks, targets), s.book[coin];
            if coin in t.book then
              && t.book == s.book[coin := t.book[coin]] && t.journal == s.journal
              && Became(settings, p, ticks, t.book[coin])
              && forall k: nat | k < |ticks| :: Survives(settings, p, ticks, targets, k)
            else
              && t.book == s.book - {coin} && |t.journal| == |s.journal| + 1 && s.journal == t.journal[..|s.journal|]
              && exists at: nat | at < |ticks| :: ClosedAt(settings, p, ticks, targets, at, t.journal[|s.journal|])
  {
    hide Became, Due, Survives, RowOf, LiveAfter, Journals;
    LiveBooksFollowFate(settings, s, coin, ticks, targets);
    LiveClosesAtFirstDueMark(settings, s.book[coin], ticks, targets);
    match LiveLife(settings, s.book[coin], ticks, targets)
    case LiveOpen(_) =>
    case LiveClosed(at, q, request) =>
      RowJournals(settings, q, request);
      var row := RowOf(settings, q, request);
      assert row.position == q && row.reason == request.reason by { RowFields(settings, q, request); }
      assert ClosedAt(settings, s.book[coin], ticks, targets, at, row);
      assert LiveAfter(settings, s, coin, ticks, targets).journal[|s.journal|] == row;
  }

  lemma RowFields(settings: Settings, q: Managed, request: ExitRequest)
    ensures RowOf(settings, q, request).position == q && RowOf(settings, q, request).reason == request.reason
  {
  }

  /** The row of an exit at mark `at`, the first with a reason. */
  ghost predicate ClosedAt(settings: Settings, p: Managed, ticks: seq<Tick>, targets: seq<Option<real>>, at: nat, row: JournalRow)
    requires at < |ticks| == |targets|
  {
    && Became(settings, p, ticks[..at + 1], row.position)
    && Due(settings, row.position, ticks[at].px, ticks[at].ts, targets[at], row.reason)
    && Journals(settings, row, row.position, ticks[at].px, row.reason)
    && forall k: nat | k < at :: Survives(settings, p, ticks, targets, k)
  }
}
