/** src/risk/kill_switch.py: the daily drawdown switch.  A day is an integer date;
    one check reads one date.  The debounce sleep is a point where nothing else
    runs, so a re-check is just the equity its callback returns. */
module KillSwitches {
  import opened Prelude

  type Note(==, !new)

  datatype Reason = Drawdown(lossPct: real, dayStart: real, dayHigh: real, markPx: real) | Manual(note: Note)

  datatype KillState = KillState(
    tripped: bool, reason: Option<Reason>, marks: map<Coin, real>,
    day: Option<int>, dayStart: real, high: real)

  /** `recheck` is what the re-check callback would return; `None` is no callback. */
  datatype Check = Check(equity: real, markPx: real, coin: Option<Coin>, recheck: Option<real>, today: int)

  /** A call either raises or answers whether this check confirmed a trip. */
  datatype Answer = Raised | Returned(confirmed: bool)

  function LossPct(reference: real, equity: real): real
  {
    if reference <= 0.0 then 0.0 else (reference - equity) / reference * 100.0
  }

  function Tripped(s: KillState, reason: Reason): KillState
  {
    if s.tripped then s else s.(tripped := true, reason := Some(reason))
  }

  /** A new date forgets yesterday's reference and unlocks the switch. */
  function DayReset(s: KillState, equity: real, today: int): KillState
  {
    s.(day := Some(today), dayStart := equity, high := equity, tripped := false,
       reason := if s.tripped then None else s.reason)
  }

  function Referenced(s: KillState, c: Check): KillState
  {
    var marked := if c.coin.Some? then s.(marks := s.marks[c.coin.value := c.markPx]) else s;
    var dated := if marked.day != Some(c.today) then DayReset(marked, c.equity, c.today) else marked;
    if c.equity > dated.high then dated.(high := c.equity) else dated
  }

  /** What the reason records as the day's start: a zero start reads as unset. */
  function DayStart(s: KillState, equity: real): real
  {
    if s.dayStart == 0.0 then equity else s.dayStart
  }

  function AfterCheck(maxPct: real, s: KillState, c: Check): (KillState, Answer)
  {
    if c.markPx <= 0.0 then (s, Raised)
    else
      var r := Referenced(s, c);
      var loss := LossPct(r.high, c.equity);
      var start := DayStart(r, c.equity);
      if loss < maxPct then (r, Returned(false))
      else if c.recheck.None? then
        (Tripped(r, Drawdown(loss, start, r.high, c.markPx)), Returned(true))
      else if r.tripped then (r, Returned(true))
      else
        var confirmed := LossPct(r.high, c.recheck.value);
        if confirmed >= maxPct then
          (Tripped(r, Drawdown(confirmed, start, r.high, c.markPx)), Returned(true))
        else (r, Returned(false))
  }

  function AfterChecks(maxPct: real, s: KillState, checks: seq<Check>): KillState
  {
    if checks == [] then s
    else AfterCheck(maxPct, AfterChecks(maxPct, s, checks[..|checks| - 1]), checks[|checks| - 1]).0
  }

  // ---------------------------------------------------------- the definition

  /** The checks since the date last changed. */
  function Today(checks: seq<Check>): seq<Check>
  {
    if checks == [] then []
    else
      var init, last := checks[..|checks| - 1], checks[|checks| - 1];
      if init != [] && init[|init| - 1].today == last.today then Today(init) + [last] else [last]
  }

  predicate Loses(maxPct: real, earlier: real, later: real)
  {
    earlier > 0.0 && LossPct(earlier, later) >= maxPct
  }

  ghost predicate SomePairLoses(maxPct: real, checks: seq<Check>)
  {
    exists i, j | 0 <= i < j < |checks| :: Loses(maxPct, checks[i].equity, checks[j].equity)
  }

  ghost predicate IsHighest(high: real, checks: seq<Check>)
  {
    && (exists c <- checks :: c.equity == high)
    && forall c <- checks :: c.equity <= high
  }

  /** The re-check either is not offered or sees the equity that failed, as when
      the only writer of that equity is the blocked caller. */
  predicate Undisturbed(c: Check)
  {
    c.markPx > 0.0 && (c.recheck.None? || c.recheck.value == c.equity)
  }

  predicate Comparable(maxPct: real, c: Check)
  {
    maxPct > 0.0 && (maxPct <= 100.0 || c.equity >= 0.0)
  }

  // ----------------------------------------------------------------- lemmas

  lemma LosesIff(maxPct: real, earlier: real, later: real)
    requires earlier > 0.0
    ensures Loses(maxPct, earlier, later) <==> 100.0 * (earlier - later) >= maxPct * earlier
  {
    var q := (earlier - later) / earlier;
    assert q * earlier == earlier - later;
    if q * 100.0 >= maxPct {
      Scale(maxPct, q * 100.0, earlier);
    } else {
      ScaleStrictly(q * 100.0, maxPct, earlier);
    }
  }

  lemma Scale(a: real, b: real, c: real)
    requires a <= b && c > 0.0
    ensures a * c <= b * c
  {
  }

  lemma ScaleStrictly(a: real, b: real, c: real)
    requires a < b && c > 0.0
    ensures a * c < b * c
  {
  }

  /** A loss from some equity is a loss from any higher one. */
  lemma LosesFromHigher(maxPct: real, low: real, high: real, equity: real)
    requires low <= high && maxPct > 0.0 && (maxPct <= 100.0 || equity >= 0.0)
    requires Loses(maxPct, low, equity)
    ensures Loses(maxPct, high, equity)
  {
    assert low > 0.0;
    LosesIff(maxPct, low, equity);
    LosesIff(maxPct, high, equity);
    hide Loses;
    if maxPct <= 100.0 {
      Distribute(maxPct, low, high);
    } else {
      ScaleStrictly(100.0, maxPct, low);
    }
  }

  lemma Distribute(maxPct: real, low: real, high: real)
    requires low <= high && maxPct <= 100.0
    ensures 100.0 * low - maxPct * low <= 100.0 * high - maxPct * high
  {
    assert (100.0 - maxPct) * (high - low) >= 0.0;
  }

  lemma NoLossAtTheHigh(maxPct: real, equity: real)
    requires maxPct > 0.0
    ensures !Loses(maxPct, equity, equity)
  {
  }

  /** The re-check of an undisturbed equity decides as the check without one. */
  lemma DebounceChangesNothing(maxPct: real, s: KillState, c: Check)
    requires Undisturbed(c)
    ensures AfterCheck(maxPct, s, c) == AfterCheck(maxPct, s, c.(recheck := None))
  {
  }

  /** A mark that is not positive raises and changes nothing; any other is recorded. */
  lemma RaisesIff(maxPct: real, s: KillState, c: Check)
    ensures AfterCheck(maxPct, s, c).1 == Raised <==> c.markPx <= 0.0
    ensures c.markPx <= 0.0 ==> AfterCheck(maxPct, s, c).0 == s
    ensures c.markPx > 0.0 ==>
              AfterCheck(maxPct, s, c).0.marks == if c.coin.Some? then s.marks[c.coin.value := c.markPx] else s.marks
  {
    hide LossPct;
  }

  /** What a trip reports: at least the limit lost, from the day's high to the
      equity last seen, beside the day's first equity (the current one if that was
      zero) and the mark. */
  lemma TripIsReported(maxPct: real, s: KillState, c: Check)
    requires maxPct > 0.0 && c.markPx > 0.0 && !Referenced(s, c).tripped && AfterCheck(maxPct, s, c).0.tripped
    ensures var t, seen := AfterCheck(maxPct, s, c).0, if c.recheck.Some? then c.recheck.value else c.equity;
            && t.reason.Some? && t.reason.value.Drawdown? && t.high > 0.0
            && var why := t.reason.value;
               && why.lossPct >= maxPct && why.lossPct * t.high == (t.high - seen) * 100.0
               && why.dayHigh == t.high && why.markPx == c.markPx
               && why.dayStart == if t.dayStart != 0.0 then t.dayStart else c.equity
  {
    var t, seen := AfterCheck(maxPct, s, c).0, if c.recheck.Some? then c.recheck.value else c.equity;
    if t.high > 0.0 {
      var q := (t.high - seen) / t.high;
      assert q * t.high == t.high - seen;
      LossTimesReference(q, t.high, t.high - seen);
      assert LossPct(t.high, seen) == q * 100.0;
    }
  }

  lemma LossTimesReference(q: real, reference: real, fall: real)
    requires q * reference == fall
    ensures q * 100.0 * reference == fall * 100.0
  {
    assert q * 100.0 * reference == q * reference * 100.0;
  }

  /** The reference is dated by the last check, starts from the day's first equity,
      and a reason stands exactly while the switch is tripped. */
  lemma {:induction false} DayIsKept(maxPct: real, s: KillState, checks: seq<Check>)
    requires (s.tripped <==> s.reason.Some?) && checks != [] && s.day != Some(checks[0].today)
    requires forall c <- checks :: c.markPx > 0.0
    ensures var t := AfterChecks(maxPct, s, checks);
            && t.day == Some(checks[|checks| - 1].today) && Today(checks) != [] && t.dayStart == Today(checks)[0].equity
            && (t.tripped <==> t.reason.Some?)
  {
    var init, last := checks[..|checks| - 1], checks[|checks| - 1];
    hide LossPct;
    if init != [] { DayIsKept(maxPct, s, init); }
  }

  /** A check trips the switch when the equity lost enough from the day's high. */
  lemma CheckTripsIff(maxPct: real, s: KillState, c: Check)
    requires Undisturbed(c) && maxPct > 0.0
    ensures var r, after := Referenced(s, c), AfterCheck(maxPct, s, c);
            && after.0.tripped == (r.tripped || Loses(maxPct, r.high, c.equity))
            && after.0.(tripped := r.tripped, reason := r.reason) == r
            && after.1 == Returned(Loses(maxPct, r.high, c.equity))
  {
  }

  /** Adding today's next equity adds exactly the pairs that end there, and the
      day's high stands for all of them. */
  lemma PairsAppend(maxPct: real, checks: seq<Check>, high: real, c: Check)
    requires IsHighest(high, checks) && Comparable(maxPct, c)
    ensures SomePairLoses(maxPct, checks + [c])
       <==> SomePairLoses(maxPct, checks) || Loses(maxPct, high, c.equity)
  {
    hide Loses;
    var all := checks + [c];
    PairsGrow(maxPct, checks, high, c);
    if SomePairLoses(maxPct, all) {
      var i, j :| 0 <= i < j < |all| && Loses(maxPct, all[i].equity, all[j].equity);
      if j < |checks| {
        assert Loses(maxPct, checks[i].equity, checks[j].equity);
      } else {
        assert checks[i] in checks && Loses(maxPct, checks[i].equity, c.equity);
        LosesFromHigher(maxPct, checks[i].equity, high, c.equity);
      }
    }
  }

  lemma HighestAppend(high: real, checks: seq<Check>, c: Check)
    requires IsHighest(high, checks)
    ensures IsHighest(if c.equity > high then c.equity else high, checks + [c])
  {
    assert (checks + [c])[|checks|] == c;
    var i :| 0 <= i < |checks| && checks[i].equity == high;
    assert (checks + [c])[i] in checks + [c];
  }

  /** Over any stream of checks that starts untripped on a new date, with no
      outside trip or reset: the switch is tripped exactly when, since the date
      last changed, some equity fell by the limit from an earlier one. */
  lemma {:induction false} TrippedIffSomePairLoses(maxPct: real, s: KillState, checks: seq<Check>)
    requires !s.tripped && (checks != [] ==> s.day != Some(checks[0].today))
    requires forall c <- checks :: Undisturbed(c) && Comparable(maxPct, c)
    ensures AfterChecks(maxPct, s, checks).tripped <==> SomePairLoses(maxPct, Today(checks))
    ensures checks != [] ==>
              && AfterChecks(maxPct, s, checks).day == Some(checks[|checks| - 1].today)
              && IsHighest(AfterChecks(maxPct, s, checks).high, Today(checks))
  {
    if checks != [] {
      var init, last := checks[..|checks| - 1], checks[|checks| - 1];
      TrippedIffSomePairLoses(maxPct, s, init);
      var before := AfterChecks(maxPct, s, init);
      CheckTripsIff(maxPct, before, last);
      hide LossPct, AfterCheck;
      if init != [] && init[|init| - 1].today == last.today {
        SameDayStep(maxPct, before, Today(init), last);
      } else {
        FirstOfDayStep(maxPct, before, last);
      }
    }
  }

  /** Whatever the limit and the equities, the switch never trips without a pair
      that lost the limit that day. */
  lemma {:induction false} TripsOnlyOnALoss(maxPct: real, s: KillState, checks: seq<Check>)
    requires maxPct > 0.0 && !s.tripped && (checks != [] ==> s.day != Some(checks[0].today))
    requires forall c <- checks :: Undisturbed(c)
    ensures AfterChecks(maxPct, s, checks).tripped ==> SomePairLoses(maxPct, Today(checks))
    ensures checks != [] ==>
              && AfterChecks(maxPct, s, checks).day == Some(checks[|checks| - 1].today)
              && IsHighest(AfterChecks(maxPct, s, checks).high, Today(checks))
  {
    if checks != [] {
      var init, last := checks[..|checks| - 1], checks[|checks| - 1];
      TripsOnlyOnALoss(maxPct, s, init);
      var before := AfterChecks(maxPct, s, init);
      CheckTripsIff(maxPct, before, last);
      hide LossPct, AfterCheck;
      if init != [] && init[|init| - 1].today == last.today {
        PairsGrow(maxPct, Today(init), before.high, last);
        HighestAppend(before.high, Today(init), last);
        NoLossAtTheHigh(maxPct, last.equity);
        hide IsHighest, SomePairLoses, Loses;
      } else {
        FirstOfDayStep(maxPct, before, last);
      }
    }
  }

  lemma PairsGrow(maxPct: real, checks: seq<Check>, high: real, c: Check)
    requires IsHighest(high, checks)
    ensures SomePairLoses(maxPct, checks) || Loses(maxPct, high, c.equity) ==> SomePairLoses(maxPct, checks + [c])
  {
    hide Loses;
    var all := checks + [c];
    if SomePairLoses(maxPct, checks) {
      var i, j :| 0 <= i < j < |checks| && Loses(maxPct, checks[i].equity, checks[j].equity);
      assert Loses(maxPct, all[i].equity, all[j].equity);
    }
    if Loses(maxPct, high, c.equity) {
      var i :| 0 <= i < |checks| && checks[i].equity == high;
      assert Loses(maxPct, all[i].equity, all[|checks|].equity);
    }
  }

  /** Above 100% an equity below zero loses the limit from some low `r`, yet not
      from twice that. */
  lemma SteeperFromTheLow(maxPct: real, equity: real) returns (r: real)
    requires maxPct > 100.0 && equity < 0.0
    ensures r > 0.0 && Loses(maxPct, r, equity) && !Loses(maxPct, 2.0 * r, equity)
    ensures !Loses(maxPct, r, 2.0 * r)
  {
    var over := maxPct - 100.0;
    r := -100.0 * equity / over;
    assert r * over == -100.0 * equity;
    PositiveFactor(r, over);
    LosesIff(maxPct, r, equity);
    LosesIff(maxPct, 2.0 * r, equity);
    NoLossFromBelow(maxPct, r, 2.0 * r);
    hide Loses;
    assert maxPct * r == 100.0 * r - 100.0 * equity;
    assert maxPct * (2.0 * r) == 2.0 * (maxPct * r);
  }

  lemma PositiveFactor(x: real, y: real)
    requires y > 0.0 && x * y > 0.0
    ensures x > 0.0
  {
  }

  /** The high stands for every lower reference exactly when the limit is at most
      100% or the equity is not below zero. */
  lemma HighStandsForAllIff(maxPct: real, equity: real)
    requires maxPct > 0.0
    ensures maxPct <= 100.0 || equity >= 0.0 <==>
              forall low, high | 0.0 < low <= high && Loses(maxPct, low, equity) :: Loses(maxPct, high, equity)
  {
    if maxPct <= 100.0 || equity >= 0.0 {
      forall low, high | 0.0 < low <= high && Loses(maxPct, low, equity) ensures Loses(maxPct, high, equity) {
        LosesFromHigher(maxPct, low, high, equity);
      }
    } else {
      var r := SteeperFromTheLow(maxPct, equity);
      assert 0.0 < r <= 2.0 * r;
    }
  }

  const UNTRIPPED := KillState(false, None, map[], None, 0.0, 0.0)

  function Reading(equity: real): Check
  {
    Check(equity, 1.0, None, None, 0)
  }

  /** Above 100%, a stream the definition trips on and the switch does not: the
      equity goes from a low to twice that, then below zero. */
  lemma SteepestFallNeedNotBeFromTheHigh(maxPct: real, equity: real) returns (checks: seq<Check>)
    requires maxPct > 100.0 && equity < 0.0
    ensures |checks| == 3 && checks[2].equity == equity && forall c <- checks :: Undisturbed(c)
    ensures SomePairLoses(maxPct, Today(checks)) && !AfterChecks(maxPct, UNTRIPPED, checks).tripped
  {
    var r := SteeperFromTheLow(maxPct, equity);
    var low, high, last := Reading(r), Reading(2.0 * r), Reading(equity);
    checks := [low, high, last];
    NoLossAtTheHigh(maxPct, r);
    NoLossAtTheHigh(maxPct, 2.0 * r);
    hide Loses, LossPct, Referenced;
    assert checks[..2] == [low, high] && [low, high][..1] == [low] && [low][..0] == [];
    assert Today([low]) == [low] && Today([low, high]) == [low, high] && Today(checks) == checks;
    assert Loses(maxPct, checks[0].equity, checks[2].equity);
    FirstReading(maxPct, low);
    var s1 := AfterChecks(maxPct, UNTRIPPED, [low]);
    NextReading(maxPct, s1, high);
    var s2 := AfterChecks(maxPct, UNTRIPPED, [low, high]);
    NextReading(maxPct, s2, last);
    assert AfterChecks(maxPct, UNTRIPPED, checks) == AfterCheck(maxPct, s2, last).0;
  }

  lemma FirstReading(maxPct: real, c: Check)
    requires maxPct > 0.0 && c == Reading(c.equity)
    ensures var s := AfterChecks(maxPct, UNTRIPPED, [c]);
            !s.tripped && s.day == Some(0) && s.high == c.equity
  {
    assert [c][..0] == [];
    CheckTripsIff(maxPct, UNTRIPPED, c);
    NoLossAtTheHigh(maxPct, c.equity);
    hide AfterCheck, Loses;
  }

  lemma NextReading(maxPct: real, s: KillState, c: Check)
    requires maxPct > 0.0 && c == Reading(c.equity) && !s.tripped && s.day == Some(0)
    ensures var t := AfterCheck(maxPct, s, c).0;
            t.day == Some(0) && t.high == RMax(c.equity, s.high) && t.tripped == Loses(maxPct, t.high, c.equity)
  {
    CheckTripsIff(maxPct, s, c);
    hide AfterCheck, Loses;
  }

  ghost predicate AgreesOn(maxPct: real, checks: seq<Check>)
  {
    AfterChecks(maxPct, UNTRIPPED, checks).tripped <==> SomePairLoses(maxPct, Today(checks))
  }

  /** The running high implements the pairwise definition on every undisturbed
      stream exactly for the limits up to 100%. */
  lemma HighWaterMarkIsPairwiseIff(maxPct: real)
    requires maxPct > 0.0
    ensures maxPct <= 100.0 <==> forall checks | (forall c <- checks :: Undisturbed(c)) :: AgreesOn(maxPct, checks)
  {
    if maxPct <= 100.0 {
      forall checks | forall c <- checks :: Undisturbed(c) ensures AgreesOn(maxPct, checks) {
        TrippedIffSomePairLoses(maxPct, UNTRIPPED, checks);
      }
    } else {
      var checks := SteepestFallNeedNotBeFromTheHigh(maxPct, -1.0);
      assert !AgreesOn(maxPct, checks);
    }
  }

  lemma SameDayStep(maxPct: real, before: KillState, earlier: seq<Check>, c: Check)
    requires before.day == Some(c.today) && IsHighest(before.high, earlier) && Comparable(maxPct, c)
    requires before.tripped <==> SomePairLoses(maxPct, earlier)
    ensures var r := Referenced(before, c);
            && (r.tripped || Loses(maxPct, r.high, c.equity) <==> SomePairLoses(maxPct, earlier + [c]))
            && r.day == Some(c.today) && IsHighest(r.high, earlier + [c])
  {
    PairsAppend(maxPct, earlier, before.high, c);
    HighestAppend(before.high, earlier, c);
    NoLossAtTheHigh(maxPct, c.equity);
    NoLossFromBelow(maxPct, before.high, c.equity);
    hide IsHighest, SomePairLoses, Loses;
  }

  lemma NoLossFromBelow(maxPct: real, reference: real, equity: real)
    requires maxPct > 0.0
    ensures equity > reference ==> !Loses(maxPct, reference, equity)
  {
    if reference > 0.0 && equity > reference {
      LosesIff(maxPct, reference, equity);
      ScaleStrictly(0.0, maxPct, reference);
    }
  }

  lemma FirstOfDayStep(maxPct: real, before: KillState, c: Check)
    requires before.day != Some(c.today) && maxPct > 0.0
    ensures var r := Referenced(before, c);
            && !r.tripped && !Loses(maxPct, r.high, c.equity) && !SomePairLoses(maxPct, [c])
            && r.day == Some(c.today) && IsHighest(r.high, [c])
  {
    NoLossAtTheHigh(maxPct, c.equity);
    assert [c][0] == c;
  }

  // -------------------------------------------------------------- the switch

  class KillSwitch {
    const maxDrawdownPct: real
    var tripped: bool
    var tripReason: Option<Reason>
    var markPrices: map<Coin, real>
    var dailyDate: Option<int>
    var dailyStart: Option<real>
    var dailyHigh: Option<real>
    ghost var checks: seq<Check>     // every check so far

    /** Nobody tripped or reset the switch by hand. */
    ghost predicate Unaided()
      reads this
    {
      State() == AfterChecks(maxDrawdownPct, UNTRIPPED, checks)
    }

    ghost predicate Valid()
      reads this
    {
      dailyStart.Some? == dailyHigh.Some? == dailyDate.Some?
    }

    ghost function State(): KillState
      reads this
    {
      KillState(tripped, tripReason, markPrices, dailyDate,
                if dailyStart.Some? then dailyStart.value else 0.0,
                if dailyHigh.Some? then dailyHigh.value else 0.0)
    }

    constructor (maxDrawdownPct: real)
      ensures Valid() && this.maxDrawdownPct == maxDrawdownPct
      ensures State() == UNTRIPPED && checks == [] && Unaided()
    {
      checks := [];
      this.maxDrawdownPct := maxDrawdownPct;
      tripped, tripReason, markPrices := false, None, map[];
      dailyDate, dailyStart, dailyHigh := None, None, None;
    }

    method UpdateMarkPrice(coin: Coin, markPx: real) returns (raised: bool)
      modifies this`markPrices
      ensures raised == (markPx <= 0.0)
      ensures markPrices == if raised then old(markPrices) else old(markPrices)[coin := markPx]
    {
      if markPx <= 0.0 { return true; }
      markPrices := markPrices[coin := markPx];
      raised := false;
    }

    method ResetDailyState(equity: real, today: int)
      modifies this`tripped, this`tripReason, this`dailyDate, this`dailyStart, this`dailyHigh
      ensures Valid() && State() == DayReset(old(State()), equity, today)
    {
      var wasTripped := tripped;
      dailyDate, dailyStart, dailyHigh := Some(today), Some(equity), Some(equity);
      if wasTripped { tripped, tripReason := false, None; }
    }

    /** The day's reference for this equity: the running maximum, begun afresh
        (without unlocking) on a date not seen before. */
    method UpdateHighWaterMark(equity: real, today: int) returns (reference: real, dayStart: real)
      requires Valid()
      modifies this`dailyDate, this`dailyStart, this`dailyHigh
      ensures Valid() && reference == State().high && dayStart == DayStart(State(), equity)
      ensures State() == if old(dailyDate) == Some(today) then old(State()).(high := RMax(equity, old(State()).high))
                         else old(State()).(day := Some(today), dayStart := equity, high := equity)
    {
      if dailyDate != Some(today) || dailyHigh.None? {
        dailyDate, dailyStart, dailyHigh := Some(today), Some(equity), Some(equity);
      } else if equity > dailyHigh.value {
        dailyHigh := Some(equity);
      }
      reference := dailyHigh.value;
      dayStart := if dailyStart.value == 0.0 then equity else dailyStart.value;
    }

    /** Only the first reason is kept. */
    method Trip(reason: Reason)
      modifies this`tripped, this`tripReason
      ensures State() == Tripped(old(State()), reason)
    {
      if tripped { return; }
      tripped, tripReason := true, Some(reason);
    }

    method Reset()
      modifies this`tripped, this`tripReason
      ensures State() == old(State()).(tripped := false, reason := None)
    {
      tripped, tripReason := false, None;
    }

    /** Trading is refused while tripped.  Left to itself, the switch refuses it
        exactly on a day on which some equity already fell by the limit. */
    method AssertCanTrade() returns (locked: bool)
      ensures locked == State().tripped
      ensures Unaided() && (forall c <- checks :: Undisturbed(c) && Comparable(maxDrawdownPct, c)) ==>
                (locked <==> SomePairLoses(maxDrawdownPct, Today(checks)))
    {
      if forall c <- checks :: Undisturbed(c) && Comparable(maxDrawdownPct, c) {
        TrippedIffSomePairLoses(maxDrawdownPct, UNTRIPPED, checks);
      }
      locked := tripped;
    }

    /** The debounced half: after the sleep, the loss at the re-checked equity. */
    method ConfirmDrawdownTrip(reference: real, dayStart: real, markPx: real, recheck: real) returns (confirmed: bool)
      modifies this`tripped, this`tripReason
      ensures confirmed == (old(tripped) || LossPct(reference, recheck) >= maxDrawdownPct)
      ensures State() == if confirmed then Tripped(old(State()), Drawdown(LossPct(reference, recheck), dayStart, reference, markPx))
                         else old(State())
    {
      if tripped { return true; }
      var loss := LossPct(reference, recheck);
      if loss >= maxDrawdownPct {
        Trip(Drawdown(loss, dayStart, reference, markPx));
        return true;
      }
      confirmed := false;
    }

    method CheckDrawdown(c: Check) returns (answer: Answer)
      requires Valid()
      modifies this
      ensures Valid() && (State(), answer) == AfterCheck(maxDrawdownPct, old(State()), c)
      ensures checks == old(checks) + [c] && (old(Unaided()) ==> Unaided())
    {
      assert (checks + [c])[..|checks|] == checks;
      checks := checks + [c];
      if c.markPx <= 0.0 { return Raised; }
      if c.coin.Some? {
        var _ := UpdateMarkPrice(c.coin.value, c.markPx);
      }
      if dailyDate != Some(c.today) { ResetDailyState(c.equity, c.today); }
      var reference, dayStart := UpdateHighWaterMark(c.equity, c.today);
      assert State() == Referenced(old(State()), c);
      var loss := LossPct(reference, c.equity);
      if loss < maxDrawdownPct { return Returned(false); }
      if c.recheck.None? {
        Trip(Drawdown(loss, dayStart, reference, c.markPx));
        return Returned(true);
      }
      var confirmed := ConfirmDrawdownTrip(reference, dayStart, c.markPx, c.recheck.value);
      answer := Returned(confirmed);
    }
  }
}
