/** The same for the entry-aggression sweep, whose orders are quoted off the mark
    and may be rejected or chased when they arrive. */
module SweepProvenance {
  import opened Prelude
  import opened AggressiveEntry
  import opened Provenance
  import Sim = Simulator

  /** The offset moves the quote towards the market: up for a buy, down for a sell. */
  function Quote(offsetBps: real, s: Sim.Signal): real
  {
    match s.side
    case Long => s.entryMarkPrice * (1.0 + offsetBps / BPS)
    case Short => s.entryMarkPrice * (1.0 - offsetBps / BPS)
  }

  ghost predicate Arrived(events: seq<Sim.Event>, i: nat, n: nat, c: Coin)
    requires n <= |events|
  {
    exists k | i < k < n :: IsPrint(events[k], c)
  }

  /** A bid above the price, an offer below it. */
  predicate Through(side: Side, limit: real, px: real)
  {
    match side case Long => limit > px case Short => limit < px
  }

  /** What the coin's print `k` must be for the order of signal `i` to rest on. */
  ghost predicate StaysQuoted(cfg: Sim.SimConfig, limit: real, events: seq<Sim.Event>, s: Sim.Signal, i: nat, k: nat)
    requires k < |events|
  {
    IsPrint(events[k], s.coin) ==>
      if !Arrived(events, i, k, s.coin) then !Through(s.side, limit, Printed(events[k]))
      else
        && !AtOrBetter(s.side, Printed(events[k]), limit)
        && (cfg.makerFillTimeoutSeconds > 0.0 ==> events[k].ts - s.timestamp < cfg.makerFillTimeoutSeconds)
  }

  ghost predicate QuotedFrom(cfg: Sim.SimConfig, offsetBps: real, events: seq<Sim.Event>, responses: seq<Option<Sim.Signal>>, n: nat, i: nat)
    requires n <= |events| == |responses|
  {
    && i < n && responses[i].Some?
    && forall k | i < k < n :: StaysQuoted(cfg, Quote(offsetBps, responses[i].value), events, responses[i].value, i, k)
  }

  predicate QuoteOf(offsetBps: real, o: Sim.MakerOrder, s: Sim.Signal)
  {
    && o.coin == s.coin && o.side == s.side && o.limitPx == Quote(offsetBps, s) > 0.0
    && o.placedTs == s.timestamp && o.confidence == Unit(s.confidence)
  }

  ghost predicate Resting(cfg: Sim.SimConfig, offsetBps: real, events: seq<Sim.Event>, responses: seq<Option<Sim.Signal>>, n: nat,
                          o: Sim.MakerOrder, arrived: bool)
    requires n <= |events| == |responses|
  {
    exists i: nat | i < n :: QuotedFrom(cfg, offsetBps, events, responses, n, i) && QuoteOf(offsetBps, o, responses[i].value)
      && (arrived <==> Arrived(events, i, n, o.coin))
  }

  /** Filled at its quote by the first touching print after the one it arrived on. */
  ghost predicate FilledAt(cfg: Sim.SimConfig, offsetBps: real, events: seq<Sim.Event>, t: Sim.Terms, s: Sim.Signal, i: nat, j: nat)
    requires j < |events|
  {
    && Arrived(events, i, j, s.coin) && AtOrBetter(s.side, Printed(events[j]), Quote(offsetBps, s))
    && (cfg.makerFillTimeoutSeconds > 0.0 ==> events[j].ts - s.timestamp < cfg.makerFillTimeoutSeconds)
    && TermsAt(cfg, t, s, Quote(offsetBps, s), EntryBps(cfg))
  }

  /** Chased at the very first print, through which the quote went, as a taker. */
  ghost predicate ChasedAt(cfg: Sim.SimConfig, offsetBps: real, events: seq<Sim.Event>, t: Sim.Terms, s: Sim.Signal, i: nat, j: nat)
    requires j < |events|
  {
    && !Arrived(events, i, j, s.coin) && Through(s.side, Quote(offsetBps, s), Printed(events[j]))
    && TermsAt(cfg, t, s, Printed(events[j]), cfg.takerFeeBps)
  }

  ghost predicate SweptInAt(cfg: Sim.SimConfig, offsetBps: real, onCross: OnCross, events: seq<Sim.Event>, responses: seq<Option<Sim.Signal>>,
                            t: Sim.Terms, i: nat, j: nat)
    requires |events| == |responses|
  {
    && j < |events| && QuotedFrom(cfg, offsetBps, events, responses, j, i)
    && IsPrint(events[j], t.coin) && t.entryTs == events[j].ts
    && (FilledAt(cfg, offsetBps, events, t, responses[i].value, i, j)
        || (onCross == Chase && ChasedAt(cfg, offsetBps, events, t, responses[i].value, i, j)))
  }

  ghost predicate SweepHolds(cfg: Sim.SimConfig, offsetBps: real, onCross: OnCross, events: seq<Sim.Event>, responses: seq<Option<Sim.Signal>>,
                             n: nat, p: Sim.Position)
    requires n <= |events| == |responses|
  {
    exists i: nat, j: nat :: SweptInAt(cfg, offsetBps, onCross, events, responses, p.terms, i, j) && Lives(cfg, events, n, j, p)
  }

  ghost predicate SweepClosed(cfg: Sim.SimConfig, offsetBps: real, onCross: OnCross, events: seq<Sim.Event>, responses: seq<Option<Sim.Signal>>,
                              n: nat, trade: Sim.ClosedTrade)
    requires n <= |events| == |responses|
  {
    exists i: nat, j: nat, k: nat ::
      SweptInAt(cfg, offsetBps, onCross, events, responses, trade.terms, i, j) && Ends(cfg, events, n, j, k, trade)
  }

  // ------------------------------------------------------------- the books

  ghost predicate QuotesExplained(cfg: Sim.SimConfig, offsetBps: real, events: seq<Sim.Event>, responses: seq<Option<Sim.Signal>>, n: nat,
                                  pending: map<Coin, Sim.MakerOrder>, unarrived: set<Coin>)
    requires n <= |events| == |responses|
  {
    forall c <- pending :: pending[c].coin == c && Resting(cfg, offsetBps, events, responses, n, pending[c], c !in unarrived)
  }

  ghost predicate HoldingsExplained(cfg: Sim.SimConfig, offsetBps: real, onCross: OnCross, events: seq<Sim.Event>, responses: seq<Option<Sim.Signal>>,
                                    n: nat, open: map<Coin, Sim.Position>)
    requires n <= |events| == |responses|
  {
    forall c <- open :: open[c].terms.coin == c && SweepHolds(cfg, offsetBps, onCross, events, responses, n, open[c])
  }

  ghost predicate OutcomesExplained(cfg: Sim.SimConfig, offsetBps: real, onCross: OnCross, events: seq<Sim.Event>, responses: seq<Option<Sim.Signal>>,
                                    n: nat, trades: seq<Sim.ClosedTrade>)
    requires n <= |events| == |responses|
  {
    forall t <- trades :: SweepClosed(cfg, offsetBps, onCross, events, responses, n, t)
  }

  ghost predicate SweepExplained(cfg: Sim.SimConfig, offsetBps: real, onCross: OnCross, events: seq<Sim.Event>, responses: seq<Option<Sim.Signal>>,
                                 n: nat, a: AggState)
    requires n <= |events| == |responses|
  {
    && QuotesExplained(cfg, offsetBps, events, responses, n, a.sim.pending, a.unarrived)
    && HoldingsExplained(cfg, offsetBps, onCross, events, responses, n, a.sim.open)
    && OutcomesExplained(cfg, offsetBps, onCross, events, responses, n, a.sim.result.trades)
  }

  lemma ArrivedLater(events: seq<Sim.Event>, i: nat, n: nat, c: Coin)
    requires i < n < |events|
    ensures Arrived(events, i, n + 1, c) <==> Arrived(events, i, n, c) || IsPrint(events[n], c)
  {
  }

  /** The order stays on the book and has arrived once its coin printed. */
  lemma RestsOn(cfg: Sim.SimConfig, offsetBps: real, events: seq<Sim.Event>, responses: seq<Option<Sim.Signal>>, n: nat,
                o: Sim.MakerOrder, arrived: bool)
    requires n < |events| == |responses| && Resting(cfg, offsetBps, events, responses, n, o, arrived)
    requires IsPrint(events[n], o.coin) ==>
      if !arrived then !Through(o.side, o.limitPx, Printed(events[n]))
      else
        && !AtOrBetter(o.side, Printed(events[n]), o.limitPx)
        && (cfg.makerFillTimeoutSeconds > 0.0 ==> events[n].ts - o.placedTs < cfg.makerFillTimeoutSeconds)
    ensures Resting(cfg, offsetBps, events, responses, n + 1, o, arrived || IsPrint(events[n], o.coin))
  {
    var i: nat :| i < n && QuotedFrom(cfg, offsetBps, events, responses, n, i) && QuoteOf(offsetBps, o, responses[i].value)
      && (arrived <==> Arrived(events, i, n, o.coin));
    ArrivedLater(events, i, n, o.coin);
    assert StaysQuoted(cfg, Quote(offsetBps, responses[i].value), events, responses[i].value, i, n);
    hide Quote, StaysQuoted, Arrived;
    assert QuotedFrom(cfg, offsetBps, events, responses, n + 1, i);
  }

  lemma QuoteFills(cfg: Sim.SimConfig, offsetBps: real, onCross: OnCross, events: seq<Sim.Event>, responses: seq<Option<Sim.Signal>>, n: nat,
                   o: Sim.MakerOrder)
    requires n < |events| == |responses| && Resting(cfg, offsetBps, events, responses, n, o, true) && IsPrint(events[n], o.coin)
    requires AtOrBetter(o.side, Printed(events[n]), o.limitPx)
    requires cfg.makerFillTimeoutSeconds > 0.0 ==> events[n].ts - o.placedTs < cfg.makerFillTimeoutSeconds
    ensures o.limitPx > 0.0
    ensures SweepHolds(cfg, offsetBps, onCross, events, responses, n + 1,
                       Sim.Opened(cfg, o.coin, o.side, o.limitPx, events[n].ts, o.confidence))
  {
    hide Arrived, Quote, StaysQuoted;
    var i: nat :| i < n && QuotedFrom(cfg, offsetBps, events, responses, n, i) && QuoteOf(offsetBps, o, responses[i].value)
      && Arrived(events, i, n, o.coin);
    OpenedTerms(cfg, responses[i].value, o.limitPx, events[n].ts);
    hide Sim.Opened, TermsAt, StopOf;
    var p := Sim.Opened(cfg, o.coin, o.side, o.limitPx, events[n].ts, o.confidence);
    LivesFromEntry(cfg, events, n, p);
    assert SweptInAt(cfg, offsetBps, onCross, events, responses, p.terms, i, n);
  }

  /** A chased order opens at the print it would have crossed, at its time. */
  lemma QuoteChased(cfg: Sim.SimConfig, offsetBps: real, events: seq<Sim.Event>, responses: seq<Option<Sim.Signal>>, n: nat, o: Sim.MakerOrder)
    requires n < |events| == |responses| && Resting(cfg, offsetBps, events, responses, n, o, false) && IsPrint(events[n], o.coin)
    requires Through(o.side, o.limitPx, Printed(events[n])) && Printed(events[n]) > 0.0
    ensures SweepHolds(cfg, offsetBps, Chase, events, responses, n + 1,
                       Sim.Opened(cfg.(makerEntryEnabled := false), o.coin, o.side, Printed(events[n]), events[n].ts, o.confidence))
  {
    hide Arrived, Quote, StaysQuoted;
    var i: nat :| i < n && QuotedFrom(cfg, offsetBps, events, responses, n, i) && QuoteOf(offsetBps, o, responses[i].value)
      && !Arrived(events, i, n, o.coin);
    var taker := cfg.(makerEntryEnabled := false);
    OpenedTerms(taker, responses[i].value, Printed(events[n]), events[n].ts);
    var p := Sim.Opened(taker, o.coin, o.side, Printed(events[n]), events[n].ts, o.confidence);
    assert TermsAt(cfg, p.terms, responses[i].value, Printed(events[n]), cfg.takerFeeBps);
    assert StopOf(cfg, p.terms, p.stopPx, false);
    hide Sim.Opened, TermsAt, StopOf;
    LivesFromEntry(cfg, events, n, p);
    assert SweptInAt(cfg, offsetBps, Chase, events, responses, p.terms, i, n);
  }

  lemma SweepElsewhere(cfg: Sim.SimConfig, offsetBps: real, onCross: OnCross, events: seq<Sim.Event>, responses: seq<Option<Sim.Signal>>,
                       n: nat, p: Sim.Position)
    requires n < |events| == |responses| && SweepHolds(cfg, offsetBps, onCross, events, responses, n, p) && !IsPrint(events[n], p.terms.coin)
    ensures SweepHolds(cfg, offsetBps, onCross, events, responses, n + 1, p)
  {
    hide SweptInAt, Lives;
    var i: nat, j: nat :| SweptInAt(cfg, offsetBps, onCross, events, responses, p.terms, i, j) && Lives(cfg, events, n, j, p);
    LivesElsewhere(cfg, events, n, j, p);
  }

  lemma SweepStaysClosed(cfg: Sim.SimConfig, offsetBps: real, onCross: OnCross, events: seq<Sim.Event>, responses: seq<Option<Sim.Signal>>,
                         n: nat, trade: Sim.ClosedTrade)
    requires n < |events| == |responses| && SweepClosed(cfg, offsetBps, onCross, events, responses, n, trade)
    ensures SweepClosed(cfg, offsetBps, onCross, events, responses, n + 1, trade)
  {
    hide SweptInAt, Ends;
    var i: nat, j: nat, k: nat :|
      SweptInAt(cfg, offsetBps, onCross, events, responses, trade.terms, i, j) && Ends(cfg, events, n, j, k, trade);
    StaysEnded(cfg, events, n, j, k, trade);
  }

  lemma SweepActs(cfg: Sim.SimConfig, offsetBps: real, onCross: OnCross, events: seq<Sim.Event>, responses: seq<Option<Sim.Signal>>,
                  n: nat, p: Sim.Position)
    requires n < |events| == |responses| && SweepHolds(cfg, offsetBps, onCross, events, responses, n, p) && IsPrint(events[n], p.terms.coin)
    requires p.terms.entryPx > 0.0
    ensures var q := Sim.Advance(cfg, p, Printed(events[n]));
            match Sim.ExitOf(cfg, q, Printed(events[n]), events[n].ts)
            case None => SweepHolds(cfg, offsetBps, onCross, events, responses, n + 1, q)
            case Some(e) => SweepClosed(cfg, offsetBps, onCross, events, responses, n + 1, Sim.Booked(cfg, q, e.px, events[n].ts, e.reason))
  {
    hide Lives, Ends, SweptInAt, Sim.Advance, Sim.ExitOf, Sim.Booked, PaidOut;
    var i: nat, j: nat :| SweptInAt(cfg, offsetBps, onCross, events, responses, p.terms, i, j) && Lives(cfg, events, n, j, p);
    PrintActs(cfg, events, n, j, p);
    BookedKeepsTerms(cfg, Sim.Advance(cfg, p, Printed(events[n])));
  }

  lemma SweepExitsExplained(cfg: Sim.SimConfig, offsetBps: real, onCross: OnCross, events: seq<Sim.Event>, responses: seq<Option<Sim.Signal>>,
                            n: nat, s: Sim.SimState, coin: Coin)
    requires n < |events| == |responses| && Sim.Tradeable(s) && IsPrint(events[n], coin)
    requires HoldingsExplained(cfg, offsetBps, onCross, events, responses, n, s.open)
    requires OutcomesExplained(cfg, offsetBps, onCross, events, responses, n, s.result.trades)
    ensures var t := Sim.AfterExits(cfg, s, coin, Printed(events[n]), events[n].ts);
            && HoldingsExplained(cfg, offsetBps, onCross, events, responses, n + 1, t.open)
            && OutcomesExplained(cfg, offsetBps, onCross, events, responses, n + 1, t.result.trades)
            && t.pending == s.pending
  {
    hide Sim.Advance, Sim.ExitOf, Sim.Booked, SweepHolds, SweepClosed;
    forall trade <- s.result.trades ensures SweepClosed(cfg, offsetBps, onCross, events, responses, n + 1, trade) {
      SweepStaysClosed(cfg, offsetBps, onCross, events, responses, n, trade);
    }
    forall c <- s.open | c != coin ensures SweepHolds(cfg, offsetBps, onCross, events, responses, n + 1, s.open[c]) {
      SweepElsewhere(cfg, offsetBps, onCross, events, responses, n, s.open[c]);
    }
    if coin in s.open { SweepActs(cfg, offsetBps, onCross, events, responses, n, s.open[coin]); }
  }

  lemma SweepFillsExplained(cfg: Sim.SimConfig, offsetBps: real, onCross: OnCross, events: seq<Sim.Event>, responses: seq<Option<Sim.Signal>>,
                            n: nat, a: AggState, coin: Coin)
    requires n < |events| == |responses| && Sound(a) && IsPrint(events[n], coin) && Printed(events[n]) > 0.0
    requires QuotesExplained(cfg, offsetBps, events, responses, n, a.sim.pending, a.unarrived)
    requires HoldingsExplained(cfg, offsetBps, onCross, events, responses, n + 1, a.sim.open)
    ensures var b := AggressiveEntry.AfterFills(cfg, onCross, a, coin, Printed(events[n]), events[n].ts);
            && QuotesExplained(cfg, offsetBps, events, responses, n + 1, b.sim.pending, b.unarrived)
            && HoldingsExplained(cfg, offsetBps, onCross, events, responses, n + 1, b.sim.open)
            && b.sim.result.trades == a.sim.result.trades
  {
    hide Sim.Opened, SweepHolds, Resting;
    forall c <- a.sim.pending | c != coin
      ensures Resting(cfg, offsetBps, events, responses, n + 1, a.sim.pending[c], c !in a.unarrived)
    {
      RestsOn(cfg, offsetBps, events, responses, n, a.sim.pending[c], c !in a.unarrived);
    }
    if coin in a.sim.pending {
      var o := a.sim.pending[coin];
      if coin in a.unarrived {
        if Through(o.side, o.limitPx, Printed(events[n])) {
          QuoteChased(cfg, offsetBps, events, responses, n, o);
        } else {
          RestsOn(cfg, offsetBps, events, responses, n, o, false);
        }
      } else if !Sim.TimedOut(cfg, o, events[n].ts) {
        if Sim.Touches(o.side, o.limitPx, Printed(events[n])) {
          QuoteFills(cfg, offsetBps, onCross, events, responses, n, o);
        } else {
          RestsOn(cfg, offsetBps, events, responses, n, o, true);
        }
      }
    }
  }

  lemma SignalQuotes(cfg: Sim.SimConfig, offsetBps: real, events: seq<Sim.Event>, responses: seq<Option<Sim.Signal>>, n: nat, s: Sim.Signal)
    requires n < |events| == |responses| && responses[n] == Some(s) && Quote(offsetBps, s) > 0.0
    ensures Resting(cfg, offsetBps, events, responses, n + 1,
                    Sim.MakerOrder(s.coin, s.side, Quote(offsetBps, s), s.timestamp, Unit(s.confidence)), false)
  {
    assert QuotedFrom(cfg, offsetBps, events, responses, n + 1, n);
  }

  lemma SweepSignalExplained(cfg: Sim.SimConfig, offsetBps: real, onCross: OnCross, events: seq<Sim.Event>, responses: seq<Option<Sim.Signal>>,
                             n: nat, a: AggState, signal: Sim.Signal)
    requires n < |events| == |responses| && Sound(a) && -BPS < offsetBps < BPS && responses[n] == Some(signal)
    requires QuotesExplained(cfg, offsetBps, events, responses, n + 1, a.sim.pending, a.unarrived)
    ensures var b := AggressiveEntry.AfterSignal(cfg, offsetBps, a, signal);
            && QuotesExplained(cfg, offsetBps, events, responses, n + 1, b.sim.pending, b.unarrived)
            && b.sim.open == a.sim.open && b.sim.result.trades == a.sim.result.trades
  {
    hide Resting;
    if !Sim.Refused(cfg, a.sim, signal) {
      assert Clamp(0.0, 1.0, signal.confidence) == Unit(signal.confidence);
      QuotedLimitIsPositive(offsetBps, signal.entryMarkPrice, signal.side);
      QuotesTowardsTheMarket(offsetBps, signal);
      SignalQuotes(cfg, offsetBps, events, responses, n, signal);
      hide Quote, QuotedLimit;
    }
  }

  lemma QuotesTowardsTheMarket(offsetBps: real, s: Sim.Signal)
    ensures QuotedLimit(offsetBps, s.entryMarkPrice, s.side) == Quote(offsetBps, s)
  {
  }

  lemma NoPrintSweeps(cfg: Sim.SimConfig, offsetBps: real, onCross: OnCross, events: seq<Sim.Event>, responses: seq<Option<Sim.Signal>>,
                      n: nat, a: AggState)
    requires n < |events| == |responses| && SweepExplained(cfg, offsetBps, onCross, events, responses, n, a)
    requires forall c :: !IsPrint(events[n], c)
    ensures SweepExplained(cfg, offsetBps, onCross, events, responses, n + 1, a)
  {
    hide SweepHolds, Resting, SweepClosed, IsPrint;
    forall t <- a.sim.result.trades ensures SweepClosed(cfg, offsetBps, onCross, events, responses, n + 1, t) {
      SweepStaysClosed(cfg, offsetBps, onCross, events, responses, n, t);
    }
    forall c <- a.sim.open ensures SweepHolds(cfg, offsetBps, onCross, events, responses, n + 1, a.sim.open[c]) {
      SweepElsewhere(cfg, offsetBps, onCross, events, responses, n, a.sim.open[c]);
    }
    forall c <- a.sim.pending ensures Resting(cfg, offsetBps, events, responses, n + 1, a.sim.pending[c], c !in a.unarrived) {
      RestsOn(cfg, offsetBps, events, responses, n, a.sim.pending[c], c !in a.unarrived);
    }
  }

  lemma SweepPriceExplained(cfg: Sim.SimConfig, offsetBps: real, onCross: OnCross, events: seq<Sim.Event>, responses: seq<Option<Sim.Signal>>,
                            n: nat, a: AggState)
    requires n < |events| == |responses| && Sound(a) && Priced(events[n])
    requires SweepExplained(cfg, offsetBps, onCross, events, responses, n, a)
    ensures SweepExplained(cfg, offsetBps, onCross, events, responses, n + 1, AfterPrice(cfg, onCross, a, events[n]))
  {
    hide QuotesExplained, HoldingsExplained, OutcomesExplained, Sim.AfterExits, AggressiveEntry.AfterFills, Sim.Tradeable;
    var e := events[n];
    var noted := Noted(a, e);
    if Sim.PriceOf(e).None? {
      NoPrintSweeps(cfg, offsetBps, onCross, events, responses, n, noted);
    } else {
      var c := e.coin.value;
      SweepExitsExplained(cfg, offsetBps, onCross, events, responses, n, noted.sim, c);
      ExitsKeepOrders(cfg, noted.sim, c, Printed(e), e.ts);
      SweepFillsExplained(cfg, offsetBps, onCross, events, responses, n,
        noted.(sim := Sim.AfterExits(cfg, noted.sim, c, Printed(e), e.ts)), c);
    }
  }

  lemma SweepEventExplained(cfg: Sim.SimConfig, offsetBps: real, onCross: OnCross, events: seq<Sim.Event>, responses: seq<Option<Sim.Signal>>,
                            n: nat, a: AggState)
    requires n < |events| == |responses| && Sound(a) && -BPS < offsetBps < BPS && Priced(events[n])
    requires SweepExplained(cfg, offsetBps, onCross, events, responses, n, a)
    ensures SweepExplained(cfg, offsetBps, onCross, events, responses, n + 1,
                           AfterEvent(cfg, offsetBps, onCross, a, events[n], responses[n]))
  {
    hide QuotesExplained, HoldingsExplained, OutcomesExplained, AfterPrice, AggressiveEntry.AfterSignal, Sim.Tradeable;
    SweepPriceExplained(cfg, offsetBps, onCross, events, responses, n, a);
    if responses[n].Some? {
      var priced := AfterPrice(cfg, onCross, a, events[n]);
      Sim.CountersDoNotTrade(priced.sim, Signalled(priced).sim.result);
      SweepSignalExplained(cfg, offsetBps, onCross, events, responses, n, Signalled(priced), responses[n].value);
    }
  }

  const EMPTY_SWEEP := AggState(EMPTY, {}, 0, 0)

  /** In every state of every run of the sweep, in both crossing modes: each
      resting order, open position and booked trade is that of a signal, quoted,
      filled or chased, held and closed by the prints that had to do so. */
  lemma {:induction false} SweepIsExplained(cfg: Sim.SimConfig, offsetBps: real, onCross: OnCross, events: seq<Sim.Event>,
                                            responses: seq<Option<Sim.Signal>>, n: nat)
    requires n <= |events| == |responses| && -BPS < offsetBps < BPS && forall i | 0 <= i < |events| :: Priced(events[i])
    ensures SweepExplained(cfg, offsetBps, onCross, events, responses, n,
                           AfterEvents(cfg, offsetBps, onCross, EMPTY_SWEEP, events[..n], responses[..n]))
  {
    hide AfterEvent, SweepExplained;
    if n == 0 {
      NothingSwept(cfg, offsetBps, onCross, events, responses);
    } else {
      assert events[..n][..n - 1] == events[..n - 1] && responses[..n][..n - 1] == responses[..n - 1];
      SweepIsExplained(cfg, offsetBps, onCross, events, responses, n - 1);
      SweepEventExplained(cfg, offsetBps, onCross, events, responses, n - 1,
        AfterEvents(cfg, offsetBps, onCross, EMPTY_SWEEP, events[..n - 1], responses[..n - 1]));
    }
  }

  lemma NothingSwept(cfg: Sim.SimConfig, offsetBps: real, onCross: OnCross, events: seq<Sim.Event>, responses: seq<Option<Sim.Signal>>)
    requires |events| == |responses|
    ensures SweepExplained(cfg, offsetBps, onCross, events, responses, 0, EMPTY_SWEEP)
  {
  }
}
