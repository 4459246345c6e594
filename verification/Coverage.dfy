/** src/core/session_log.py, coverage_pct: the share of the observed span during
    which the bot was running.  Times are whole microseconds, the resolution of
    the timestamps in the log. */
module Coverage {

  datatype Span = Span(start: int, end: int)

  function Max(a: int, b: int): int { if a >= b then a else b }

  // ----------------------------------------------------------------- sorting

  /** Tuple order: by start, then by end. */
  predicate Precedes(a: Span, b: Span)
  {
    a.start < b.start || (a.start == b.start && a.end <= b.end)
  }

  function Insert(s: Span, sorted: seq<Span>): seq<Span>
  {
    if sorted == [] || Precedes(s, sorted[0]) then [s] + sorted else [sorted[0]] + Insert(s, sorted[1..])
  }

  function Sorted(spans: seq<Span>): seq<Span>
  {
    if spans == [] then [] else Insert(spans[0], Sorted(spans[1..]))
  }

  predicate InOrder(spans: seq<Span>)
  {
    forall i, j | 0 <= i < j < |spans| :: Precedes(spans[i], spans[j])
  }

  lemma {:induction false} InsertSorts(s: Span, sorted: seq<Span>)
    requires InOrder(sorted)
    ensures InOrder(Insert(s, sorted)) && Insert(s, sorted) != []
    ensures multiset(Insert(s, sorted)) == multiset(sorted) + multiset{s}
  {
    if sorted != [] && !Precedes(s, sorted[0]) {
      var rest := Insert(s, sorted[1..]);
      InsertSorts(s, sorted[1..]);
      assert sorted == [sorted[0]] + sorted[1..];
      assert Insert(s, sorted) == [sorted[0]] + rest;
      hide Insert;
      forall t <- rest ensures Precedes(sorted[0], t) {
        assert t in multiset(rest);
      }
    }
  }

  lemma {:induction false} SortedSorts(spans: seq<Span>)
    ensures InOrder(Sorted(spans)) && multiset(Sorted(spans)) == multiset(spans)
    ensures spans != [] ==> Sorted(spans) != []
  {
    if spans != [] {
      SortedSorts(spans[1..]);
      InsertSorts(spans[0], Sorted(spans[1..]));
      assert spans == [spans[0]] + spans[1..];
    }
  }

  lemma SortedKeepsMembers(spans: seq<Span>)
    ensures InOrder(Sorted(spans)) && (spans != [] ==> Sorted(spans) != [])
    ensures forall s :: s in Sorted(spans) <==> s in spans
  {
    SortedSorts(spans);
    hide *;
    forall s ensures s in Sorted(spans) <==> s in spans {
      assert s in multiset(Sorted(spans)) <==> s in multiset(spans);
    }
  }

  // ----------------------------------------------------------------- merging

  /** Extend the last merged interval or start a new one. */
  function Absorbed(merged: seq<Span>, s: Span): seq<Span>
  {
    if merged != [] && s.start <= merged[|merged| - 1].end then
      merged[|merged| - 1 := Span(merged[|merged| - 1].start, Max(merged[|merged| - 1].end, s.end))]
    else
      merged + [s]
  }

  function Merged(spans: seq<Span>): seq<Span>
  {
    if spans == [] then [] else Absorbed(Merged(spans[..|spans| - 1]), spans[|spans| - 1])
  }

  lemma MergedIsNonEmpty(spans: seq<Span>)
    requires spans != []
    ensures Merged(spans) != []
  {
  }

  /** Total length of the intervals, each counted as `end - start`. */
  function Length(spans: seq<Span>): int
  {
    if spans == [] then 0 else Length(spans[..|spans| - 1]) + (spans[|spans| - 1].end - spans[|spans| - 1].start)
  }

  /** 100 * covered / total, or 100 for a span of no length. */
  function Ratio(covered: int, total: int): real
  {
    if total > 0 then 100.0 * covered as real / total as real else 100.0
  }

  function Reported(spans: seq<Span>): real
  {
    var merged := Merged(Sorted(spans));
    if merged == [] then 0.0 else Ratio(Length(merged), merged[|merged| - 1].end - merged[0].start)
  }

  lemma PrefixStep(spans: seq<Span>, i: nat)
    requires i < |spans|
    ensures Merged(spans[..i + 1]) == Absorbed(Merged(spans[..i]), spans[i])
    ensures Length(spans[..i + 1]) == Length(spans[..i]) + (spans[i].end - spans[i].start)
  {
    assert spans[..i + 1][..i] == spans[..i];
  }

  method MergeSpans(spans: seq<Span>) returns (merged: seq<Span>)
    ensures merged == Merged(spans)
  {
    merged := [];
    for i := 0 to |spans|
      invariant merged == Merged(spans[..i])
    {
      PrefixStep(spans, i);
      var s := spans[i];
      if merged != [] && s.start <= merged[|merged| - 1].end {
        var last := merged[|merged| - 1];
        merged := merged[|merged| - 1 := Span(last.start, Max(last.end, s.end))];
      } else {
        merged := merged + [s];
      }
    }
    assert spans[..|spans|] == spans;
  }

  method CoveragePct(sessions: seq<Span>) returns (pct: real)
    ensures pct == Reported(sessions)
  {
    if sessions == [] { return 0.0; }
    SortedSorts(sessions);
    MergedIsNonEmpty(Sorted(sessions));
    hide Merged, Sorted, InOrder;
    var merged := MergeSpans(Sorted(sessions));
    var covered := 0;
    for i := 0 to |merged|
      invariant covered == Length(merged[..i])
    {
      PrefixStep(merged, i);
      covered := covered + (merged[i].end - merged[i].start);
    }
    assert merged[..|merged|] == merged;
    var total := merged[|merged| - 1].end - merged[0].start;
    pct := if total > 0 then 100.0 * covered as real / total as real else 100.0;
  }

  // ------------------------------------------------------- the merged list

  /** Every interval ends before any later one starts. */
  ghost predicate Separated(merged: seq<Span>)
  {
    forall i, j | 0 <= i < j < |merged| ::
      merged[i].start <= merged[j].start && merged[i].end < merged[j].start
  }

  ghost predicate Covers(spans: seq<Span>, t: int)
  {
    exists s <- spans :: s.start <= t <= s.end
  }

  lemma AbsorbedIsSeparated(merged: seq<Span>, s: Span)
    requires Separated(merged) && (forall m <- merged :: m.start <= s.start)
    ensures Separated(Absorbed(merged, s))
    ensures forall m <- Absorbed(merged, s) :: m.start <= s.start
  {
  }

  lemma AbsorbedCovers(merged: seq<Span>, s: Span, t: int)
    requires Separated(merged) && (forall m <- merged :: m.start <= s.start)
    ensures Covers(Absorbed(merged, s), t) <==> Covers(merged, t) || s.start <= t <= s.end
  {
    var n := |merged|;
    var result := Absorbed(merged, s);
    if n > 0 && s.start <= merged[n - 1].end {
      var wide := result[n - 1];
      if Covers(merged, t) {
        var i :| 0 <= i < n && merged[i].start <= t <= merged[i].end;
        assert result[i].start <= t <= result[i].end;
      }
      if s.start <= t <= s.end { assert wide in result && wide.start <= t <= wide.end; }
      if Covers(result, t) {
        var i :| 0 <= i < n && result[i].start <= t <= result[i].end;
        assert i < n - 1 ==> result[i] == merged[i];
        assert merged[n - 1] in merged;
      }
    } else {
      assert result == merged + [s];
      assert s in result;
    }
  }

  lemma {:induction false} MergedIsSeparated(spans: seq<Span>)
    requires InOrder(spans)
    ensures Separated(Merged(spans)) && (spans != [] ==> Merged(spans) != [])
    ensures spans != [] ==> forall m <- Merged(spans) :: m.start <= spans[|spans| - 1].start
  {
    if spans != [] {
      var init, last := spans[..|spans| - 1], spans[|spans| - 1];
      MergedIsSeparated(init);
      StartsBefore(init, last);
      AbsorbedIsSeparated(Merged(init), last);
      hide InOrder, Separated, Absorbed;
    }
  }

  /** Everything merged so far starts no later than the next session. */
  lemma StartsBefore(init: seq<Span>, last: Span)
    requires InOrder(init + [last]) && (init != [] ==> forall m <- Merged(init) :: m.start <= init[|init| - 1].start)
    ensures forall m <- Merged(init) :: m.start <= last.start
  {
    hide Absorbed;
    if init != [] { assert Precedes((init + [last])[|init| - 1], (init + [last])[|init|]); }
  }

  lemma {:induction false} MergedCovers(spans: seq<Span>, t: int)
    requires InOrder(spans)
    ensures Covers(Merged(spans), t) <==> Covers(spans, t)
  {
    if spans != [] {
      var init, last := spans[..|spans| - 1], spans[|spans| - 1];
      assert spans == init + [last];
      MergedCovers(init, t);
      MergedIsSeparated(init);
      StartsBefore(init, last);
      AbsorbedCovers(Merged(init), last, t);
      CoversAppend(init, last, t);
      hide InOrder, Separated, Absorbed, Covers;
    }
  }

  lemma CoversAppend(init: seq<Span>, last: Span, t: int)
    ensures Covers(init + [last], t) <==> Covers(init, t) || last.start <= t <= last.end
  {
    assert (init + [last])[|init|] == last;
  }

  /** Sorted and strictly separated, and covering exactly the points that the
      sessions cover, whatever the sessions are. */
  lemma MergedCoversTheSamePoints(spans: seq<Span>)
    requires InOrder(spans)
    ensures Separated(Merged(spans)) && forall t :: Covers(Merged(spans), t) <==> Covers(spans, t)
  {
    hide *;
    MergedIsSeparated(spans);
    forall t ensures Covers(Merged(spans), t) <==> Covers(spans, t) { MergedCovers(spans, t); }
  }

  /** A merged list never counts more than the distance it spans, so the report
      cannot exceed 100, even for sessions whose clock ran backwards. */
  lemma {:induction false} LengthAtMostReach(merged: seq<Span>)
    requires Separated(merged) && merged != []
    ensures Length(merged) <= merged[|merged| - 1].end - merged[0].start
  {
    var init := merged[..|merged| - 1];
    if init != [] {
      LengthAtMostReach(init);
      assert init[|init| - 1].end < merged[|merged| - 1].start;
    } else {
      assert Length(init) == 0;
    }
  }

  lemma QuotientBound(n: real, d: real, bound: real)
    requires d > 0.0 && n <= bound * d
    ensures n / d <= bound && (n >= 0.0 ==> n / d >= 0.0)
  {
    assert (n / d) * d == n;
  }

  lemma RatioIsAtMostFull(covered: int, total: int)
    requires covered <= total
    ensures Ratio(covered, total) <= 100.0 && (covered >= 0 ==> Ratio(covered, total) >= 0.0)
  {
    if total > 0 {
      var c, t := covered as real, total as real;
      assert 100.0 * c <= 100.0 * t;
      QuotientBound(100.0 * c, t, 100.0);
    }
  }

  lemma NeverAboveOneHundred(spans: seq<Span>)
    ensures Reported(spans) <= 100.0
  {
    SortedSorts(spans);
    MergedIsSeparated(Sorted(spans));
    hide InOrder, Separated, Merged, Sorted;
    var merged := Merged(Sorted(spans));
    if merged != [] {
      LengthAtMostReach(merged);
      RatioIsAtMostFull(Length(merged), merged[|merged| - 1].end - merged[0].start);
    }
  }

  // -------------------------------------------------- measure of the union

  predicate Ran(s: Span, t: int)
  {
    s.start <= t < s.end
  }

  ghost function Cells(lo: int, hi: int): set<int>
  {
    set t | lo <= t < hi && Ran(Span(lo, hi), t)
  }

  /** The microseconds during which some session ran. */
  ghost function Observed(spans: seq<Span>): set<int>
  {
    set s, t | s in spans && s.start <= t < s.end && Ran(s, t) :: t
  }

  lemma {:induction false} CellsSize(lo: int, hi: int)
    ensures |Cells(lo, hi)| == Max(0, hi - lo)
    decreases hi - lo
  {
    if lo < hi {
      CellsSize(lo, hi - 1);
      assert Cells(lo, hi) == Cells(lo, hi - 1) + {hi - 1};
    } else {
      assert Cells(lo, hi) == {};
    }
  }

  /** Some session started earlier and was still running at `t`. */
  ghost predicate Running(spans: seq<Span>, t: int)
  {
    exists s <- spans :: s.start < t <= s.end
  }

  /** Every session that ends before it starts (a clock stepped back) begins
      while a session started earlier is running. */
  ghost predicate Sound(spans: seq<Span>)
  {
    forall s <- spans | s.end < s.start :: Running(spans, s.start)
  }

  ghost predicate Forward(spans: seq<Span>)
  {
    forall s <- spans :: s.start <= s.end
  }

  lemma ObservedAppend(init: seq<Span>, last: Span)
    ensures Observed(init + [last]) == Observed(init) + Cells(last.start, last.end)
  {
    var spans := init + [last];
    assert spans[|init|] == last;
    forall t ensures t in Observed(spans) <==> t in Observed(init) + Cells(last.start, last.end) {
      if Ran(last, t) { assert Ran(Span(last.start, last.end), t); }
    }
  }

  lemma CellsJoin(lo: int, hi: int, s: Span)
    requires lo <= s.start <= hi
    ensures Cells(lo, Max(hi, s.end)) == Cells(lo, hi) + Cells(s.start, s.end)
  {
    forall t ensures t in Cells(lo, Max(hi, s.end)) <==> t in Cells(lo, hi) + Cells(s.start, s.end) {
      assert Ran(Span(lo, hi), t) <==> lo <= t < hi;
      assert Ran(Span(s.start, s.end), t) <==> s.start <= t < s.end;
    }
  }

  lemma AbsorbedObserves(merged: seq<Span>, s: Span)
    requires Separated(merged) && (forall m <- merged :: m.start <= s.start)
    ensures Observed(Absorbed(merged, s)) == Observed(merged) + Cells(s.start, s.end)
  {
    hide Observed, Cells, Separated;
    if merged != [] && s.start <= merged[|merged| - 1].end {
      var init, last := merged[..|merged| - 1], merged[|merged| - 1];
      assert merged == init + [last] && last in merged;
      assert Absorbed(merged, s) == init + [Span(last.start, Max(last.end, s.end))];
      ObservedAppend(init, last);
      ObservedAppend(init, Span(last.start, Max(last.end, s.end)));
      CellsJoin(last.start, last.end, s);
    } else {
      ObservedAppend(merged, s);
    }
  }

  lemma {:induction false} MergedObservesTheSame(spans: seq<Span>)
    requires InOrder(spans)
    ensures Observed(Merged(spans)) == Observed(spans)
  {
    if spans != [] {
      var init, last := spans[..|spans| - 1], spans[|spans| - 1];
      assert spans == init + [last];
      MergedObservesTheSame(init);
      MergedIsSeparated(init);
      StartsBefore(init, last);
      AbsorbedObserves(Merged(init), last);
      ObservedAppend(init, last);
      hide InOrder, Separated, Absorbed, Observed, Cells;
    }
  }

  lemma TailIsDisjoint(init: seq<Span>, last: Span)
    requires forall m <- init :: m.end < last.start
    ensures Observed(init) !! Cells(last.start, last.end)
  {
  }

  /** Strictly separated intervals add up to the measure of their union exactly
      when none of them runs backwards; otherwise they add up to less. */
  lemma {:induction false} LengthIsMeasureIff(merged: seq<Span>)
    requires Separated(merged)
    ensures Length(merged) <= |Observed(merged)|
    ensures Length(merged) == |Observed(merged)| <==> Forward(merged)
  {
    if merged == [] {
      assert Observed(merged) == {};
    } else {
      var init, last := merged[..|merged| - 1], merged[|merged| - 1];
      assert merged == init + [last];
      LengthIsMeasureIff(init);
      assert Forward(merged) <==> Forward(init) && last.start <= last.end;
      assert forall m <- init :: m.end < last.start;
      TailIsDisjoint(init, last);
      ObservedAppend(init, last);
      CellsSize(last.start, last.end);
      hide Observed, Cells, Forward, Separated;
      assert |Observed(merged)| == |Observed(init)| + |Cells(last.start, last.end)|;
    }
  }

  /** Later sessions cannot rescue an earlier backward one. */
  lemma SoundOfInit(init: seq<Span>, last: Span)
    requires InOrder(init + [last])
    ensures Sound(init + [last]) <==> Sound(init) && (last.start <= last.end || Covers(init, last.start))
  {
    var spans := init + [last];
    assert spans[|init|] == last && forall i | 0 <= i < |init| :: spans[i] == init[i] && Precedes(spans[i], last);
    forall s <- init ensures Running(spans, s.start) <==> Running(init, s.start) {}
    if last.end < last.start && Covers(init, last.start) {
      assert Running(spans, last.start);
    }
    if last.end < last.start && Running(spans, last.start) {
      assert Covers(init, last.start);
    }
  }

  lemma AbsorbedIsForwardIff(merged: seq<Span>, s: Span)
    requires Separated(merged) && (forall m <- merged :: m.start <= s.start)
    ensures Forward(Absorbed(merged, s)) <==> Forward(merged) && (s.start <= s.end || Covers(merged, s.start))
  {
    if merged != [] && s.start <= merged[|merged| - 1].end {
      var init, last := merged[..|merged| - 1], merged[|merged| - 1];
      assert merged == init + [last] && last in merged;
      var wide := Span(last.start, Max(last.end, s.end));
      assert Absorbed(merged, s) == init + [wide];
      assert Covers(merged, s.start);
      assert Forward(init + [last]) <==> Forward(init) && last.start <= last.end;
      assert wide in init + [wide];
      assert Forward(init + [wide]) <==> Forward(init) && wide.start <= wide.end;
    } else {
      assert s in merged + [s];
      assert Forward(merged + [s]) <==> Forward(merged) && s.start <= s.end;
      EndedBefore(merged, s.start);
    }
  }

  lemma EndedBefore(merged: seq<Span>, t: int)
    requires Separated(merged) && (forall m <- merged :: m.start <= t)
    requires merged != [] ==> merged[|merged| - 1].end < t
    ensures !Covers(merged, t)
  {
  }

  /** A backward session is absorbed by an earlier interval or stays a backward
      interval of its own for ever. */
  lemma {:induction false} MergedIsForwardIff(spans: seq<Span>)
    requires InOrder(spans)
    ensures Forward(Merged(spans)) <==> Sound(spans)
  {
    if spans != [] {
      var init, last := spans[..|spans| - 1], spans[|spans| - 1];
      assert spans == init + [last];
      MergedIsForwardIff(init);
      MergedIsSeparated(init);
      StartsBefore(init, last);
      MergedCovers(init, last.start);
      AbsorbedIsForwardIff(Merged(init), last);
      SoundOfInit(init, last);
      hide InOrder, Separated, Absorbed, Forward, Sound, Covers;
    }
  }

  // ----------------------------------------------------------- the theorems

  function Earliest(spans: seq<Span>): int
    requires spans != []
  {
    var init, last := spans[..|spans| - 1], spans[|spans| - 1];
    if init == [] || last.start < Earliest(init) then last.start else Earliest(init)
  }

  function Latest(spans: seq<Span>): int
    requires spans != []
  {
    var init, last := spans[..|spans| - 1], spans[|spans| - 1];
    if init == [] then last.end else Max(Latest(init), last.end)
  }

  /** Nothing starts before `Earliest` or ends after `Latest`, and both are met. */
  lemma {:induction false} EndsAreMet(spans: seq<Span>)
    requires spans != []
    ensures (exists s <- spans :: s.start == Earliest(spans)) && forall s <- spans :: Earliest(spans) <= s.start
    ensures (exists s <- spans :: s.end == Latest(spans)) && forall s <- spans :: s.end <= Latest(spans)
  {
    var init, last := spans[..|spans| - 1], spans[|spans| - 1];
    assert spans == init + [last];
    assert last in spans;
    if init != [] { EndsAreMet(init); }
  }

  /** The share of the time from the first start to the last end during which
      some session was running. */
  ghost function Share(spans: seq<Span>): real
    requires spans != []
  {
    Ratio(|Observed(spans)|, Latest(spans) - Earliest(spans))
  }

  lemma SameMembersSameMeasure(a: seq<Span>, b: seq<Span>)
    requires forall s :: s in a <==> s in b
    ensures Observed(a) == Observed(b) && (Sound(a) <==> Sound(b))
  {
    forall t ensures Running(a, t) <==> Running(b, t) {}
  }

  lemma SameMembersSameShare(a: seq<Span>, b: seq<Span>)
    requires a != [] && b != [] && (forall s :: s in a <==> s in b)
    ensures Share(a) == Share(b) && (Sound(a) <==> Sound(b))
  {
    EndsAreMet(a);
    EndsAreMet(b);
    SameMembersSameMeasure(a, b);
    hide Observed, Sound, Earliest, Latest;
  }

  lemma AbsorbedKeepsTheEnds(merged: seq<Span>, s: Span)
    requires merged != [] && Forward(Absorbed(merged, s))
    ensures Absorbed(merged, s)[0].start == merged[0].start
    ensures Absorbed(merged, s)[|Absorbed(merged, s)| - 1].end == Max(merged[|merged| - 1].end, s.end)
  {
    assert s in merged + [s];
  }

  /** The first and last instants of a well-formed merged list are those of the
      sessions. */
  lemma {:induction false} MergedKeepsTheEnds(spans: seq<Span>)
    requires InOrder(spans) && spans != [] && Forward(Merged(spans))
    ensures var merged := Merged(spans);
            merged != [] && merged[0].start == Earliest(spans) && merged[|merged| - 1].end == Latest(spans)
  {
    var init, last := spans[..|spans| - 1], spans[|spans| - 1];
    var merged := Merged(init);
    if init != [] {
      assert spans == init + [last];
      MergedIsSeparated(init);
      StartsBefore(init, last);
      hide InOrder, Separated, Covers;
      AbsorbedIsForwardIff(merged, last);
      MergedKeepsTheEnds(init);
      AbsorbedKeepsTheEnds(merged, last);
      assert merged[0] in merged;
      hide Absorbed, Forward;
    }
  }

  lemma MergedShare(spans: seq<Span>)
    requires InOrder(spans) && spans != [] && Sound(spans)
    ensures var merged := Merged(spans);
            && merged != [] && Length(merged) <= merged[|merged| - 1].end - merged[0].start
            && 0 <= Length(merged) && Ratio(Length(merged), merged[|merged| - 1].end - merged[0].start) == Share(spans)
  {
    hide *;
    MergedIsSeparated(spans);
    MergedObservesTheSame(spans);
    MergedIsForwardIff(spans);
    var merged := Merged(spans);
    LengthIsMeasureIff(merged);
    MergedKeepsTheEnds(spans);
    LengthAtMostReach(merged);
    ShareIs(spans, Length(merged), merged[|merged| - 1].end - merged[0].start);
  }

  lemma ShareIs(spans: seq<Span>, covered: int, total: int)
    requires spans != [] && covered == |Observed(spans)| && total == Latest(spans) - Earliest(spans)
    ensures Share(spans) == Ratio(covered, total)
  {
  }

  /** What the report means: for sessions whose clock never ran backwards, and
      for backward ones that begin during an earlier session, it is the share of
      the whole span covered by the union, between 0 and 100. */
  lemma ReportIsShareOfUnion(sessions: seq<Span>)
    requires sessions != [] && Sound(sessions)
    ensures Reported(sessions) == Share(sessions) && 0.0 <= Reported(sessions) <= 100.0
  {
    var spans := Sorted(sessions);
    hide InOrder, Sorted, Sound, Length, Merged, Share, Ratio;
    SortedKeepsMembers(sessions);
    SameMembersSameShare(sessions, spans);
    MergedShare(spans);
    var merged := Merged(spans);
    RatioIsAtMostFull(Length(merged), merged[|merged| - 1].end - merged[0].start);
  }

  /** The seconds counted are the measure of the union exactly for those
      sessions, and fall short of it for all others. */
  lemma CountedIsMeasureIff(sessions: seq<Span>)
    ensures Length(Merged(Sorted(sessions))) <= |Observed(sessions)|
    ensures Length(Merged(Sorted(sessions))) == |Observed(sessions)| <==> Sound(sessions)
  {
    var spans := Sorted(sessions);
    SortedKeepsMembers(sessions);
    SameMembersSameMeasure(sessions, spans);
    hide *;
    MergedIsSeparated(spans);
    MergedObservesTheSame(spans);
    MergedIsForwardIff(spans);
    LengthIsMeasureIff(Merged(spans));
  }

  lemma FirstIsLeast(spans: seq<Span>, s: Span)
    requires InOrder(spans) && s in spans
    ensures Precedes(spans[0], s)
  {
    var i :| 0 <= i < |spans| && spans[i] == s;
    assert i > 0 ==> Precedes(spans[0], spans[i]);
  }

  /** There is one way to sort a collection of sessions. */
  lemma {:induction false} SortedIsUnique(a: seq<Span>, b: seq<Span>)
    requires InOrder(a) && InOrder(b) && multiset(a) == multiset(b)
    ensures a == b
  {
    if a == [] {
      assert |b| == |multiset(b)|;
    } else {
      assert a[0] in multiset(b);
      assert b[0] in multiset(a);
      FirstIsLeast(a, b[0]);
      FirstIsLeast(b, a[0]);
      assert a == [a[0]] + a[1..] && b == [b[0]] + b[1..];
      assert multiset(a[1..]) == multiset(a) - multiset{a[0]} == multiset(b[1..]);
      SortedIsUnique(a[1..], b[1..]);
    }
  }

  /** Reordering never matters, whatever the sessions. */
  lemma OrderDoesNotMatter(a: seq<Span>, b: seq<Span>)
    requires multiset(a) == multiset(b)
    ensures Reported(a) == Reported(b)
  {
    SortedSorts(a);
    SortedSorts(b);
    SortedIsUnique(Sorted(a), Sorted(b));
  }

  /** No sessions report nothing; one of no length reports full coverage. */
  lemma EmptyReports(at: int)
    ensures Reported([]) == 0.0 && Reported([Span(at, at)]) == 100.0
  {
    var one := [Span(at, at)];
    assert one[..0] == [];
    assert Sorted(one) == one && Merged(one) == one && Length(one) == 0;
  }

  /** Repetition does not matter either, for sessions without a backward one on
      its own. */
  lemma SameSessionsSameReport(a: seq<Span>, b: seq<Span>)
    requires (forall s :: s in a <==> s in b) && Sound(a)
    ensures Reported(a) == Reported(b)
  {
    if a == [] {
      assert forall i | 0 <= i < |b| :: b[i] in a;
    } else {
      assert a[0] in b;
      SameMembersSameShare(a, b);
      ReportIsShareOfUnion(a);
      ReportIsShareOfUnion(b);
    }
  }

  /** A lone backward session after the rest drags the report below zero, and
      recording it twice drags it further. */
  lemma BackwardSessionBreaksTheReport()
    ensures Reported([Span(0, 10), Span(20, 5)]) == -100.0
    ensures Reported([Span(0, 10), Span(20, 5), Span(20, 5)]) == -400.0
  {
    var a, b := Span(0, 10), Span(20, 5);
    assert Sorted([a, b]) == [a, b] && Sorted([a, b, b]) == [a, b, b] by {
      assert [a, b][1..] == [b] && [a, b, b][1..] == [b, b] && [b, b][1..] == [b] && [b][1..] == [];
    }
    assert [a, b, b][..2] == [a, b] && [a, b][..1] == [a] && [a][..0] == [];
    assert Merged([a]) == [a] && Merged([a, b]) == [a, b] && Merged([a, b, b]) == [a, b, b];
    assert Length([a]) == 10 && Length([a, b]) == -5 && Length([a, b, b]) == -20;
  }
}
