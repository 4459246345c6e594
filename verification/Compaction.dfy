/** scripts/compact_recordings.py: compress finished days, verifying the archive
    before the original goes.  Every file step is a point where the process may
    die; `crashPoints` lists the directory as each step left it. */
module Compaction {
  import opened Recordings

  /** Bytes of a plain file: each line and its newline. */
  function Size(lines: seq<Line>): nat
  {
    if lines == [] then 0 else Size(lines[..|lines| - 1]) + lines[|lines| - 1].width + 1
  }

  /** A byte count is enough to tell a copy from one that stopped short. */
  lemma {:induction false} ShortCopyIsSmaller(copied: seq<Line>, lines: seq<Line>)
    requires copied <= lines
    ensures Size(copied) == Size(lines) <==> copied == lines
    ensures Size(copied) <= Size(lines)
  {
    if |copied| < |lines| {
      assert copied <= lines[..|lines| - 1];
      ShortCopyIsSmaller(copied, lines[..|lines| - 1]);
    } else {
      assert copied == lines;
    }
  }

  /** Nothing recorded is lost: each day that had a plain file still has it, or
      has an archive that decodes to it. */
  ghost predicate Preserves(before: Dir, after: Dir)
  {
    forall d <- before.plain ::
      || (d in after.plain && after.plain[d] == before.plain[d])
      || (d !in after.plain && d in after.archive && after.archive[d] == before.plain[d])
  }

  /** One day's files may differ between the two directories, no other's. */
  ghost predicate OnlyTouches(before: Dir, after: Dir, d: Date)
  {
    && before.plain - {d} == after.plain - {d}
    && before.archive - {d} == after.archive - {d}
    && before.part - {d} == after.part - {d}
  }

  /** A crash point of compacting day `d`: replay cannot tell it from `before`. */
  ghost predicate SafeFor(before: Dir, after: Dir, d: Date)
  {
    Preserves(before, after) && OnlyTouches(before, after, d) && Replay(after) == Replay(before)
  }

  lemma SameLinesSameReplay(a: Dir, b: Dir)
    requires a.plain.Keys + a.archive.Keys == b.plain.Keys + b.archive.Keys
    requires forall d <- a.plain.Keys + a.archive.Keys :: LinesAt(a, d) == LinesAt(b, d)
    ensures Replay(a) == Replay(b)
  {
    hide Replay, Decoded;
    SameDecodedSameReplay(a, b);
  }

  lemma PartIsInvisible(dir: Dir, part: map<Date, Archive>, d: Date)
    requires dir.part - {d} == part - {d}
    ensures SafeFor(dir, dir.(part := part), d)
  {
    SameLinesSameReplay(dir, dir.(part := part));
  }

  /** In place: the archive of a day whose plain file is still there. */
  lemma ArchiveBesidePlain(dir: Dir, d: Date, lines: seq<Line>, part: map<Date, Archive>)
    requires d in dir.plain && dir.part - {d} == part - {d}
    ensures SafeFor(dir, dir.(archive := dir.archive[d := lines], part := part), d)
  {
    var after := dir.(archive := dir.archive[d := lines], part := part);
    SameLinesSameReplay(dir, after);
    assert dir.archive - {d} == after.archive - {d};
  }

  /** The plain file may go once its archive decodes to it. */
  lemma ArchiveInsteadOfPlain(dir: Dir, d: Date, part: map<Date, Archive>)
    requires d in dir.plain && dir.part - {d} == part - {d}
    ensures SafeFor(dir, Dir(dir.plain - {d}, dir.archive[d := dir.plain[d]], part), d)
  {
    hide Replay;
    var after := Dir(dir.plain - {d}, dir.archive[d := dir.plain[d]], part);
    assert dir.plain.Keys + dir.archive.Keys == after.plain.Keys + after.archive.Keys;
    SameLinesSameReplay(dir, after);
    assert dir.archive - {d} == after.archive - {d};
    assert dir.plain - {d} == after.plain - {d};
  }

  datatype Outcome = Compacted | Refused | Failed

  /** The directory after each file step of compacting day `d`, where `written`
      is what the compressor left in the partial file. */
  function Trace(dir: Dir, d: Date, keepPlain: bool, written: Archive): (trace: seq<Dir>)
    requires d in dir.plain
    ensures trace != []
  {
    var cleared := dir.(part := dir.part - {d});
    [cleared, cleared.(part := cleared.part[d := Truncated]), cleared.(part := cleared.part[d := written])]
    + if written.Truncated? then []
      else if Size(written.lines) != Size(dir.plain[d]) then [cleared]
      else
        var archived := cleared.(archive := dir.archive[d := written.lines]);
        [archived] + if keepPlain then [] else [archived.(plain := dir.plain - {d})]
  }

  /** Wherever the process dies, the directory replays as before, no day is
      lost and no other day's files changed. */
  lemma EveryCrashPointIsSafe(dir: Dir, d: Date, keepPlain: bool, written: Archive)
    requires d in dir.plain && (written.Whole? ==> written.lines <= dir.plain[d])
    ensures forall p <- Trace(dir, d, keepPlain, written) :: SafeFor(dir, p, d)
  {
    hide Replay, SafeFor;
    var cleared := dir.part - {d};
    assert cleared[d := Truncated] - {d} == cleared && cleared[d := written] - {d} == cleared && cleared - {d} == cleared;
    PartIsInvisible(dir, cleared, d);
    PartIsInvisible(dir, cleared[d := Truncated], d);
    PartIsInvisible(dir, cleared[d := written], d);
    if written.Whole? && Size(written.lines) == Size(dir.plain[d]) {
      ShortCopyIsSmaller(written.lines, dir.plain[d]);
      ArchiveBesidePlain(dir, d, written.lines, cleared);
      ArchiveInsteadOfPlain(dir, d, cleared);
    }
  }

  /** The plain file is gone at a crash point only if its archive, decoding to
      the very same lines, was in place at the one before. */
  lemma DeletedOnlyOnceArchived(dir: Dir, d: Date, keepPlain: bool, written: Archive, i: nat)
    requires d in dir.plain && (written.Whole? ==> written.lines <= dir.plain[d])
    requires i < |Trace(dir, d, keepPlain, written)| && d !in Trace(dir, d, keepPlain, written)[i].plain
    ensures i > 0 && var p := Trace(dir, d, keepPlain, written)[i - 1];
            p.archive == dir.archive[d := dir.plain[d]] && p.plain == dir.plain
  {
    if written.Whole? { ShortCopyIsSmaller(written.lines, dir.plain[d]); }
    hide Size;
  }

  /** Where a run ends: compacted exactly when the whole file was written. */
  lemma TraceEnds(dir: Dir, d: Date, keepPlain: bool, written: Archive)
    requires d in dir.plain && (written.Whole? ==> written.lines <= dir.plain[d])
    ensures var trace := Trace(dir, d, keepPlain, written);
            var end := trace[|trace| - 1];
            if written == Whole(dir.plain[d]) then
              end == Dir(if keepPlain then dir.plain else dir.plain - {d}, dir.archive[d := dir.plain[d]], dir.part - {d})
            else end.plain == dir.plain && end.archive == dir.archive
  {
    if written.Whole? { ShortCopyIsSmaller(written.lines, dir.plain[d]); }
    hide Size;
  }

  // ----------------------------------------------------------- candidates

  function Candidates(dir: Dir, cutoff: Date): set<Date>
  {
    set d <- dir.plain | Eligible(dir, cutoff, d)
  }

  /** The finished days without an archive, oldest first, at most `limit` of
      them when a limit is given. */
  method FindCandidates(dir: Dir, cutoff: Date, limit: int) returns (candidates: seq<Date>)
    ensures var all := Ascending(Candidates(dir, cutoff));
            candidates == if 0 < limit < |all| then all[..limit] else all
    ensures forall d <- candidates :: d in dir.plain && d.day < cutoff.day && d !in dir.archive
    ensures limit <= 0 ==> forall d <- dir.plain | d.day < cutoff.day && d !in dir.archive :: d in candidates
    ensures forall i, j | 0 <= i < j < |candidates| :: candidates[i].day < candidates[j].day
  {
    candidates := [];
    var names := Ascending(dir.plain.Keys);
    for i := 0 to |names|
      invariant candidates == Filtered(dir, cutoff, names[..i])
    {
      assert names[..i + 1][..i] == names[..i];
      if names[i].day >= cutoff.day { continue; }
      if names[i] in dir.archive { continue; }
      candidates := candidates + [names[i]];
    }
    assert names[..|names|] == names;
    FilterOfAscending(dir, cutoff, dir.plain.Keys);
    assert Candidates(dir, cutoff) == EligibleOf(dir, cutoff, dir.plain.Keys);
    AscendingListsAll(Candidates(dir, cutoff));
    if 0 < limit < |candidates| { candidates := candidates[..limit]; }
  }

  function Filtered(dir: Dir, cutoff: Date, names: seq<Date>): seq<Date>
  {
    if names == [] then []
    else
      var last := names[|names| - 1];
      Filtered(dir, cutoff, names[..|names| - 1]) + if Eligible(dir, cutoff, last) then [last] else []
  }

  lemma {:induction false} FilteredConcat(dir: Dir, cutoff: Date, a: seq<Date>, b: seq<Date>)
    ensures Filtered(dir, cutoff, a + b) == Filtered(dir, cutoff, a) + Filtered(dir, cutoff, b)
  {
    if b == [] {
      assert a + b == a;
    } else {
      FilteredConcat(dir, cutoff, a, b[..|b| - 1]);
      assert (a + b)[..|a| + |b| - 1] == a + b[..|b| - 1];
    }
  }

  predicate Eligible(dir: Dir, cutoff: Date, d: Date)
  {
    d.day < cutoff.day && d !in dir.archive
  }

  function EligibleOf(dir: Dir, cutoff: Date, dates: set<Date>): set<Date>
  {
    set d <- dates | Eligible(dir, cutoff, d)
  }

  lemma LeastEligible(dir: Dir, cutoff: Date, dates: set<Date>)
    requires |dates| > 0
    ensures var d := Least(dates);
            var rest := EligibleOf(dir, cutoff, dates - {d});
            if Eligible(dir, cutoff, d) then Ascending(EligibleOf(dir, cutoff, dates)) == [d] + Ascending(rest)
            else EligibleOf(dir, cutoff, dates) == rest
  {
    var d := Least(dates);
    var all, rest := EligibleOf(dir, cutoff, dates), EligibleOf(dir, cutoff, dates - {d});
    if Eligible(dir, cutoff, d) {
      assert d in all && IsLeast(d, all);
      assert Least(all) == d;
      assert all - {d} == rest;
    } else {
      assert all == rest;
    }
  }

  /** Filtering an ascending list lists the filtered set. */
  lemma {:induction false} FilterOfAscending(dir: Dir, cutoff: Date, dates: set<Date>)
    ensures Filtered(dir, cutoff, Ascending(dates)) == Ascending(EligibleOf(dir, cutoff, dates))
  {
    if |dates| == 0 {
      assert EligibleOf(dir, cutoff, dates) == {};
    } else {
      var d := Least(dates);
      FilterOfAscending(dir, cutoff, dates - {d});
      FilteredConcat(dir, cutoff, [d], Ascending(dates - {d}));
      assert [d][..0] == [];
      assert Filtered(dir, cutoff, [d]) == if Eligible(dir, cutoff, d) then [d] else [];
      LeastEligible(dir, cutoff, dates);
      hide Filtered, EligibleOf, Eligible, IsLeast;
    }
  }

  // ---------------------------------------------------------------- the job

  /** A crash point of the whole job: the same replay, no day lost, and today's
      file and every archived day as they were. */
  ghost predicate SafeForJob(start: Dir, p: Dir, cutoff: Date)
  {
    && Replay(p) == Replay(start) && Preserves(start, p)
    && p.plain - Candidates(start, cutoff) == start.plain - Candidates(start, cutoff)
    && p.archive - Candidates(start, cutoff) == start.archive - Candidates(start, cutoff)
  }

  /** What becomes of one candidate. */
  ghost predicate Processed(start: Dir, end: Dir, d: Date, keepPlain: bool, written: Archive)
    requires d in start.plain
  {
    if written == Whole(start.plain[d]) then
      && d in end.archive && end.archive[d] == start.plain[d]
      && (if keepPlain then d in end.plain && end.plain[d] == start.plain[d] else d !in end.plain)
    else d in end.plain && end.plain[d] == start.plain[d] && d !in end.archive
  }

  ghost predicate Waiting(start: Dir, now: Dir, d: Date)
  {
    d in start.plain && d in now.plain && now.plain[d] == start.plain[d] && d !in now.archive
  }

  /** Whatever else is compacted: today's file, those after it and every day that
      already has an archive are as they were. */
  lemma OnlyFinishedDaysMove(start: Dir, p: Dir, cutoff: Date, d: Date)
    requires SafeForJob(start, p, cutoff) && (d.day >= cutoff.day || d in start.archive || d !in start.plain)
    ensures (d in p.plain <==> d in start.plain) && (d in p.plain ==> p.plain[d] == start.plain[d])
    ensures (d in p.archive <==> d in start.archive) && (d in p.archive ==> p.archive[d] == start.archive[d])
  {
    hide Replay, Preserves;
    var c := Candidates(start, cutoff);
    assert d !in c;
    assert (d in p.plain <==> d in p.plain - c) && (d in start.plain <==> d in start.plain - c);
    assert (d in p.archive <==> d in p.archive - c) && (d in start.archive <==> d in start.archive - c);
    if d in p.plain { assert (p.plain - c)[d] == (start.plain - c)[d]; }
    if d in p.archive { assert (p.archive - c)[d] == (start.archive - c)[d]; }
  }

  lemma SafetyComposes(start: Dir, mid: Dir, p: Dir, d: Date, cutoff: Date)
    requires SafeForJob(start, mid, cutoff) && SafeFor(mid, p, d)
    requires d in Candidates(start, cutoff) && Waiting(start, mid, d)
    ensures SafeForJob(start, p, cutoff)
  {
    hide Replay;
    forall e <- start.plain ensures
      || (e in p.plain && p.plain[e] == start.plain[e])
      || (e !in p.plain && e in p.archive && p.archive[e] == start.plain[e])
    {
      if e != d { OtherDay(mid, p, d, e); }
    }
    forall e ensures e !in Candidates(start, cutoff) ==>
      && (e in p.plain <==> e in mid.plain) && (e in p.plain ==> p.plain[e] == mid.plain[e])
      && (e in p.archive <==> e in mid.archive) && (e in p.archive ==> p.archive[e] == mid.archive[e])
    {
      if e != d { OtherDay(mid, p, d, e); }
    }
    hide OnlyTouches, SafeFor, Preserves, Candidates;
    var c := Candidates(start, cutoff);
    assert p.plain - c == mid.plain - c && p.archive - c == mid.archive - c;
  }

  lemma OtherDay(mid: Dir, p: Dir, d: Date, e: Date)
    requires OnlyTouches(mid, p, d) && e != d
    ensures (e in p.plain <==> e in mid.plain) && (e in p.plain ==> p.plain[e] == mid.plain[e])
    ensures (e in p.archive <==> e in mid.archive) && (e in p.archive ==> p.archive[e] == mid.archive[e])
  {
    assert e in p.plain <==> e in p.plain - {d};
    assert e in mid.plain <==> e in mid.plain - {d};
    assert e in p.archive <==> e in p.archive - {d};
    assert e in mid.archive <==> e in mid.archive - {d};
    if e in p.plain { assert (p.plain - {d})[e] == p.plain[e] && (mid.plain - {d})[e] == mid.plain[e]; }
    if e in p.archive { assert (p.archive - {d})[e] == p.archive[e] && (mid.archive - {d})[e] == mid.archive[e]; }
  }

  /** One candidate's turn: every crash point safe for the job, this day
      processed, every other day as it was. */
  lemma Turn(start: Dir, mid: Dir, d: Date, keepPlain: bool, written: Archive, cutoff: Date)
    requires SafeForJob(start, mid, cutoff) && d in Candidates(start, cutoff) && Waiting(start, mid, d)
    requires written.Whole? ==> written.lines <= start.plain[d]
    ensures var trace := Trace(mid, d, keepPlain, written);
            && (forall p <- trace :: SafeForJob(start, p, cutoff))
            && OnlyTouches(mid, trace[|trace| - 1], d)
            && Processed(start, trace[|trace| - 1], d, keepPlain, written)
  {
    var trace := Trace(mid, d, keepPlain, written);
    EveryCrashPointIsSafe(mid, d, keepPlain, written);
    TraceEnds(mid, d, keepPlain, written);
    hide Trace, Replay, SafeForJob, Candidates, OnlyTouches, Preserves;
    forall p <- trace ensures SafeForJob(start, p, cutoff) { SafetyComposes(start, mid, p, d, cutoff); }
    assert trace[|trace| - 1] in trace;
  }

  class RecordingStore {
    var dir: Dir
    ghost var crashPoints: seq<Dir>

    constructor (dir: Dir)
      ensures this.dir == dir && crashPoints == []
    {
      this.dir, crashPoints := dir, [];
    }

    method Compact(d: Date, keepPlain: bool, written: Archive) returns (outcome: Outcome)
      requires d in dir.plain && (written.Whole? ==> written.lines <= dir.plain[d])
      modifies this
      ensures crashPoints == old(crashPoints) + Trace(old(dir), d, keepPlain, written)
      ensures dir == crashPoints[|crashPoints| - 1]
      ensures outcome.Compacted? <==> written == Whole(old(dir).plain[d])
      ensures outcome.Failed? <==> written.Truncated?
    {
      ghost var cleared := dir.(part := dir.part - {d});
      var originalSize := Size(dir.plain[d]);
      dir := dir.(part := dir.part - {d});
      crashPoints := crashPoints + [dir];
      dir := dir.(part := dir.part[d := Truncated]);
      crashPoints := crashPoints + [dir];
      dir := dir.(part := dir.part[d := written]);
      assert dir.part == cleared.part[d := written];
      crashPoints := crashPoints + [dir];
      if written.Truncated? { return Failed; }
      var readBack := Size(written.lines);
      ShortCopyIsSmaller(written.lines, dir.plain[d]);
      hide Size;
      if readBack != originalSize {
        dir := dir.(part := dir.part - {d});
        assert dir == cleared;
        crashPoints := crashPoints + [dir];
        return Refused;
      }
      dir := dir.(archive := dir.archive[d := written.lines], part := dir.part - {d});
      assert dir.part == cleared.part;
      crashPoints := crashPoints + [dir];
      if !keepPlain {
        dir := dir.(plain := dir.plain - {d});
        crashPoints := crashPoints + [dir];
      }
      outcome := Compacted;
    }

    /** The nightly run over the candidates, `written(d)` being what compressing
        day `d` leaves behind. */
    method Run(cutoff: Date, limit: int, keepPlain: bool, dryRun: bool, written: Date -> Archive) returns (failures: nat)
      requires forall d <- dir.plain :: written(d).Whole? ==> written(d).lines <= dir.plain[d]
      modifies this
      ensures old(crashPoints) <= crashPoints && (dryRun ==> dir == old(dir) && crashPoints == old(crashPoints))
      ensures AllSafe(old(dir), crashPoints[|old(crashPoints)|..], cutoff)
      ensures SafeForJob(old(dir), dir, cutoff)
      ensures var all := Ascending(Candidates(old(dir), cutoff));
              var chosen := if 0 < limit < |all| then all[..limit] else all;
              && (forall j | 0 <= j < |chosen| :: chosen[j] in old(dir).plain)
              && failures == (if dryRun then 0 else FailuresAmong(old(dir), chosen, written))
              && (!dryRun ==> forall d <- chosen :: d in old(dir).plain && Processed(old(dir), dir, d, keepPlain, written(d)))
    {
      hide *;
      ghost var start, before := dir, crashPoints;
      failures := 0;
      var candidates := FindCandidates(dir, cutoff, limit);
      JobStarts(start, cutoff, candidates, limit, keepPlain, written);
      ghost var points: seq<Dir> := [];
      assert before + points == before && crashPoints[|before|..] == points;
      if dryRun { return; }
      for i := 0 to |candidates|
        invariant crashPoints == before + points && AllSafe(start, points, cutoff)
        invariant Progress(start, dir, cutoff, candidates, i, keepPlain, written)
        invariant failures == FailuresAmong(start, candidates[..i], written)
      {
        FailuresStep(start, candidates, i, written);
        ghost var mid := dir;
        JobAdvances(start, mid, cutoff, candidates, i, keepPlain, written);
        var outcome := Compact(candidates[i], keepPlain, written(candidates[i]));
        ghost var trace := Trace(mid, candidates[i], keepPlain, written(candidates[i]));
        assert crashPoints == before + (points + trace);
        AllSafeConcat(start, points, trace, cutoff);
        points := points + trace;
        if !outcome.Compacted? { failures := failures + 1; }
      }
      assert candidates[..|candidates|] == candidates;
      assert crashPoints[|before|..] == points;
      JobEnds(start, dir, cutoff, candidates, keepPlain, written);
    }
  }

  /** The days whose compression did not write the whole file. */
  function FailuresAmong(start: Dir, days: seq<Date>, written: Date -> Archive): nat
    requires forall j | 0 <= j < |days| :: days[j] in start.plain
  {
    if days == [] then 0
    else
      var last := days[|days| - 1];
      FailuresAmong(start, days[..|days| - 1], written) + if written(last) == Whole(start.plain[last]) then 0 else 1
  }

  lemma FailuresStep(start: Dir, days: seq<Date>, i: nat, written: Date -> Archive)
    requires i < |days| && forall j | 0 <= j < |days| :: days[j] in start.plain
    ensures FailuresAmong(start, days[..i + 1], written)
         == FailuresAmong(start, days[..i], written) + if written(days[i]) == Whole(start.plain[days[i]]) then 0 else 1
  {
    assert days[..i + 1][..i] == days[..i];
  }

  /** A day left in both forms, as by a crash between the two last steps, is not
      a candidate again: its plain file stays and goes on being the one read. */
  lemma BothFormsAreLeftAlone(start: Dir, p: Dir, d: Date, cutoff: Date)
    requires d in start.plain && d in start.archive && SafeForJob(start, p, cutoff)
    ensures d in p.plain && p.plain[d] == start.plain[d] && d in p.archive && p.archive[d] == start.archive[d]
  {
    hide Replay, Preserves;
    var c := Candidates(start, cutoff);
    assert d !in c;
    assert d in (start.plain - c) && d in (start.archive - c);
    assert (p.plain - c)[d] == (start.plain - c)[d] && (p.archive - c)[d] == (start.archive - c)[d];
  }

  ghost predicate AllSafe(start: Dir, points: seq<Dir>, cutoff: Date)
  {
    forall p <- points :: SafeForJob(start, p, cutoff)
  }

  lemma AllSafeConcat(start: Dir, a: seq<Dir>, b: seq<Dir>, cutoff: Date)
    requires AllSafe(start, a, cutoff) && AllSafe(start, b, cutoff)
    ensures AllSafe(start, a + b, cutoff)
  {
    hide SafeForJob;
  }

  /** The first `i` of the days are processed, the others still waiting. */
  ghost predicate Progress(start: Dir, now: Dir, cutoff: Date, days: seq<Date>, i: nat, keepPlain: bool, written: Date -> Archive)
  {
    && i <= |days| && SafeForJob(start, now, cutoff)
    && (forall j, k | 0 <= j < k < |days| :: days[j] != days[k])
    && (forall j | 0 <= j < |days| :: days[j] in Candidates(start, cutoff) && days[j] in start.plain)
    && (forall d <- start.plain :: written(d).Whole? ==> written(d).lines <= start.plain[d])
    && (forall j | 0 <= j < i :: Processed(start, now, days[j], keepPlain, written(days[j])))
    && (forall j | i <= j < |days| :: Waiting(start, now, days[j]))
  }

  lemma SafeAtStart(start: Dir, cutoff: Date)
    ensures SafeForJob(start, start, cutoff)
  {
  }

  lemma JobStarts(start: Dir, cutoff: Date, chosen: seq<Date>, limit: int, keepPlain: bool, written: Date -> Archive)
    requires var all := Ascending(Candidates(start, cutoff)); chosen == if 0 < limit < |all| then all[..limit] else all
    requires forall d <- start.plain :: written(d).Whole? ==> written(d).lines <= start.plain[d]
    ensures Progress(start, start, cutoff, chosen, 0, keepPlain, written)
    ensures SafeForJob(start, start, cutoff) && AllSafe(start, [], cutoff)
    ensures forall j | 0 <= j < |chosen| :: chosen[j] in start.plain
    ensures FailuresAmong(start, chosen[..0], written) == 0
  {
    SafeAtStart(start, cutoff);
    AscendingListsAll(Candidates(start, cutoff));
    hide Ascending, SafeForJob, Processed;
    forall i | 0 <= i < |chosen| ensures chosen[i] in Candidates(start, cutoff) && Waiting(start, start, chosen[i]) {}
    hide Candidates, Waiting;
  }

  lemma JobAdvances(start: Dir, mid: Dir, cutoff: Date, days: seq<Date>, i: nat, keepPlain: bool, written: Date -> Archive)
    requires Progress(start, mid, cutoff, days, i, keepPlain, written) && i < |days|
    ensures days[i] in start.plain && days[i] in mid.plain && mid.plain[days[i]] == start.plain[days[i]]
    ensures written(days[i]).Whole? ==> written(days[i]).lines <= mid.plain[days[i]]
    ensures var trace := Trace(mid, days[i], keepPlain, written(days[i]));
            && AllSafe(start, trace, cutoff)
            && Progress(start, trace[|trace| - 1], cutoff, days, i + 1, keepPlain, written)
  {
    hide Trace, Candidates, SafeForJob, OnlyTouches;
    assert Waiting(start, mid, days[i]);
    Turn(start, mid, days[i], keepPlain, written(days[i]), cutoff);
    var trace := Trace(mid, days[i], keepPlain, written(days[i]));
    assert trace[|trace| - 1] in trace;
    OthersKeepTheirState(start, mid, trace[|trace| - 1], days, i, keepPlain, written);
    hide Processed, Waiting;
  }

  lemma JobEnds(start: Dir, end: Dir, cutoff: Date, days: seq<Date>, keepPlain: bool, written: Date -> Archive)
    requires Progress(start, end, cutoff, days, |days|, keepPlain, written)
    ensures SafeForJob(start, end, cutoff)
    ensures forall d <- days :: d in start.plain && Processed(start, end, d, keepPlain, written(d))
  {
    hide SafeForJob, Processed, Candidates;
  }

  lemma OthersKeepTheirState(start: Dir, mid: Dir, now: Dir, days: seq<Date>, i: nat, keepPlain: bool, written: Date -> Archive)
    requires i < |days| && OnlyTouches(mid, now, days[i])
    requires forall j, k | 0 <= j < k < |days| :: days[j] != days[k]
    requires forall j | 0 <= j < |days| :: days[j] in start.plain
    requires forall j | 0 <= j < i :: Processed(start, mid, days[j], keepPlain, written(days[j]))
    requires forall j | i <= j < |days| :: Waiting(start, mid, days[j])
    ensures forall j | 0 <= j < i :: Processed(start, now, days[j], keepPlain, written(days[j]))
    ensures forall j | i < j < |days| :: Waiting(start, now, days[j])
  {
    forall j | 0 <= j < |days| && j != i
      ensures j < i ==> Processed(start, now, days[j], keepPlain, written(days[j]))
      ensures j > i ==> Waiting(start, now, days[j])
    {
      OtherDay(mid, now, days[i], days[j]);
      hide OnlyTouches;
    }
  }
}
