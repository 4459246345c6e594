/** src/core/session_log.py: the in-progress marker and the completed-sessions
    log, file step by file step, with a process crash possible between any two. */
module SessionLog {
  import opened Coverage

  type ConfigId(==, !new)

  datatype Session = Session(config: ConfigId, startedAt: int, lastSeen: int, cleanExit: bool)

  /** A file of one record: missing, not parseable, or holding a session. */
  datatype Marker = Absent | Unreadable | Holds(session: Session)

  datatype Line = Entry(session: Session) | Garbage

  /** `sessions.jsonl`, `session_state.json` and its `.tmp`. */
  datatype Disk = Disk(log: seq<Line>, state: Marker, tmp: Marker)

  // ----------------------------------------------------------------- reading

  function Entries(log: seq<Line>): seq<Session>
  {
    if log == [] then []
    else if log[|log| - 1].Entry? then Entries(log[..|log| - 1]) + [log[|log| - 1].session]
    else Entries(log[..|log| - 1])
  }

  function Recorded(disk: Disk): seq<Session>
  {
    Entries(disk.log) + if disk.state.Holds? then [disk.state.session] else []
  }

  function Spans(sessions: seq<Session>): seq<Span>
  {
    seq(|sessions|, i requires 0 <= i < |sessions| => Span(sessions[i].startedAt, sessions[i].lastSeen))
  }

  /** Stable insertion by start time. */
  function Placed(sorted: seq<Session>, s: Session): seq<Session>
  {
    if sorted == [] || sorted[|sorted| - 1].startedAt <= s.startedAt then sorted + [s]
    else Placed(sorted[..|sorted| - 1], s) + [sorted[|sorted| - 1]]
  }

  function ByStart(sessions: seq<Session>): seq<Session>
  {
    if sessions == [] then [] else Placed(ByStart(sessions[..|sessions| - 1]), sessions[|sessions| - 1])
  }

  function StartingAt(sessions: seq<Session>, t: int): seq<Session>
  {
    if sessions == [] then []
    else StartingAt(sessions[..|sessions| - 1], t)
         + if sessions[|sessions| - 1].startedAt == t then [sessions[|sessions| - 1]] else []
  }

  predicate InStartOrder(sessions: seq<Session>)
  {
    forall i, j | 0 <= i < j < |sessions| :: sessions[i].startedAt <= sessions[j].startedAt
  }

  lemma StartingAtAppend(sessions: seq<Session>, s: Session, t: int)
    ensures StartingAt(sessions + [s], t) == StartingAt(sessions, t) + if s.startedAt == t then [s] else []
  {
    assert (sessions + [s])[..|sessions|] == sessions;
  }

  lemma {:induction false} PlacedSorts(sorted: seq<Session>, s: Session)
    requires InStartOrder(sorted)
    ensures InStartOrder(Placed(sorted, s)) && multiset(Placed(sorted, s)) == multiset(sorted) + multiset{s}
  {
    if sorted != [] && sorted[|sorted| - 1].startedAt > s.startedAt {
      var init, last := sorted[..|sorted| - 1], sorted[|sorted| - 1];
      assert sorted == init + [last];
      PlacedSorts(init, s);
      forall x <- Placed(init, s) ensures x.startedAt <= last.startedAt { assert x in multiset(init) + multiset{s}; }
      assert Placed(sorted, s) == Placed(init, s) + [last];
      hide Placed;
    }
  }

  lemma {:induction false} PlacedIsStable(sorted: seq<Session>, s: Session, t: int)
    ensures StartingAt(Placed(sorted, s), t) == StartingAt(sorted, t) + if s.startedAt == t then [s] else []
  {
    if sorted == [] || sorted[|sorted| - 1].startedAt <= s.startedAt {
      StartingAtAppend(sorted, s, t);
    } else {
      var init, last := sorted[..|sorted| - 1], sorted[|sorted| - 1];
      PlacedIsStable(init, s, t);
      assert sorted == init + [last] && Placed(sorted, s) == Placed(init, s) + [last];
      StartingAtAppend(Placed(init, s), last, t);
      StartingAtAppend(init, last, t);
      hide *;
      if s.startedAt == t {
        assert StartingAt(init, t) + [] == StartingAt(init, t);
      } else {
        var tail := if last.startedAt == t then [last] else [];
        assert (StartingAt(init, t) + []) + tail == (StartingAt(init, t) + tail) + [];
      }
    }
  }

  /** Sorted by start, nothing lost or invented, ties in their order of recording. */
  lemma {:induction false} ByStartSorts(sessions: seq<Session>, t: int)
    ensures InStartOrder(ByStart(sessions)) && multiset(ByStart(sessions)) == multiset(sessions)
    ensures StartingAt(ByStart(sessions), t) == StartingAt(sessions, t)
  {
    if sessions != [] {
      var init, last := sessions[..|sessions| - 1], sessions[|sessions| - 1];
      assert sessions == init + [last];
      ByStartSorts(init, t);
      PlacedSorts(ByStart(init), last);
      PlacedIsStable(ByStart(init), last, t);
      StartingAtAppend(init, last, t);
      hide Placed, StartingAt, InStartOrder;
    }
  }

  /** The log's readable lines and the run in flight, by start time. */
  method LoadSessions(disk: Disk) returns (sessions: seq<Session>)
    ensures sessions == ByStart(Recorded(disk))
  {
    sessions := [];
    for i := 0 to |disk.log|
      invariant sessions == Entries(disk.log[..i])
    {
      assert disk.log[..i + 1][..i] == disk.log[..i];
      if disk.log[i].Garbage? { continue; }
      sessions := sessions + [disk.log[i].session];
    }
    assert disk.log[..|disk.log|] == disk.log;
    if disk.state.Holds? { sessions := sessions + [disk.state.session]; }
    assert disk.state.Holds? || Entries(disk.log) + [] == Entries(disk.log);
    sessions := ByStart(sessions);
  }

  // ------------------------------------------------- the protocol as steps

  /** Where a process is between two file steps.  `closing` tells the roll-over
      of `finish` from that of `begin`. */
  datatype Pc =
    | Down
    | RollingOver(closing: bool)
    | Unlinking(closing: bool)
    | Ready
    | Writing(marker: Session, closing: bool)
    | Torn(marker: Session, closing: bool)
    | Replacing(marker: Session, closing: bool)

  /** `runs` lists every run that ever completed a marker write, oldest first,
      each with the last marker it completed; `marked` says whether the current
      process is one of them. */
  datatype World = World(disk: Disk, pc: Pc, config: ConfigId, started: int, marked: bool, runs: seq<Session>)

  datatype Action = Crash | Boot(id: ConfigId, now: int) | Touch(at: int) | Finish(end: int) | Proceed

  function FileStep(w: World): World
  {
    match w.pc
    case Down => w
    case Ready => w
    case RollingOver(closing) =>
      if w.disk.state.Holds? then
        w.(disk := w.disk.(log := w.disk.log + [Entry(w.disk.state.session)]), pc := Unlinking(closing))
      else
        w.(disk := w.disk.(state := Absent), pc := if closing then Down else Ready)
    case Unlinking(closing) =>
      w.(disk := w.disk.(state := Absent), pc := if closing then Down else Ready)
    case Writing(s, closing) => w.(disk := w.disk.(tmp := Unreadable), pc := Torn(s, closing))
    case Torn(s, closing) => w.(disk := w.disk.(tmp := Holds(s)), pc := Replacing(s, closing))
    case Replacing(s, closing) =>
      w.(disk := w.disk.(state := w.disk.tmp, tmp := Absent),
         pc := if closing then RollingOver(true) else Ready,
         marked := true,
         runs := (if w.marked && w.runs != [] then w.runs[..|w.runs| - 1] else w.runs) + [s])
  }

  function Next(w: World, a: Action): World
  {
    match a
    case Crash => w.(pc := Down)
    case Boot(id, now) =>
      if w.pc.Down? then w.(pc := RollingOver(false), config := id, started := now, marked := false) else w
    case Touch(at) =>
      if w.pc.Ready? then w.(pc := Writing(Session(w.config, w.started, at, false), false)) else w
    case Finish(end) =>
      if w.pc.Ready? && w.marked then w.(pc := Writing(Session(w.config, w.started, end, true), true)) else w
    case Proceed => FileStep(w)
  }

  function Run(w: World, actions: seq<Action>): World
  {
    if actions == [] then w else Next(Run(w, actions[..|actions| - 1]), actions[|actions| - 1])
  }

  /** Any disk may be there before the first boot; what it records counts as
      runs already made. */
  predicate Initial(w: World)
  {
    w.pc.Down? && !w.marked && w.runs == Recorded(w.disk)
  }

  // --------------------------------------------------------------- safety

  ghost predicate SameMembers(a: seq<Session>, b: seq<Session>)
  {
    forall s :: s in a <==> s in b
  }

  /** The marker on disk is the last run's, and the log has all the others. */
  ghost predicate MarkerIsLast(w: World)
  {
    && w.runs != [] && w.disk.state == Holds(w.runs[|w.runs| - 1])
    && SameMembers(Entries(w.disk.log), w.runs[..|w.runs| - 1])
  }

  predicate Up(pc: Pc)
  {
    pc.Ready? || pc.Writing? || pc.Torn? || pc.Replacing?
  }

  predicate SameRun(s: Session, config: ConfigId, started: int)
  {
    s.config == config && s.startedAt == started
  }

  ghost predicate Inv(w: World)
  {
    && SameMembers(Recorded(w.disk), w.runs)
    && (w.pc.Unlinking? ==> SameMembers(Entries(w.disk.log), w.runs))
    && (Up(w.pc) && w.marked ==> MarkerIsLast(w) && SameRun(w.runs[|w.runs| - 1], w.config, w.started))
    && (Up(w.pc) && !w.marked ==> w.disk.state.Absent?)
    && (w.pc.Writing? || w.pc.Torn? || w.pc.Replacing? ==> SameRun(w.pc.marker, w.config, w.started))
    && (w.pc.RollingOver? || w.pc.Unlinking? ==> w.marked == w.pc.closing)
    && (w.pc.Replacing? ==> w.disk.tmp == Holds(w.pc.marker))
  }

  lemma EntriesAppend(log: seq<Line>, line: Line)
    ensures Entries(log + [line]) == Entries(log) + if line.Entry? then [line.session] else []
  {
    assert (log + [line])[..|log|] == log;
  }

  lemma FileStepKeepsInv(w: World)
    requires Inv(w)
    ensures Inv(FileStep(w))
  {
    if w.pc.RollingOver? && w.disk.state.Holds? {
      EntriesAppend(w.disk.log, Entry(w.disk.state.session));
    } else if w.pc.Replacing? {
      var v := FileStep(w);
      var older := if w.marked then w.runs[..|w.runs| - 1] else w.runs;
      assert SameMembers(Entries(w.disk.log), older);
      assert v.runs == older + [w.pc.marker];
      assert v.runs[..|older|] == older && v.runs[|older|] == w.pc.marker;
    }
  }

  lemma StepKeepsInv(w: World, a: Action)
    requires Inv(w)
    ensures Inv(Next(w, a))
  {
    if a.Proceed? { FileStepKeepsInv(w); }
  }

  lemma {:induction false} RunKeepsInv(w: World, actions: seq<Action>)
    requires Initial(w)
    ensures Inv(Run(w, actions))
  {
    if actions != [] {
      RunKeepsInv(w, actions[..|actions| - 1]);
      StepKeepsInv(Run(w, actions[..|actions| - 1]), actions[|actions| - 1]);
    }
  }

  /** Whatever boots, touches, clean exits and crashes happened, and wherever
      the last one stopped, the log and the marker file together record the last
      completed marker of every run, and nothing else. */
  lemma EveryRunIsRecorded(w: World, actions: seq<Action>)
    requires Initial(w)
    ensures SameMembers(Recorded(Run(w, actions).disk), Run(w, actions).runs)
  {
    RunKeepsInv(w, actions);
  }

  lemma SameMembersSameSpans(a: seq<Session>, b: seq<Session>)
    requires SameMembers(a, b)
    ensures forall x :: x in Spans(a) <==> x in Spans(b)
  {
    forall x ensures x in Spans(a) <==> x in Spans(b) {
      if x in Spans(a) {
        var i :| 0 <= i < |a| && Spans(a)[i] == x;
        assert a[i] in b;
        var j :| 0 <= j < |b| && b[j] == a[i];
        assert Spans(b)[j] == x;
      }
      if x in Spans(b) {
        var i :| 0 <= i < |b| && Spans(b)[i] == x;
        assert b[i] in a;
        var j :| 0 <= j < |a| && a[j] == b[i];
        assert Spans(a)[j] == x;
      }
    }
  }

  /** A crash between the append and the unlink leaves a session recorded twice,
      perhaps many times over; the coverage report is still that of the runs
      recorded once each. */
  lemma DuplicatesDoNotChangeCoverage(w: World, actions: seq<Action>)
    requires Initial(w)
    requires Sound(Spans(Run(w, actions).runs))
    ensures Reported(Spans(ByStart(Recorded(Run(w, actions).disk)))) == Reported(Spans(Run(w, actions).runs))
  {
    var recorded, runs := Recorded(Run(w, actions).disk), Run(w, actions).runs;
    EveryRunIsRecorded(w, actions);
    ByStartKeepsMembers(recorded);
    assert SameMembers(ByStart(recorded), runs);
    SameMembersSameSpans(ByStart(recorded), runs);
    SameSessionsSameReport(Spans(runs), Spans(ByStart(recorded)));
  }

  lemma ByStartKeepsMembers(sessions: seq<Session>)
    ensures SameMembers(ByStart(sessions), sessions)
  {
    ByStartSorts(sessions, 0);
    hide ByStart, StartingAt, InStartOrder;
    forall s ensures s in ByStart(sessions) <==> s in sessions {
      assert s in multiset(ByStart(sessions)) <==> s in multiset(sessions);
    }
  }

  /** The later list has the earlier one's runs in the same places, each with
      the same or a later marker of its own. */
  ghost predicate Remembers(later: seq<Session>, earlier: seq<Session>)
  {
    && |earlier| <= |later|
    && forall i | 0 <= i < |earlier| :: SameRun(later[i], earlier[i].config, earlier[i].startedAt)
  }

  lemma StepRemembers(w: World, a: Action)
    requires Inv(w)
    ensures Remembers(Next(w, a).runs, w.runs)
  {
  }

  /** A run that completed one marker write is on record at every later point of
      every continuation. */
  lemma {:induction false} MarkedRunsAreNeverLost(w: World, actions: seq<Action>, more: seq<Action>)
    requires Initial(w)
    ensures Remembers(Run(w, actions + more).runs, Run(w, actions).runs)
    ensures forall s <- Run(w, actions).runs ::
              exists r <- Recorded(Run(w, actions + more).disk) :: SameRun(r, s.config, s.startedAt)
  {
    if more == [] {
      assert actions + more == actions;
    } else {
      var init, last := more[..|more| - 1], more[|more| - 1];
      var before := Run(w, actions + init);
      MarkedRunsAreNeverLost(w, actions, init);
      RunKeepsInv(w, actions + init);
      assert (actions + more)[..|actions + init|] == actions + init;
      StepRemembers(before, last);
      assert Run(w, actions + more) == Next(before, last);
    }
    EveryRunIsRecorded(w, actions + more);
    var later, earlier := Run(w, actions + more).runs, Run(w, actions).runs;
    forall s <- earlier ensures exists r <- Recorded(Run(w, actions + more).disk) :: SameRun(r, s.config, s.startedAt) {
      var i :| 0 <= i < |earlier| && earlier[i] == s;
      assert later[i] in later;
    }
  }

  // ------------------------------------------------ what the records say

  /** The record of a process that booted, was not killed, and wrote this marker:
      its own configuration and start, the time of its last touch, or of its end
      if it ended cleanly. */
  ghost predicate WrittenBy(actions: seq<Action>, n: nat, s: Session)
    requires n <= |actions|
  {
    exists b: nat, t: nat :: WrittenAt(actions, n, b, t, s)
  }

  predicate WrittenAt(actions: seq<Action>, n: nat, b: nat, t: nat, s: Session)
    requires n <= |actions|
  {
    && AliveSince(actions, t, b, s.config, s.startedAt) && t < n
    && actions[t] == if s.cleanExit then Finish(s.lastSeen) else Touch(s.lastSeen)
  }

  /** Booted by action `b` and not killed before action `n`. */
  predicate AliveSince(actions: seq<Action>, n: nat, b: nat, config: ConfigId, started: int)
  {
    && b < n <= |actions| && actions[b] == Boot(config, started)
    && forall k | b < k < n :: actions[k] != Crash
  }

  ghost predicate Alive(actions: seq<Action>, n: nat, config: ConfigId, started: int)
  {
    exists b: nat :: AliveSince(actions, n, b, config, started)
  }

  ghost predicate Told(origin: World, actions: seq<Action>, n: nat, w: World)
    requires n <= |actions|
  {
    && (!w.pc.Down? ==> Alive(actions, n, w.config, w.started))
    && (w.pc.Writing? || w.pc.Torn? || w.pc.Replacing? ==> WrittenBy(actions, n, w.pc.marker))
    && forall s <- w.runs :: s in origin.runs || WrittenBy(actions, n, s)
  }

  lemma AliveOn(actions: seq<Action>, n: nat, config: ConfigId, started: int)
    requires n < |actions| && actions[n] != Crash
    ensures Alive(actions, n, config, started) ==> Alive(actions, n + 1, config, started)
    ensures actions[n] == Boot(config, started) ==> Alive(actions, n + 1, config, started)
  {
    if b: nat :| AliveSince(actions, n, b, config, started) { assert AliveSince(actions, n + 1, b, config, started); }
    if actions[n] == Boot(config, started) { assert AliveSince(actions, n + 1, n, config, started); }
  }

  lemma WrittenOn(actions: seq<Action>, n: nat, s: Session)
    requires n < |actions| && WrittenBy(actions, n, s)
    ensures WrittenBy(actions, n + 1, s)
  {
    var b: nat, t: nat :| WrittenAt(actions, n, b, t, s);
    assert WrittenAt(actions, n + 1, b, t, s);
  }

  lemma MarkerWritten(actions: seq<Action>, n: nat, s: Session)
    requires n < |actions| && Alive(actions, n, s.config, s.startedAt)
    requires actions[n] == if s.cleanExit then Finish(s.lastSeen) else Touch(s.lastSeen)
    ensures WrittenBy(actions, n + 1, s)
  {
    var b: nat :| AliveSince(actions, n, b, s.config, s.startedAt);
    assert WrittenAt(actions, n + 1, b, n, s);
  }

  lemma StepIsTold(origin: World, actions: seq<Action>, n: nat, w: World)
    requires n < |actions| && Told(origin, actions, n, w)
    ensures Told(origin, actions, n + 1, Next(w, actions[n]))
  {
    hide Alive, WrittenBy;
    var v := Next(w, actions[n]);
    if actions[n] != Crash { AliveOn(actions, n, v.config, v.started); }
    forall s | WrittenBy(actions, n, s) ensures WrittenBy(actions, n + 1, s) { WrittenOn(actions, n, s); }
    if v.pc.Writing? && !w.pc.Writing? { MarkerWritten(actions, n, v.pc.marker); }
  }

  /** Every run on record that was not there at first is that of a process in the
      history: its configuration, its boot time, the time of the touch or clean
      end its marker was written for, and clean exactly for an end. */
  lemma {:induction false} RunsAreTheirActions(w: World, actions: seq<Action>, n: nat)
    requires Initial(w) && n <= |actions|
    ensures Told(w, actions, n, Run(w, actions[..n]))
  {
    hide Told, Next;
    if n == 0 {
      NothingTold(w, actions);
    } else {
      assert actions[..n][..n - 1] == actions[..n - 1];
      RunsAreTheirActions(w, actions, n - 1);
      StepIsTold(w, actions, n - 1, Run(w, actions[..n - 1]));
    }
  }

  lemma NothingTold(w: World, actions: seq<Action>)
    requires Initial(w)
    ensures Told(w, actions, 0, w)
  {
  }

  /** A process that is left to work gets there, whatever the last one left: two
      file steps after its boot no marker is in the way and the log has all runs,
      three after a touch its marker is on disk, five after a clean end its run
      is in the log and its marker gone. */
  lemma ProtocolProgresses(w: World, id: ConfigId, now: int, at: int, end: int)
    requires w.pc.Down?
    ensures var booted := FileStep(FileStep(Next(w, Boot(id, now))));
            var touched := FileStep(FileStep(FileStep(Next(booted, Touch(at)))));
            var finished := FileStep(FileStep(FileStep(FileStep(FileStep(Next(touched, Finish(end)))))));
            && booted.pc == Ready && booted.disk.state == Absent && Entries(booted.disk.log) == Recorded(w.disk)
            && touched.pc == Ready && touched.disk.state == Holds(Session(id, now, at, false)) && touched.disk.log == booted.disk.log
            && finished.pc == Down && finished.disk.state == Absent
            && finished.disk.log == booted.disk.log + [Entry(Session(id, now, end, true))]
  {
    hide Entries;
    BootProgresses(w, id, now);
    hide Recorded;
    var booted := FileStep(FileStep(Next(w, Boot(id, now))));
    hide FileStep, Next;
    WriteProgresses(booted, at, end);
    WriteProgresses(FileStep(FileStep(FileStep(Next(booted, Touch(at))))), at, end);
  }

  lemma BootProgresses(w: World, id: ConfigId, now: int)
    requires w.pc.Down?
    ensures var booted := FileStep(FileStep(Next(w, Boot(id, now))));
            && booted.pc == Ready && booted.disk.state == Absent && Entries(booted.disk.log) == Recorded(w.disk)
            && booted.config == id && booted.started == now
  {
    if w.disk.state.Holds? { EntriesAppend(w.disk.log, Entry(w.disk.state.session)); }
    assert w.disk.state.Holds? || Entries(w.disk.log) + [] == Entries(w.disk.log);
    hide Entries;
  }

  lemma WriteProgresses(w: World, at: int, end: int)
    requires w.pc == Ready
    ensures var touched := FileStep(FileStep(FileStep(Next(w, Touch(at)))));
            && touched.pc == Ready && touched.disk.state == Holds(Session(w.config, w.started, at, false)) && touched.disk.log == w.disk.log
            && touched.config == w.config && touched.started == w.started && touched.marked
    ensures w.marked ==>
              var finished := FileStep(FileStep(FileStep(FileStep(FileStep(Next(w, Finish(end)))))));
              && finished.pc == Down && finished.disk.state == Absent
              && finished.disk.log == w.disk.log + [Entry(Session(w.config, w.started, end, true))]
  {
  }

  /** A session covers the time from its start to when it was last seen. */
  lemma SpansAreRunningTimes(sessions: seq<Session>, t: int)
    ensures t in Observed(Spans(sessions)) <==> exists s <- sessions :: s.startedAt <= t < s.lastSeen
  {
    var spans := Spans(sessions);
    if t in Observed(spans) {
      var x, u :| x in spans && x.start <= u < x.end && Ran(x, u) && u == t;
      var i :| 0 <= i < |spans| && spans[i] == x;
      assert sessions[i] in sessions;
    }
    if s :| s in sessions && s.startedAt <= t < s.lastSeen {
      var i :| 0 <= i < |sessions| && sessions[i] == s;
      assert spans[i] in spans && Ran(spans[i], t);
    }
  }

  // ------------------------------------------------------------ the tracker

  lemma RunAppend(w: World, a: seq<Action>, b: seq<Action>)
    ensures Run(w, a + b) == Run(Run(w, a), b)
    decreases |b|
  {
    hide Next;
    if b == [] {
      assert a + b == a;
    } else {
      RunAppend(w, a, b[..|b| - 1]);
      assert (a + b)[..|a| + |b| - 1] == a + b[..|b| - 1];
    }
  }

  class SessionTracker {
    var log: seq<Line>
    var state: Marker
    var tmp: Marker
    var configId: ConfigId
    var startedAt: int
    ghost var world: World           // the machine's view of the same process
    ghost var taken: seq<Action>     // every step since the disk was first seen
    ghost const origin: World

    ghost predicate Valid()
      reads this
    {
      && Initial(origin) && world == Run(origin, taken)
      && world.disk == Disk(log, state, tmp)
      && (!world.pc.Down? ==> configId == world.config && startedAt == world.started)
    }

    /** What the lemmas about runs say of the files at this moment. */
    lemma RecordsEveryRun()
      requires Valid()
      ensures SameMembers(Recorded(Disk(log, state, tmp)), world.runs) && Inv(world)
    {
      RunKeepsInv(origin, taken);
    }

    /** A process starting on the files another one left behind. */
    constructor (disk: Disk, id: ConfigId, now: int, ghost before: World, ghost history: seq<Action>)
      requires Initial(before) && Run(before, history).pc.Down? && Run(before, history).disk == disk
      ensures Valid() && world.pc.Down? && taken == history && origin == before
      ensures Disk(log, state, tmp) == disk
    {
      log, state, tmp := disk.log, disk.state, disk.tmp;
      configId, startedAt := id, now;
      world, taken, origin := Run(before, history), history, before;
    }

    ghost method Take(a: Action)
      modifies this`world, this`taken
      ensures world == Next(old(world), a) && taken == old(taken) + [a]
      ensures old(world) == Run(origin, old(taken)) ==> world == Run(origin, taken)
    {
      RunAppend(origin, taken, [a]);
      assert Run(Run(origin, taken), [a]) == Next(Run(origin, taken), a);
      world, taken := Next(world, a), taken + [a];
    }

    /** Write-then-replace: three file steps. */
    method WriteState(cleanExit: bool, now: int)
      requires Valid() && world.pc == Writing(Session(configId, startedAt, now, cleanExit), cleanExit)
      modifies this`state, this`tmp, this`world, this`taken
      ensures Valid() && taken == old(taken) + [Proceed, Proceed, Proceed]
      ensures state == Holds(Session(configId, startedAt, now, cleanExit)) && tmp == Absent
      ensures world.marked && world.pc == if cleanExit then RollingOver(true) else Ready
    {
      hide Run, Initial;
      tmp := Unreadable;
      Take(Proceed);
      tmp := Holds(Session(configId, startedAt, now, cleanExit));
      Take(Proceed);
      state, tmp := tmp, Absent;
      Take(Proceed);
    }

    /** Move a leftover marker into the log; drop one that does not parse. */
    method RollOverStaleState()
      requires Valid() && world.pc.RollingOver?
      modifies this`log, this`state, this`world, this`taken
      ensures Valid() && state == Absent
      ensures log == old(log) + if old(state).Holds? then [Entry(old(state).session)] else []
      ensures taken == old(taken) + if old(state).Holds? then [Proceed, Proceed] else [Proceed]
      ensures world.pc == if old(world).pc.closing then Down else Ready
      ensures world.marked == old(world).marked && world.runs == old(world).runs
    {
      hide Run, Initial;
      if state == Absent {
        Take(Proceed);
        return;
      }
      if state == Unreadable {
        state := Absent;
        Take(Proceed);
        return;
      }
      log := log + [Entry(state.session)];
      Take(Proceed);
      state := Absent;
      Take(Proceed);
    }

    method Touch(now: int)
      requires Valid() && world.pc.Ready?
      modifies this`state, this`tmp, this`world, this`taken
      ensures Valid() && world.pc.Ready? && world.marked
      ensures taken == old(taken) + [Action.Touch(now), Proceed, Proceed, Proceed]
      ensures state == Holds(Session(configId, startedAt, now, false)) && tmp == Absent
    {
      Take(Action.Touch(now));
      WriteState(false, now);
    }

    /** Roll the previous run into the log, then mark this one. */
    method Begin(id: ConfigId, now: int, touchedAt: int)
      requires Valid() && world.pc.Down?
      modifies this
      ensures Valid() && world.pc.Ready? && world.marked && configId == id && startedAt == now
      ensures log == old(log) + if old(state).Holds? then [Entry(old(state).session)] else []
      ensures state == Holds(Session(id, now, touchedAt, false))
    {
      configId, startedAt := id, now;
      Take(Boot(id, now));
      RollOverStaleState();
      Touch(touchedAt);
    }

    /** A clean exit: the last marker goes into the log and the marker file is
        gone. */
    method Finish(now: int)
      requires Valid() && world.pc.Ready? && world.marked
      modifies this`log, this`state, this`tmp, this`world, this`taken
      ensures Valid() && world.pc.Down?
      ensures log == old(log) + [Entry(Session(configId, startedAt, now, true))] && state == Absent
    {
      Take(Action.Finish(now));
      WriteState(true, now);
      RollOverStaleState();
    }
  }
}
