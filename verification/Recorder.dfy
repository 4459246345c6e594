/** backtest/recorder.py: a buffered recorder that rotates files by date. */
module Recorder {
  import opened Recordings

  datatype Buffered = Buffered(date: Date, line: Line)

  /** The JSON line of an event; parsing it gives the event back. */
  function Serialize(e: Event): Line
  {
    Line(e.width, Parses(e))
  }

  function SerializedOn(events: seq<Event>, d: Date): seq<Line>
  {
    if events == [] then []
    else SerializedOn(events[..|events| - 1], d) + if events[|events| - 1].date == d then [Serialize(events[|events| - 1])] else []
  }

  function LinesFor(buffer: seq<Buffered>, d: Date): seq<Line>
  {
    if buffer == [] then []
    else LinesFor(buffer[..|buffer| - 1], d) + if buffer[|buffer| - 1].date == d then [buffer[|buffer| - 1].line] else []
  }

  function FileAt(files: map<Date, seq<Line>>, d: Date): seq<Line>
  {
    if d in files then files[d] else []
  }

  function BufferedDates(buffer: seq<Buffered>): set<Date>
  {
    set b <- buffer :: b.date
  }

  lemma LinesForAppend(buffer: seq<Buffered>, b: Buffered, d: Date)
    ensures LinesFor(buffer + [b], d) == LinesFor(buffer, d) + if b.date == d then [b.line] else []
  {
    assert (buffer + [b])[..|buffer|] == buffer;
  }

  lemma SerializedAppend(events: seq<Event>, e: Event, d: Date)
    ensures SerializedOn(events + [e], d) == SerializedOn(events, d) + if e.date == d then [Serialize(e)] else []
  {
    assert (events + [e])[..|events|] == events;
  }

  /** The round trip through the text of a file. */
  lemma {:induction false} DecodesToEvents(events: seq<Event>, d: Date)
    ensures Decoded(SerializedOn(events, d)) == EventsOn(events, d)
  {
    if events != [] {
      var init, last := events[..|events| - 1], events[|events| - 1];
      DecodesToEvents(init, d);
      var tail := if last.date == d then [Serialize(last)] else [];
      DecodedConcat(SerializedOn(init, d), tail);
      assert Decoded(tail) == if last.date == d then [last] else [];
    }
  }

  /** For every date: the file, then that date's buffered lines, are what was
      there before followed by the date's recorded lines, in order. */
  ghost predicate Balanced(initial: map<Date, seq<Line>>, recorded: seq<Event>, files: map<Date, seq<Line>>, buffer: seq<Buffered>)
  {
    && (forall d :: FileAt(files, d) + LinesFor(buffer, d) == FileAt(initial, d) + SerializedOn(recorded, d))
    && (forall d :: FileAt(initial, d) <= FileAt(files, d))
    && files.Keys + BufferedDates(buffer) == initial.Keys + DatesOf(recorded)
  }

  lemma BufferingBalances(initial: map<Date, seq<Line>>, recorded: seq<Event>, files: map<Date, seq<Line>>, buffer: seq<Buffered>, e: Event)
    requires Balanced(initial, recorded, files, buffer)
    ensures Balanced(initial, recorded + [e], files, buffer + [Buffered(e.date, Serialize(e))])
  {
    var b := Buffered(e.date, Serialize(e));
    forall d ensures FileAt(files, d) + LinesFor(buffer + [b], d) == FileAt(initial, d) + SerializedOn(recorded + [e], d) {
      LinesForAppend(buffer, b, d);
      SerializedAppend(recorded, e, d);
      assert FileAt(files, d) + LinesFor(buffer, d) == FileAt(initial, d) + SerializedOn(recorded, d);
      hide *;
      var tail := if e.date == d then [Serialize(e)] else [];
      assert FileAt(files, d) + (LinesFor(buffer, d) + tail) == (FileAt(files, d) + LinesFor(buffer, d)) + tail;
    }
    hide FileAt, LinesFor, SerializedOn;
    assert (recorded + [e])[|recorded|] == e && (buffer + [b])[|buffer|] == b;
    assert DatesOf(recorded + [e]) == DatesOf(recorded) + {e.date};
    assert BufferedDates(buffer + [b]) == BufferedDates(buffer) + {e.date};
  }

  lemma FlushingBalances(initial: map<Date, seq<Line>>, recorded: seq<Event>, files: map<Date, seq<Line>>,
                         buffer: seq<Buffered>, after: map<Date, seq<Line>>)
    requires Balanced(initial, recorded, files, buffer)
    requires after.Keys == files.Keys + BufferedDates(buffer)
    requires forall d :: FileAt(after, d) == FileAt(files, d) + LinesFor(buffer, d)
    ensures Balanced(initial, recorded, after, [])
  {
    hide FileAt, SerializedOn;
    forall d ensures FileAt(after, d) + LinesFor([], d) == FileAt(initial, d) + SerializedOn(recorded, d) {
      assert FileAt(after, d) + [] == FileAt(after, d);
    }
    forall d ensures FileAt(initial, d) <= FileAt(after, d) {
      assert FileAt(initial, d) <= FileAt(files, d) <= FileAt(files, d) + LinesFor(buffer, d);
    }
  }

  /** Each file holds what was there before and then a prefix of its date's
      recorded lines. */
  ghost predicate HoldsPrefixes(initial: map<Date, seq<Line>>, recorded: seq<Event>, files: map<Date, seq<Line>>)
  {
    forall d :: FileAt(initial, d) <= FileAt(files, d) <= FileAt(initial, d) + SerializedOn(recorded, d)
  }

  ghost predicate AllHoldPrefixes(initial: map<Date, seq<Line>>, recorded: seq<Event>, points: seq<map<Date, seq<Line>>>)
  {
    forall p <- points :: HoldsPrefixes(initial, recorded, p)
  }

  /** Some of the dates are appended, the others not yet. */
  ghost predicate Between(files: map<Date, seq<Line>>, grouped: map<Date, seq<Line>>, p: map<Date, seq<Line>>)
  {
    forall d :: FileAt(p, d) == FileAt(files, d) || FileAt(p, d) == FileAt(files, d) + FileAt(grouped, d)
  }

  ghost predicate AllBetween(files: map<Date, seq<Line>>, grouped: map<Date, seq<Line>>, points: seq<map<Date, seq<Line>>>)
  {
    forall p <- points :: Between(files, grouped, p)
  }

  /** Between two calls the files hold prefixes. */
  lemma BalancedHoldsPrefixes(initial: map<Date, seq<Line>>, recorded: seq<Event>, files: map<Date, seq<Line>>, buffer: seq<Buffered>)
    requires Balanced(initial, recorded, files, buffer)
    ensures HoldsPrefixes(initial, recorded, files)
  {
    hide FileAt, LinesFor, SerializedOn;
    forall d ensures FileAt(files, d) <= FileAt(initial, d) + SerializedOn(recorded, d) {
      assert FileAt(files, d) + LinesFor(buffer, d) == FileAt(initial, d) + SerializedOn(recorded, d);
      assert FileAt(files, d) <= FileAt(files, d) + LinesFor(buffer, d);
    }
  }

  /** So they do halfway through a flush. */
  lemma HalfFlushedHoldsPrefixes(initial: map<Date, seq<Line>>, recorded: seq<Event>, files: map<Date, seq<Line>>,
                                 buffer: seq<Buffered>, grouped: map<Date, seq<Line>>, points: seq<map<Date, seq<Line>>>)
    requires Balanced(initial, recorded, files, buffer) && AllBetween(files, grouped, points)
    requires forall d :: FileAt(grouped, d) == LinesFor(buffer, d)
    ensures AllHoldPrefixes(initial, recorded, points)
  {
    BalancedHoldsPrefixes(initial, recorded, files, buffer);
    hide FileAt, LinesFor, SerializedOn;
    forall p <- points, d ensures FileAt(initial, d) <= FileAt(p, d) <= FileAt(initial, d) + SerializedOn(recorded, d) {
      assert Between(files, grouped, p);
      assert FileAt(files, d) + LinesFor(buffer, d) == FileAt(initial, d) + SerializedOn(recorded, d);
      assert FileAt(initial, d) <= FileAt(files, d) <= FileAt(files, d) + LinesFor(buffer, d);
    }
  }

  lemma PrefixesStay(initial: map<Date, seq<Line>>, recorded: seq<Event>, e: Event, points: seq<map<Date, seq<Line>>>)
    requires AllHoldPrefixes(initial, recorded, points)
    ensures AllHoldPrefixes(initial, recorded + [e], points)
  {
    forall p <- points, d ensures FileAt(initial, d) <= FileAt(p, d) <= FileAt(initial, d) + SerializedOn(recorded + [e], d) {
      assert HoldsPrefixes(initial, recorded, p);
      SerializedAppend(recorded, e, d);
      hide *;
      var tail := if e.date == d then [Serialize(e)] else [];
      assert FileAt(initial, d) + SerializedOn(recorded, d) <= FileAt(initial, d) + (SerializedOn(recorded, d) + tail);
    }
  }

  /** The lines of a buffer, by date. */
  ghost predicate Groups(grouped: map<Date, seq<Line>>, buffer: seq<Buffered>)
  {
    grouped.Keys == BufferedDates(buffer) && forall d :: FileAt(grouped, d) == LinesFor(buffer, d)
  }

  lemma GroupsStep(grouped: map<Date, seq<Line>>, buffer: seq<Buffered>, i: nat)
    requires i < |buffer| && Groups(grouped, buffer[..i])
    ensures var b := buffer[i]; Groups(grouped[b.date := FileAt(grouped, b.date) + [b.line]], buffer[..i + 1])
  {
    var b := buffer[i];
    var next := grouped[b.date := FileAt(grouped, b.date) + [b.line]];
    assert buffer[..i + 1] == buffer[..i] + [b];
    assert (buffer[..i] + [b])[i] == b;
    assert BufferedDates(buffer[..i + 1]) == BufferedDates(buffer[..i]) + {b.date};
    forall d ensures FileAt(next, d) == LinesFor(buffer[..i + 1], d) {
      LinesForAppend(buffer[..i], b, d);
      assert FileAt(grouped, d) == LinesFor(buffer[..i], d);
    }
    hide FileAt, LinesFor, BufferedDates;
  }

  /** The dates not in `rest` have their grouped lines appended. */
  ghost predicate Flushing(before: map<Date, seq<Line>>, grouped: map<Date, seq<Line>>, rest: set<Date>, files: map<Date, seq<Line>>)
  {
    && (forall d :: d in files <==> d in before || (d in grouped && d !in rest))
    && (forall d <- rest :: FileAt(files, d) == FileAt(before, d))
    && forall d | d !in rest :: FileAt(files, d) == FileAt(before, d) + FileAt(grouped, d)
  }

  lemma FlushingStep(before: map<Date, seq<Line>>, grouped: map<Date, seq<Line>>, rest: set<Date>,
                     files: map<Date, seq<Line>>, d: Date, after: map<Date, seq<Line>>)
    requires Flushing(before, grouped, rest, files) && d in rest && rest <= grouped.Keys
    requires after.Keys == files.Keys + {d} && FileAt(after, d) == FileAt(files, d) + FileAt(grouped, d)
    requires forall e | e != d :: FileAt(after, e) == FileAt(files, e)
    ensures Flushing(before, grouped, rest - {d}, after) && Between(before, grouped, after)
  {
    hide FileAt;
  }

  lemma NothingBetween(files: map<Date, seq<Line>>, grouped: map<Date, seq<Line>>)
    ensures AllBetween(files, grouped, [])
  {
  }

  lemma AllBetweenAppend(files: map<Date, seq<Line>>, grouped: map<Date, seq<Line>>, points: seq<map<Date, seq<Line>>>, p: map<Date, seq<Line>>)
    requires AllBetween(files, grouped, points) && Between(files, grouped, p)
    ensures AllBetween(files, grouped, points + [p])
  {
    hide Between;
  }

  lemma FlushingEnds(before: map<Date, seq<Line>>, grouped: map<Date, seq<Line>>, files: map<Date, seq<Line>>)
    requires Flushing(before, grouped, {}, files)
    ensures files.Keys == before.Keys + grouped.Keys
    ensures forall d :: FileAt(files, d) == FileAt(before, d) + FileAt(grouped, d)
  {
    hide FileAt;
  }

  lemma AppendingNothing(files: map<Date, seq<Line>>, grouped: map<Date, seq<Line>>)
    ensures forall d | d !in grouped :: FileAt(files, d) == FileAt(files, d) + FileAt(grouped, d)
    ensures forall d <- grouped :: FileAt(grouped, d) == grouped[d]
  {
  }

  class EventRecorder {
    const flushEvery: int
    var buffer: seq<Buffered>
    var count: nat
    var files: map<Date, seq<Line>>          // the plain files of the directory
    ghost const initial: map<Date, seq<Line>>
    ghost var recorded: seq<Event>
    ghost var crashPoints: seq<map<Date, seq<Line>>>  // the files after every append

    ghost predicate Valid()
      reads this
    {
      && flushEvery >= 1 && |buffer| < flushEvery && count == |recorded|
      && Balanced(initial, recorded, files, buffer)
      && AllHoldPrefixes(initial, recorded, crashPoints)
    }

    /** Wherever the process dies, also inside a flush, each file holds what was
        there before and a prefix of its date's recorded lines. */
    lemma EveryCrashPointHoldsPrefixes()
      requires Valid()
      ensures HoldsPrefixes(initial, recorded, files) && forall p <- crashPoints :: HoldsPrefixes(initial, recorded, p)
    {
      BalancedHoldsPrefixes(initial, recorded, files, buffer);
      hide Balanced, HoldsPrefixes;
    }

    constructor (flushEvery: int, files: map<Date, seq<Line>>)
      ensures Valid() && this.flushEvery == (if flushEvery >= 1 then flushEvery else 1)
      ensures recorded == [] && initial == files == this.files && crashPoints == []
    {
      crashPoints := [];
      this.flushEvery := if flushEvery >= 1 then flushEvery else 1;
      buffer, count := [], 0;
      this.files, initial, recorded := files, files, [];
    }

    /** Group the lines by date, keeping their order. */
    static method Grouped(buffered: seq<Buffered>) returns (grouped: map<Date, seq<Line>>)
      ensures Groups(grouped, buffered)
    {
      grouped := map[];
      assert Groups(grouped, buffered[..0]);
      hide Groups;
      for i := 0 to |buffered|
        invariant Groups(grouped, buffered[..i])
      {
        var b := buffered[i];
        GroupsStep(grouped, buffered, i);
        grouped := grouped[b.date := FileAt(grouped, b.date) + [b.line]];
      }
      assert buffered[..|buffered|] == buffered;
    }

    method AppendGrouped(grouped: map<Date, seq<Line>>)
      modifies this`files, this`crashPoints
      ensures files.Keys == old(files).Keys + grouped.Keys
      ensures forall d :: FileAt(files, d) == FileAt(old(files), d) + FileAt(grouped, d)
      ensures old(crashPoints) <= crashPoints
      ensures AllBetween(old(files), grouped, crashPoints[|old(crashPoints)|..])
    {
      AppendingNothing(files, grouped);
      hide FileAt;
      ghost var points: seq<map<Date, seq<Line>>> := [];
      var rest := grouped.Keys;
      assert crashPoints == old(crashPoints) + points && Flushing(files, grouped, rest, files);
      hide Flushing, AllBetween;
      NothingBetween(files, grouped);
      while |rest| > 0
        invariant rest <= grouped.Keys && Flushing(old(files), grouped, rest, files)
        invariant crashPoints == old(crashPoints) + points && AllBetween(old(files), grouped, points)
      {
        var d :| d in rest;
        ghost var before := files;
        AppendLines(d, grouped[d]);
        FlushingStep(old(files), grouped, rest, before, d, files);
        AllBetweenAppend(old(files), grouped, points, files);
        rest := rest - {d};
        points := points + [files];
      }
      FlushingEnds(old(files), grouped, files);
      assert crashPoints[|old(crashPoints)|..] == points;
    }

    /** One append to one day's file, and a point where the process may die. */
    method AppendLines(d: Date, lines: seq<Line>)
      modifies this`files, this`crashPoints
      ensures files.Keys == old(files).Keys + {d} && FileAt(files, d) == FileAt(old(files), d) + lines
      ensures forall e | e != d :: FileAt(files, e) == FileAt(old(files), e)
      ensures crashPoints == old(crashPoints) + [files]
    {
      files := files[d := FileAt(files, d) + lines];
      crashPoints := crashPoints + [files];
    }

    method FlushLocked()
      requires flushEvery >= 1 && count == |recorded| && Balanced(initial, recorded, files, buffer)
      requires AllHoldPrefixes(initial, recorded, crashPoints)
      modifies this`buffer, this`files, this`crashPoints
      ensures Valid() && buffer == [] && old(crashPoints) <= crashPoints
    {
      hide FileAt, LinesFor, SerializedOn, BufferedDates, DatesOf, HoldsPrefixes, Between;
      if buffer == [] { return; }
      var buffered := buffer;
      buffer := [];
      var grouped := Grouped(buffered);
      AppendGrouped(grouped);
      ghost var points := crashPoints[|old(crashPoints)|..];
      HalfFlushedHoldsPrefixes(initial, recorded, old(files), buffered, grouped, points);
      FlushingBalances(initial, recorded, old(files), buffered, files);
      assert crashPoints == old(crashPoints) + points;
      hide Balanced;
    }

    method Record(e: Event)
      requires Valid()
      modifies this
      ensures Valid() && recorded == old(recorded) + [e] && old(crashPoints) <= crashPoints
    {
      hide Balanced, AllHoldPrefixes;
      BufferingBalances(initial, recorded, files, buffer, e);
      PrefixesStay(initial, recorded, e, crashPoints);
      var line := Serialize(e);
      buffer := buffer + [Buffered(e.date, line)];
      count := count + 1;
      recorded := recorded + [e];
      if |buffer| >= flushEvery { FlushLocked(); }
    }

    /** On a directory that was empty, what is replayed after close is the
        recorded events grouped by date. */
    method Close()
      requires Valid()
      modifies this`buffer, this`files, this`crashPoints
      ensures Valid() && buffer == [] && old(crashPoints) <= crashPoints
      ensures initial == map[] ==> Replay(Dir(files, map[], map[])) == GroupedByDate(recorded)
    {
      FlushLocked();
      if initial == map[] { ClosedFilesReplay(recorded, files); }
    }
  }

  lemma ClosedFile(recorded: seq<Event>, files: map<Date, seq<Line>>, d: Date)
    requires Balanced(map[], recorded, files, []) && d in files
    ensures Decoded(files[d]) == EventsOn(recorded, d)
  {
    DecodesToEvents(recorded, d);
    assert FileAt(files, d) + LinesFor([], d) == FileAt(map[], d) + SerializedOn(recorded, d);
    hide Decoded, EventsOn, SerializedOn;
    assert files[d] + [] == files[d] && [] + SerializedOn(recorded, d) == SerializedOn(recorded, d);
  }

  lemma ClosedFilesReplay(recorded: seq<Event>, files: map<Date, seq<Line>>)
    requires Balanced(map[], recorded, files, [])
    ensures Replay(Dir(files, map[], map[])) == GroupedByDate(recorded)
  {
    var dir := Dir(files, map[], map[]);
    assert files.Keys == DatesOf(recorded) by { assert BufferedDates([]) == {}; }
    hide Balanced;
    forall d <- files ensures Decoded(files[d]) == EventsOn(recorded, d) {
      ClosedFile(recorded, files, d);
    }
    hide Decoded, EventsOn, Gathered, DatesOf;
    assert DecodedByDate(dir) == PerDate(recorded);
  }

  /** With a clock that does not go back over midnight, recording and replaying
      are inverse. */
  lemma ReplayIsTheRecordedStream(recorded: seq<Event>, files: map<Date, seq<Line>>)
    requires Balanced(map[], recorded, files, [])
    requires forall i, j | 0 <= i < j < |recorded| :: recorded[i].date.day <= recorded[j].date.day
    ensures Replay(Dir(files, map[], map[])) == recorded
  {
    ClosedFilesReplay(recorded, files);
    GroupingKeepsOrderedStreams(recorded);
  }
}
