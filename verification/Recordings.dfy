/** backtest/recording_paths.py and backtest/replay.py: the daily recording files
    and the event stream read back from them.  Dates are ordered as their ISO
    text is; JSON and gzip are abstract codecs, so a line is known by its
    width and by what it parses to. */
module Recordings {
  import opened Prelude

  datatype Date = Date(day: int)

  type Body(==, !new)

  /** `width` is the length of the event's JSON text. */
  datatype Event = Event(date: Date, width: nat, body: Body)

  datatype Meaning = Parses(event: Event) | Malformed | Blank

  datatype Line = Line(width: nat, meaning: Meaning)

  /** What a compressed file holds: a whole stream or one that ends too soon. */
  datatype Archive = Whole(lines: seq<Line>) | Truncated

  /** `events-D.jsonl`, `events-D.jsonl.gz` and `events-D.jsonl.gz.part`, by date. */
  datatype Dir = Dir(plain: map<Date, seq<Line>>, archive: map<Date, seq<Line>>, part: map<Date, Archive>)

  datatype Path = Plain(date: Date) | Gz(date: Date)

  // ------------------------------------------------------------------- dates

  predicate IsLeast(d: Date, dates: set<Date>)
  {
    d in dates && forall e <- dates :: d.day <= e.day
  }

  function Least(dates: set<Date>): (d: Date)
    requires |dates| > 0
    ensures IsLeast(d, dates)
  {
    LeastExists(dates);
    var d :| IsLeast(d, dates);
    d
  }

  lemma {:induction false} LeastExists(dates: set<Date>)
    requires |dates| > 0
    ensures exists d :: IsLeast(d, dates)
  {
    var x :| x in dates;
    var rest := dates - {x};
    if |rest| > 0 {
      LeastExists(rest);
      var d :| IsLeast(d, rest);
      LeastOfTwo(dates, x, d);
    } else {
      assert dates == {x};
      assert IsLeast(x, dates);
    }
  }

  lemma LeastOfTwo(dates: set<Date>, x: Date, d: Date)
    requires x in dates && IsLeast(d, dates - {x})
    ensures IsLeast(if x.day <= d.day then x else d, dates)
  {
    forall e <- dates ensures (if x.day <= d.day then x else d).day <= e.day {
      if e != x { assert e in dates - {x}; }
    }
  }

  /** The dates in chronological order. */
  function Ascending(dates: set<Date>): (order: seq<Date>)
    ensures forall i | 0 <= i < |order| :: order[i] in dates
  {
    if |dates| == 0 then [] else [Least(dates)] + Ascending(dates - {Least(dates)})
  }

  /** Every date, in strictly increasing order. */
  lemma {:induction false} AscendingListsAll(dates: set<Date>)
    ensures forall d <- dates :: d in Ascending(dates)
    ensures forall i, j | 0 <= i < j < |Ascending(dates)| :: Ascending(dates)[i].day < Ascending(dates)[j].day
  {
    if |dates| > 0 {
      var d := Least(dates);
      AscendingListsAll(dates - {d});
      assert Ascending(dates) == [d] + Ascending(dates - {d});
      forall e <- dates ensures e in Ascending(dates) { assert e == d || e in dates - {d}; }
    }
  }

  /** The latest date comes last. */
  lemma {:induction false} AscendingEndsWithLatest(dates: set<Date>, latest: Date)
    requires latest in dates && forall d <- dates :: d.day <= latest.day
    ensures Ascending(dates) == Ascending(dates - {latest}) + [latest]
  {
    var d := Least(dates);
    if d == latest {
      assert dates == {latest};
      assert dates - {latest} == {};
    } else {
      AscendingEndsWithLatest(dates - {d}, latest);
      assert Least(dates - {latest}) == d;
      assert (dates - {latest}) - {d} == (dates - {d}) - {latest};
    }
  }

  // ------------------------------------------------------------ finding files

  /** Inclusive bounds on the dates wanted, and dates to leave out. */
  datatype Window = Window(since: Option<Date>, until: Option<Date>, exclude: set<Date>) {
    predicate Selects(d: Date)
    {
      && (since.Some? ==> d.day >= since.value.day) && (until.Some? ==> d.day <= until.value.day) && d !in exclude
    }
  }

  const EVERYTHING := Window(None, None, {})

  /** One path per date on disk, the plain file where both forms exist. */
  function ByDate(dir: Dir, w: Window): map<Date, Path>
  {
    map d | d in dir.plain.Keys + dir.archive.Keys && w.Selects(d) ::
      if d in dir.plain then Plain(d) else Gz(d)
  }

  function PathsFor(byDate: map<Date, Path>, dates: seq<Date>): (paths: seq<Path>)
    requires forall i | 0 <= i < |dates| :: dates[i] in byDate
    ensures |paths| == |dates| && forall i | 0 <= i < |dates| :: paths[i] == byDate[dates[i]]
  {
    if dates == [] then [] else [byDate[dates[0]]] + PathsFor(byDate, dates[1..])
  }

  /** One pass over the files of a suffix: every selected date is (over)written. */
  method Overwrite(byDate: map<Date, Path>, found: set<Date>, compressed: bool, w: Window) returns (filled: map<Date, Path>)
    ensures filled.Keys == byDate.Keys + set d | d in found && w.Selects(d)
    ensures forall d <- filled :: filled[d] == if d in found && w.Selects(d) then PathOf(d, compressed) else byDate[d]
  {
    filled := byDate;
    var rest := found;
    while |rest| > 0
      invariant rest <= found
      invariant forall d :: d in filled <==> d in byDate || (d in found - rest && w.Selects(d))
      invariant forall d <- filled :: filled[d] == if d in found - rest && w.Selects(d) then PathOf(d, compressed) else byDate[d]
    {
      var date :| date in rest;
      rest := rest - {date};
      if w.since.Some? && date.day < w.since.value.day { continue; }
      if w.until.Some? && date.day > w.until.value.day { continue; }
      if date in w.exclude { continue; }
      filled := filled[date := PathOf(date, compressed)];
    }
  }

  function PathOf(d: Date, compressed: bool): Path
  {
    if compressed then Gz(d) else Plain(d)
  }

  /** Plain files last, so that they win; then in date order. */
  method RecordingFiles(dir: Dir, w: Window) returns (files: seq<Path>)
    ensures files == PathsFor(ByDate(dir, w), Ascending(ByDate(dir, w).Keys))
  {
    hide Ascending;
    var byDate := Overwrite(map[], dir.archive.Keys, true, w);
    byDate := Overwrite(byDate, dir.plain.Keys, false, w);
    assert byDate == ByDate(dir, w);
    files := PathsFor(byDate, Ascending(byDate.Keys));
  }

  lemma {:induction false} PathsAreThose(byDate: map<Date, Path>, dates: seq<Date>, p: Path)
    requires forall i | 0 <= i < |dates| :: dates[i] in byDate
    ensures p in PathsFor(byDate, dates) <==> exists d <- dates :: byDate[d] == p
  {
    if dates != [] { PathsAreThose(byDate, dates[1..], p); }
  }

  /** A file is read exactly when its date is on neither side of the window nor
      left out, and, for an archive, when there is no plain file of that date. */
  lemma FilesAreSelected(dir: Dir, w: Window, d: Date)
    ensures var files := PathsFor(ByDate(dir, w), Ascending(ByDate(dir, w).Keys));
            var wanted := (w.since.None? || w.since.value.day <= d.day) && (w.until.None? || d.day <= w.until.value.day) && d !in w.exclude;
            && (Plain(d) in files <==> d in dir.plain && wanted)
            && (Gz(d) in files <==> d in dir.archive && d !in dir.plain && wanted)
  {
    hide Ascending, PathsFor;
    var byDate := ByDate(dir, w);
    OnlyItsOwnPath(dir, w, d);
    hide ByDate;
    AscendingListsAll(byDate.Keys);
    PathsAreThose(byDate, Ascending(byDate.Keys), Plain(d));
    PathsAreThose(byDate, Ascending(byDate.Keys), Gz(d));
    if d in byDate { assert d in Ascending(byDate.Keys); }
  }

  lemma OnlyItsOwnPath(dir: Dir, w: Window, d: Date)
    ensures forall e <- ByDate(dir, w) :: ByDate(dir, w)[e].date == e
    ensures d in ByDate(dir, w) <==> (d in dir.plain || d in dir.archive) && w.Selects(d)
    ensures d in ByDate(dir, w) ==> ByDate(dir, w)[d] == if d in dir.plain then Plain(d) else Gz(d)
  {
  }

  // ----------------------------------------------------------------- replay

  function Decoded(lines: seq<Line>): seq<Event>
  {
    if lines == [] then []
    else Decoded(lines[..|lines| - 1]) + if lines[|lines| - 1].meaning.Parses? then [lines[|lines| - 1].meaning.event] else []
  }

  function BadLines(lines: seq<Line>): nat
  {
    if lines == [] then 0
    else BadLines(lines[..|lines| - 1]) + if lines[|lines| - 1].meaning.Malformed? then 1 else 0
  }

  /** Every line that does not parse is counted, unless blank. */
  lemma {:induction false} BadLinesAreCounted(lines: seq<Line>)
    ensures BadLines(lines) == |set i | 0 <= i < |lines| && lines[i].meaning.Malformed?|
  {
    if lines != [] {
      var n := |lines| - 1;
      BadLinesAreCounted(lines[..n]);
      var bad := set i | 0 <= i < n && lines[..n][i].meaning.Malformed?;
      assert (set i | 0 <= i < |lines| && lines[i].meaning.Malformed?) == bad + if lines[n].meaning.Malformed? then {n} else {};
    }
  }

  /** Blank lines pass silently; lines that do not parse are counted and skipped. */
  method ReplayFile(lines: seq<Line>) returns (events: seq<Event>, skipped: nat)
    ensures events == Decoded(lines) && skipped == BadLines(lines)
  {
    events, skipped := [], 0;
    for i := 0 to |lines|
      invariant events == Decoded(lines[..i]) && skipped == BadLines(lines[..i])
    {
      assert lines[..i + 1][..i] == lines[..i];
      if lines[i].meaning.Blank? { continue; }
      if lines[i].meaning.Malformed? {
        skipped := skipped + 1;
        continue;
      }
      events := events + [lines[i].meaning.event];
    }
    assert lines[..|lines|] == lines;
  }

  /** Concatenation in date order. */
  function Flat(parts: map<Date, seq<Event>>, dates: seq<Date>): seq<Event>
    requires forall i | 0 <= i < |dates| :: dates[i] in parts
  {
    if dates == [] then [] else Flat(parts, dates[..|dates| - 1]) + parts[dates[|dates| - 1]]
  }

  function Gathered(parts: map<Date, seq<Event>>): seq<Event>
  {
    Flat(parts, Ascending(parts.Keys))
  }

  function LinesAt(dir: Dir, d: Date): seq<Line>
    requires d in dir.plain || d in dir.archive
  {
    if d in dir.plain then dir.plain[d] else dir.archive[d]
  }

  function DecodedByDate(dir: Dir): map<Date, seq<Event>>
  {
    map d | d in dir.plain.Keys + dir.archive.Keys :: Decoded(LinesAt(dir, d))
  }

  /** The whole history of a directory. */
  function Replay(dir: Dir): seq<Event>
  {
    Gathered(DecodedByDate(dir))
  }

  predicate Exists(dir: Dir, path: Path)
  {
    if path.Plain? then path.date in dir.plain else path.date in dir.archive
  }

  function Opened(dir: Dir, path: Path): seq<Line>
    requires Exists(dir, path)
  {
    match path case Plain(d) => dir.plain[d] case Gz(d) => dir.archive[d]
  }

  lemma FlatStep(parts: map<Date, seq<Event>>, dates: seq<Date>, i: nat)
    requires i < |dates| && forall j | 0 <= j < |dates| :: dates[j] in parts
    ensures Flat(parts, dates[..i + 1]) == Flat(parts, dates[..i]) + parts[dates[i]]
  {
    assert dates[..i + 1][..i] == dates[..i];
  }

  /** The chosen file of a date holds what that date decodes to. */
  lemma ChosenFiles(dir: Dir, dates: seq<Date>)
    requires dates == Ascending(DecodedByDate(dir).Keys)
    ensures dates == Ascending(ByDate(dir, EVERYTHING).Keys)
    ensures forall i | 0 <= i < |dates| ::
              && dates[i] in DecodedByDate(dir) && Exists(dir, ByDate(dir, EVERYTHING)[dates[i]])
              && Decoded(Opened(dir, ByDate(dir, EVERYTHING)[dates[i]])) == DecodedByDate(dir)[dates[i]]
  {
    hide Ascending, Decoded;
    assert ByDate(dir, EVERYTHING).Keys == DecodedByDate(dir).Keys;
  }

  /** The iterator over a directory: file after file, line after line. */
  method ReplayDirectory(dir: Dir) returns (events: seq<Event>)
    ensures events == Replay(dir)
  {
    ghost var parts, dates := DecodedByDate(dir), Ascending(DecodedByDate(dir).Keys);
    ChosenFiles(dir, dates);
    hide DecodedByDate, ByDate, Ascending, Decoded, Flat, Opened, Exists;
    var files := RecordingFiles(dir, EVERYTHING);
    events := [];
    FlatEmpty(parts);
    for i := 0 to |files|
      invariant events == Flat(parts, dates[..i])
    {
      FlatStep(parts, dates, i);
      var more, _ := ReplayFile(Opened(dir, files[i]));
      events := events + more;
    }
    assert dates[..|dates|] == dates;
  }

  lemma FlatEmpty(parts: map<Date, seq<Event>>)
    ensures Flat(parts, []) == []
  {
  }

  // ------------------------------------------------------------- properties

  lemma {:induction false} DecodedConcat(a: seq<Line>, b: seq<Line>)
    ensures Decoded(a + b) == Decoded(a) + Decoded(b)
  {
    if b == [] {
      assert a + b == a;
    } else {
      DecodedConcat(a, b[..|b| - 1]);
      assert (a + b)[..|a| + |b| - 1] == a + b[..|b| - 1];
      var tail := if b[|b| - 1].meaning.Parses? then [b[|b| - 1].meaning.event] else [];
      assert Decoded(a) + (Decoded(b[..|b| - 1]) + tail) == (Decoded(a) + Decoded(b[..|b| - 1])) + tail;
    }
  }

  lemma SameDecodedSameReplay(a: Dir, b: Dir)
    requires a.plain.Keys + a.archive.Keys == b.plain.Keys + b.archive.Keys
    requires forall d <- a.plain.Keys + a.archive.Keys :: Decoded(LinesAt(a, d)) == Decoded(LinesAt(b, d))
    ensures Replay(a) == Replay(b)
  {
    hide Gathered, Decoded;
    assert DecodedByDate(a) == DecodedByDate(b);
  }

  lemma BadLineDecodesToNothing(before: seq<Line>, bad: Line, after: seq<Line>)
    requires !bad.meaning.Parses?
    ensures Decoded(before + [bad] + after) == Decoded(before + after)
  {
    DecodedConcat(before + [bad], after);
    DecodedConcat(before, [bad]);
    DecodedConcat(before, after);
    assert Decoded([bad]) == [];
  }

  /** Torn or blank lines anywhere in a file do not change the replay. */
  lemma BadLinesAreInvisible(dir: Dir, d: Date, before: seq<Line>, bad: Line, after: seq<Line>)
    requires d in dir.plain && dir.plain[d] == before + after && !bad.meaning.Parses?
    ensures Replay(dir.(plain := dir.plain[d := before + [bad] + after])) == Replay(dir)
  {
    BadLineDecodesToNothing(before, bad, after);
    hide Decoded, Replay;
    SameDecodedSameReplay(dir, dir.(plain := dir.plain[d := before + [bad] + after]));
  }

  function EventsOn(events: seq<Event>, d: Date): seq<Event>
  {
    if events == [] then []
    else EventsOn(events[..|events| - 1], d) + if events[|events| - 1].date == d then [events[|events| - 1]] else []
  }

  function DatesOf(events: seq<Event>): set<Date>
  {
    set e <- events :: e.date
  }

  function PerDate(events: seq<Event>): map<Date, seq<Event>>
  {
    map d | d in DatesOf(events) :: EventsOn(events, d)
  }

  /** The events grouped by date, oldest date first, in their order within it. */
  function GroupedByDate(events: seq<Event>): seq<Event>
  {
    Gathered(PerDate(events))
  }

  lemma {:induction false} FlatAgrees(p: map<Date, seq<Event>>, q: map<Date, seq<Event>>, dates: seq<Date>)
    requires forall i | 0 <= i < |dates| :: dates[i] in p && dates[i] in q && p[dates[i]] == q[dates[i]]
    ensures Flat(p, dates) == Flat(q, dates)
  {
    if dates != [] { FlatAgrees(p, q, dates[..|dates| - 1]); }
  }

  lemma {:induction false} NoneOnOtherDates(events: seq<Event>, d: Date)
    requires d !in DatesOf(events)
    ensures EventsOn(events, d) == []
  {
    if events != [] {
      var init := events[..|events| - 1];
      assert events[|events| - 1] in events;
      assert d !in DatesOf(init);
      NoneOnOtherDates(init, d);
    }
  }

  lemma GatheredEndsWithLatest(parts: map<Date, seq<Event>>, latest: Date)
    requires latest in parts && forall d <- parts :: d.day <= latest.day
    ensures Gathered(parts) == Flat(parts, Ascending(parts.Keys - {latest})) + parts[latest]
  {
    AscendingEndsWithLatest(parts.Keys, latest);
    var rest := Ascending(parts.Keys - {latest});
    assert (rest + [latest])[..|rest|] == rest;
  }

  lemma EventsOnAppend(init: seq<Event>, last: Event, d: Date)
    ensures EventsOn(init + [last], d) == EventsOn(init, d) + if last.date == d then [last] else []
  {
    assert (init + [last])[..|init|] == init;
  }

  /** Lengthening the latest date's part by one lengthens the whole by one. */
  lemma LatestGrows(p: map<Date, seq<Event>>, q: map<Date, seq<Event>>, latest: Date, last: Event)
    requires p.Keys == q.Keys + {latest} && forall d <- p :: d.day <= latest.day
    requires forall d <- q | d != latest :: p[d] == q[d]
    requires p[latest] == (if latest in q then q[latest] else []) + [last]
    ensures Gathered(p) == Gathered(q) + [last]
  {
    hide Ascending, Flat;
    var rest := Ascending(q.Keys - {latest});
    assert p.Keys - {latest} == q.Keys - {latest};
    GatheredEndsWithLatest(p, latest);
    FlatAgrees(p, q, rest);
    if latest in q {
      GatheredEndsWithLatest(q, latest);
      hide *;
      assert Flat(q, rest) + (q[latest] + [last]) == (Flat(q, rest) + q[latest]) + [last];
    } else {
      assert q.Keys - {latest} == q.Keys;
      assert Gathered(q) == Flat(q, rest);
      hide *;
      assert [] + [last] == [last];
    }
  }

  /** One more event on the latest date joins the end of the grouping. */
  lemma GroupingAppends(init: seq<Event>, last: Event)
    requires forall e <- init :: e.date.day <= last.date.day
    ensures GroupedByDate(init + [last]) == GroupedByDate(init) + [last]
  {
    var d, events := last.date, init + [last];
    assert events[|init|] == last;
    assert DatesOf(events) == DatesOf(init) + {d};
    forall e ensures EventsOn(events, e) == EventsOn(init, e) + if d == e then [last] else [] {
      EventsOnAppend(init, last, e);
    }
    if d !in DatesOf(init) { NoneOnOtherDates(init, d); }
    hide EventsOn, Gathered;
    LatestGrows(PerDate(events), PerDate(init), d, last);
  }

  /** A recording whose dates never go back is replayed as it was recorded. */
  lemma {:induction false} GroupingKeepsOrderedStreams(events: seq<Event>)
    requires forall i, j | 0 <= i < j < |events| :: events[i].date.day <= events[j].date.day
    ensures GroupedByDate(events) == events
  {
    if events != [] {
      var init, last := events[..|events| - 1], events[|events| - 1];
      assert events == init + [last];
      GroupingKeepsOrderedStreams(init);
      GroupingAppends(init, last);
    }
  }
}
