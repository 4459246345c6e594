/** src/strategy/microstructure/oi_zscore.py: how unusual a change in open
    interest is, ignoring repeated readings. */
module OiZScore {
  import opened Prelude
  import opened RollingStatistics

  /** `deltas` is every recorded change ever; the tracker keeps the last `window`. */
  datatype OiState = OiState(prev: Option<real>, deltas: seq<real>, lastDelta: real, lastZ: real)

  const OI_START := OiState(None, [], 0.0, 0.0)

  datatype OiParams = OiParams(window: nat, skipUnchanged: bool, zClamp: real)

  /** The state after one reading; the reading's z-score is `lastZ`. */
  function OiStep(params: OiParams, root: real -> real, s: OiState, oi: real): OiState
  {
    match s.prev
    case None => OiState(Some(oi), s.deltas, 0.0, 0.0)
    case Some(prev) =>
      var delta := Change(prev, oi);
      if delta == 0.0 && params.skipUnchanged then s.(prev := Some(oi))
      else
        var recent := LastN(s.deltas, params.window);
        var z := if |recent| >= 2 then ZScore(root, recent, delta) else 0.0;
        OiState(Some(oi), s.deltas + [delta], delta, Clamp(-params.zClamp, params.zClamp, z))
  }

  function OiRun(params: OiParams, root: real -> real, readings: seq<real>): OiState
  {
    if readings == [] then OI_START
    else OiStep(params, root, OiRun(params, root, readings[..|readings|-1]), readings[|readings|-1])
  }

  // ------------------------------------------------------------- definitions

  /** The readings with immediate repetitions removed. */
  function Destuttered(readings: seq<real>): (r: seq<real>)
    ensures r == [] <==> readings == []
    ensures readings != [] ==> r[|r|-1] == readings[|readings|-1]
  {
    if |readings| <= 1 then readings else
      var init := Destuttered(readings[..|readings|-1]);
      if readings[|readings|-1] == readings[|readings|-2] then init else init + [readings[|readings|-1]]
  }

  function Change(from: real, to: real): real { to - from }

  /** Successive differences. */
  function Changes(readings: seq<real>): seq<real>
  {
    if |readings| <= 1 then [] else
      Changes(readings[..|readings|-1]) + [Change(readings[|readings|-2], readings[|readings|-1])]
  }

  predicate AllNonZero(xs: seq<real>) { forall x <- xs :: x != 0.0 }

  /** The default tracker cannot tell a stream from the stream without its
      repetitions: same window, same last change, same z after every reading -
      a repeated reading just carries the last z forward. */
  lemma {:induction false} RepeatsAreInvisible(params: OiParams, root: real -> real, readings: seq<real>)
    requires params.skipUnchanged
    ensures OiRun(params, root, readings) == OiRun(params, root, Destuttered(readings))
    ensures readings != [] ==> OiRun(params, root, readings).prev == Some(readings[|readings|-1])
  {
    if |readings| == 1 {
      assert readings[..0] == [];
    } else if readings != [] {
      var init, oi := readings[..|readings|-1], readings[|readings|-1];
      RepeatsAreInvisible(params, root, init);
      if oi != readings[|readings|-2] {
        var d := Destuttered(init) + [oi];
        assert d[..|d|-1] == Destuttered(init);
      }
    }
  }

  lemma ChangesAppend(readings: seq<real>, oi: real)
    requires readings != []
    ensures Changes(readings + [oi]) == Changes(readings) + [Change(readings[|readings|-1], oi)]
  {
    hide Change;
    var d := readings + [oi];
    assert d[..|d|-1] == readings;
  }

  lemma {:induction false} DestutteredEnds(readings: seq<real>)
    requires readings != []
    ensures Destuttered(readings) != []
    ensures Destuttered(readings)[|Destuttered(readings)|-1] == readings[|readings|-1]
  {
    if |readings| > 1 { DestutteredEnds(readings[..|readings|-1]); }
  }

  /** Its window is the last `window` non-zero changes of the stream. */
  lemma {:induction false} WindowIsNonZeroChanges(params: OiParams, root: real -> real, readings: seq<real>)
    requires params.skipUnchanged
    ensures OiRun(params, root, readings).deltas == Changes(Destuttered(readings))
    ensures AllNonZero(Changes(Destuttered(readings)))
  {
    hide ZScore, LastN;
    if |readings| == 1 {
      assert readings[..0] == [];
    } else if readings != [] {
      var init, oi := readings[..|readings|-1], readings[|readings|-1];
      WindowIsNonZeroChanges(params, root, init);
      RepeatsAreInvisible(params, root, init);
      DestutteredEnds(init);
      ChangesAppend(Destuttered(init), oi);
      hide Changes;
      var delta := Change(init[|init|-1], oi);
      assert oi != init[|init|-1] ==> delta != 0.0;
      if oi == init[|init|-1] {
        assert Destuttered(readings) == Destuttered(init);
      } else {
        assert Destuttered(readings) == Destuttered(init) + [oi];
        assert AllNonZero(Changes(Destuttered(init)) + [delta]);
      }
    }
  }

  /** Every score stays within the clamp, whatever the platform's root does. */
  lemma {:induction false} ScoreIsClamped(params: OiParams, root: real -> real, readings: seq<real>)
    requires params.zClamp >= 0.0
    ensures -params.zClamp <= OiRun(params, root, readings).lastZ <= params.zClamp
  {
    hide ZScore;
    if readings != [] { ScoreIsClamped(params, root, readings[..|readings|-1]); }
  }

  /** The score is that of the last non-zero change against those before it. */
  lemma {:induction false} ScoreIsOfTheLastChange(params: OiParams, root: real -> real, readings: seq<real>)
    requires params.skipUnchanged && params.zClamp >= 0.0
    ensures var changes, z := Changes(Destuttered(readings)), OiRun(params, root, readings).lastZ;
            if changes == [] then z == 0.0
            else ClampedScore(root, LastN(changes[..|changes| - 1], params.window), changes[|changes| - 1], params.zClamp, z)
  {
    hide OiStep, LastN, ClampedScore, Changes;
    if |readings| == 1 {
      FirstReading(params, root, readings);
    } else if readings != [] {
      var init, oi := readings[..|readings|-1], readings[|readings|-1];
      ScoreIsOfTheLastChange(params, root, init);
      WindowIsNonZeroChanges(params, root, init);
      RepeatsAreInvisible(params, root, init);
      NextReading(params, root, OiRun(params, root, init), init, oi);
    } else {
      NoChanges();
    }
  }

  lemma NoChanges()
    ensures Changes([]) == []
  {
  }

  lemma FirstReading(params: OiParams, root: real -> real, readings: seq<real>)
    requires |readings| == 1
    ensures OiRun(params, root, readings).lastZ == 0.0 && Changes(Destuttered(readings)) == []
  {
    assert readings[..0] == [];
  }

  /** A repetition keeps the score; another reading is scored by its change. */
  lemma NextReading(params: OiParams, root: real -> real, s: OiState, init: seq<real>, oi: real)
    requires params.skipUnchanged && params.zClamp >= 0.0 && init != []
    requires s.prev == Some(init[|init|-1]) && s.deltas == Changes(Destuttered(init))
    ensures var t, changes := OiStep(params, root, s, oi), Changes(Destuttered(init + [oi]));
            if oi == init[|init|-1] then t.lastZ == s.lastZ && Destuttered(init + [oi]) == Destuttered(init)
            else changes != [] && ClampedScore(root, LastN(changes[..|changes| - 1], params.window), changes[|changes| - 1], params.zClamp, t.lastZ)
  {
    hide Destuttered, Changes, LastN, ClampedScore, ZScore;
    DestutterStep(init, oi);
    if oi != init[|init|-1] {
      var d, delta := Destuttered(init), Change(init[|init|-1], oi);
      ChangesAppend(d, oi);
      assert (Changes(d) + [delta])[..|Changes(d)|] == Changes(d);
      ClampedScoreIs(root, LastN(Changes(d), params.window), delta, params.zClamp);
      hide *;
      assert OiStep(params, root, s, oi).lastZ == Clamp(-params.zClamp, params.zClamp,
        if |LastN(s.deltas, params.window)| >= 2 then ZScore(root, LastN(s.deltas, params.window), delta) else 0.0)
        by { StepScore(params, root, s, oi); }
    }
  }

  lemma DestutterStep(init: seq<real>, oi: real)
    requires init != []
    ensures Destuttered(init) != [] && Destuttered(init)[|Destuttered(init)|-1] == init[|init|-1]
    ensures Destuttered(init + [oi]) == if oi == init[|init|-1] then Destuttered(init) else Destuttered(init) + [oi]
  {
    assert (init + [oi])[..|init|] == init;
    DestutteredEnds(init);
  }

  lemma StepScore(params: OiParams, root: real -> real, s: OiState, oi: real)
    requires s.prev.Some? && oi != s.prev.value
    ensures var recent, delta := LastN(s.deltas, params.window), Change(s.prev.value, oi);
            OiStep(params, root, s, oi).lastZ ==
              Clamp(-params.zClamp, params.zClamp, if |recent| >= 2 then ZScore(root, recent, delta) else 0.0)
  {
    hide ZScore, LastN;
  }

  // ------------------------------------------------------------- the object

  class OIZScoreTracker {
    const params: OiParams
    const root: real -> real
    const stats: RollingStats
    var prevOi: Option<real>
    var lastDelta: real
    var lastZ: real
    ghost var readings: seq<real>

    ghost function State(): OiState
      reads this, stats
    {
      OiState(prevOi, stats.history, lastDelta, lastZ)
    }

    ghost predicate Valid()
      reads this, stats
    {
      && stats.Valid() && stats.window == params.window
      && State() == OiRun(params, root, readings)
    }

    constructor (window: nat, skipUnchanged: bool, zClamp: real, root: real -> real)
      requires window >= 1
      ensures Valid() && fresh(stats) && readings == [] && State() == OI_START
      ensures params == OiParams(window, skipUnchanged, RAbs(zClamp)) && this.root == root
    {
      params, this.root := OiParams(window, skipUnchanged, RAbs(zClamp)), root;
      stats := new RollingStats(window);
      prevOi, lastDelta, lastZ, readings := None, 0.0, 0.0, [];
    }

    method Update(openInterest: real) returns (z: real)
      requires Valid()
      modifies this, stats
      ensures Valid() && readings == old(readings) + [openInterest] && z == lastZ
      ensures State() == OiStep(params, root, old(State()), openInterest)
    {
      hide ZScore, RollingStats.Valid;
      ghost var before := State();
      readings := readings + [openInterest];
      assert readings[..|readings|-1] == old(readings);
      assert OiRun(params, root, readings) == OiStep(params, root, before, openInterest);
      if prevOi.None? {
        prevOi, lastDelta, lastZ := Some(openInterest), 0.0, 0.0;
        return 0.0;
      }
      var delta := openInterest - prevOi.value;
      prevOi := Some(openInterest);
      if delta == 0.0 && params.skipUnchanged { return lastZ; }
      z := Record(delta);
    }

    /** Score the change against the window before adding it. */
    method Record(delta: real) returns (z: real)
      requires stats.Valid() && stats.window == params.window
      modifies this`lastDelta, this`lastZ, stats
      ensures stats.Valid() && stats.history == old(stats.history) + [delta] && lastDelta == delta && z == lastZ
      ensures var recent := LastN(old(stats.history), params.window);
              z == Clamp(-params.zClamp, params.zClamp, if |recent| >= 2 then ZScore(root, recent, delta) else 0.0)
    {
      hide ZScore, RollingStats.Valid, RollingStats.Score;
      stats.HoldsLastValues();
      lastDelta := delta;
      var raw := if |stats.values| >= 2 then stats.Score(root, delta) else 0.0;
      stats.Update(delta);
      z := Clamp(-params.zClamp, params.zClamp, raw);
      lastZ := z;
    }
  }
}
