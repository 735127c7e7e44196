/** The timer-driven scan the node runs while the target marker is not in
    view: turn one way for a window of time, then flip direction. The first
    window is short; once the direction has flipped, every later window is
    long. The current time is a parameter. */
module Search {
  import opened EngineState

  /** The window a non-restarting call compares the elapsed time against. */
  function Window(startSearch: bool): real
  {
    if startSearch then ShortWindow else LongWindow
  }

  /** The search globals of every reachable state: the period is one of the
      two windows, and the direction has not flipped while the first window is
      still in use. */
  predicate Valid(s: SearchState)
  {
    && (s.searchPeriod == ShortWindow || s.searchPeriod == LongWindow)
    && (s.startSearch ==> !s.directionLookLeft)
  }

  /** What turnLeft writes into the publisher. */
  const TurningLeft: Publisher := Publisher(Zero, Vec3(0.0, 0.0, TurnSpeed))

  /** What turnRight writes into the publisher. */
  const TurningRight: Publisher := Publisher(Zero, Vec3(0.0, 0.0, -TurnSpeed))

  datatype StepResult = StepResult(state: SearchState, publisher: Publisher, flipped: bool)

  /** One searchForAruco call at time `now`. A restarting call sets the clock
      and leaves the period as it was; any other call first selects the window
      from `startSearch`. Then the window either has elapsed (flip, nothing
      written) or has not (turn the current way). */
  function Step(s: SearchState, p: Publisher, now: real): (r: StepResult)
    ensures r.flipped <==>
              (if s.newTime then s.searchPeriod < 0.0 else now - s.timeBegin > Window(s.startSearch))
    ensures r.state.directionLookLeft == (s.directionLookLeft != r.flipped)
    ensures r.state.newTime == r.flipped
    ensures r.state.startSearch == (s.startSearch && !r.flipped)
    ensures r.state.timeBegin == (if s.newTime then now else s.timeBegin)
    ensures r.state.searchPeriod == (if s.newTime then s.searchPeriod else Window(s.startSearch))
    ensures r.flipped ==> r.publisher == p
    ensures !r.flipped ==>
              r.publisher.linearVec == Zero &&
              r.publisher.angularVec == Vec3(0.0, 0.0, if s.directionLookLeft then TurnSpeed else -TurnSpeed)
  {
    var timeBegin := if s.newTime then now else s.timeBegin;
    var period :=
      if s.newTime then s.searchPeriod
      else if s.startSearch then ShortWindow
      else LongWindow;
    var s' := s.(timeBegin := timeBegin, searchPeriod := period, newTime := false);
    if now - timeBegin > period then
      StepResult(s'.(newTime := true, startSearch := false, directionLookLeft := !s.directionLookLeft), p, true)
    else
      StepResult(s', if s.directionLookLeft then TurningLeft else TurningRight, false)
  }

  /** searchForAruco on the whole engine: only the search globals and the
      publisher change. */
  function SearchForAruco(e: Engine, now: real): (r: Engine)
    ensures r.pid == e.pid && r.node == e.node
    ensures r.search == Step(e.search, e.publisher, now).state
    ensures r.publisher == Step(e.search, e.publisher, now).publisher
  {
    var step := Step(e.search, e.publisher, now);
    e.(search := step.state, publisher := step.publisher)
  }

  /** The module starts in a valid search state. */
  lemma InitialValid(loadTime: real)
    ensures Valid(InitialSearch(loadTime))
    ensures InitialSearch(loadTime).newTime && InitialSearch(loadTime).startSearch
  {
  }

  /** Every call keeps the search state valid, and the short window, once
      left, is never used again. */
  lemma StepPreservesValid(s: SearchState, p: Publisher, now: real)
    requires Valid(s)
    ensures Valid(Step(s, p, now).state)
    ensures !s.startSearch ==> !Step(s, p, now).state.startSearch
  {
  }

  /** A call that restarts the clock never flips and leaves the turn going. */
  lemma RestartNeverFlips(s: SearchState, p: Publisher, now: real)
    requires Valid(s) && s.newTime
    ensures !Step(s, p, now).flipped
    ensures Step(s, p, now).state.timeBegin == now
    ensures Step(s, p, now).publisher == (if s.directionLookLeft then TurningLeft else TurningRight)
  {
  }

  /** After the clock restarts at `t0`, a later call at `t1` flips exactly
      when more than the window (3 s before the first flip, 6 s after) has
      passed since `t0`. */
  lemma WindowAfterRestart(s: SearchState, p: Publisher, t0: real, t1: real)
    requires Valid(s) && s.newTime
    ensures var first := Step(s, p, t0);
            Step(first.state, first.publisher, t1).flipped <==> t1 - t0 > Window(s.startSearch)
  {
  }

  /** A flip always sets up a restart, so two consecutive calls never both flip. */
  lemma NoTwoFlipsInARow(s: SearchState, p: Publisher, t1: real, t2: real)
    requires Valid(s)
    ensures var first := Step(s, p, t1);
            first.flipped ==> !Step(first.state, first.publisher, t2).flipped
  {
  }

  datatype RunResult = RunResult(state: SearchState, publisher: Publisher, flips: nat)

  /** Consecutive searchForAruco calls at the given times. */
  function Run(s: SearchState, p: Publisher, times: seq<real>): (r: RunResult)
    ensures r.flips <= |times|
    ensures |times| == 0 ==> r == RunResult(s, p, 0)
    decreases |times|
  {
    if |times| == 0 then RunResult(s, p, 0)
    else
      var first := Step(s, p, times[0]);
      var rest := Run(first.state, first.publisher, times[1..]);
      RunResult(rest.state, rest.publisher, rest.flips + if first.flipped then 1 else 0)
  }

  /** A run keeps the search state valid. */
  lemma {:induction false} RunPreservesValid(s: SearchState, p: Publisher, times: seq<real>)
    requires Valid(s)
    ensures Valid(Run(s, p, times).state)
    decreases |times|
  {
    if |times| > 0 {
      var first := Step(s, p, times[0]);
      StepPreservesValid(s, p, times[0]);
      RunPreservesValid(first.state, first.publisher, times[1..]);
    }
  }

  /** The direction after a run is the initial one flipped once per flip. */
  lemma {:induction false} RunDirection(s: SearchState, p: Publisher, times: seq<real>)
    ensures Run(s, p, times).state.directionLookLeft == (s.directionLookLeft != (Run(s, p, times).flips % 2 == 1))
    decreases |times|
  {
    if |times| > 0 {
      var first := Step(s, p, times[0]);
      RunDirection(first.state, first.publisher, times[1..]);
    }
  }

  /** Flips are separated by at least one restarting call, so a run of n
      calls flips at most (n + 1) / 2 times, and at most n / 2 times when it
      starts with a restart. The elapsed time between calls plays no part:
      a long pause still yields one flip. */
  lemma {:induction false} RunFlipBound(s: SearchState, p: Publisher, times: seq<real>)
    requires Valid(s)
    ensures 2 * Run(s, p, times).flips <= |times| + (if s.newTime then 0 else 1)
    decreases |times|
  {
    if |times| > 0 {
      var first := Step(s, p, times[0]);
      StepPreservesValid(s, p, times[0]);
      RunFlipBound(first.state, first.publisher, times[1..]);
      if first.flipped {
        assert !s.newTime;
      }
    }
  }

  /** Three searching calls spread over seven seconds, starting from a fresh
      module, flip exactly once wherever the middle call falls: the first call
      restarts the clock; if the middle call is past the 3 s window it flips
      and the last call only restarts, otherwise the last call, 7 s after the
      restart, flips. */
  lemma SevenSecondsOneFlip(loadTime: real, p: Publisher, t: real, t2: real)
    ensures var r := Run(InitialSearch(loadTime), p, [t, t2, t + 7.0]);
            r.flips == 1 && r.state.directionLookLeft && !r.state.startSearch
    ensures var a := Step(InitialSearch(loadTime), p, t);
            var b := Step(a.state, a.publisher, t2);
            && (b.flipped <==> t2 - t > ShortWindow)
            && (Step(b.state, b.publisher, t + 7.0).flipped <==> !(t2 - t > ShortWindow))
  {
    var s0 := InitialSearch(loadTime);
    var a := Step(s0, p, t);
    var b := Step(a.state, a.publisher, t2);
    var c := Step(b.state, b.publisher, t + 7.0);
    assert [t, t2, t + 7.0][1..] == [t2, t + 7.0];
    assert [t2, t + 7.0][1..] == [t + 7.0];
    assert [t + 7.0][1..] == [];
    assert !a.flipped;
    assert b.flipped != c.flipped;
    assert Run(c.state, c.publisher, []) == RunResult(c.state, c.publisher, 0);
    assert Run(b.state, b.publisher, [t + 7.0]).flips == (if c.flipped then 1 else 0);
    assert Run(a.state, a.publisher, [t2, t + 7.0]).flips == 1;
    assert Run(a.state, a.publisher, [t2, t + 7.0]).state == c.state;
  }
}
