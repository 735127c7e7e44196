/** One iteration of the docking loop after the frame has been captured and
    its markers detected: an empty detection list means one search call;
    otherwise each entry is visited in order, a matching id runs
    controlDocking, and a non-matching id runs a search call only while no
    match has been seen in this frame. */
module Dispatch {
  import opened EngineState
  import Search
  import Control

  /** Which of the two behaviours a visit invoked. */
  datatype Call = ControlCall | SearchCall

  datatype FrameResult = FrameResult(engine: Engine, calls: seq<Call>)

  /** The visits from entry `i` on, `seen` recording whether an earlier entry
      matched. Every control call is handed the whole frame. */
  function Scan(e: Engine, dets: seq<Detection>, i: nat, seen: bool, now: real): (r: FrameResult)
    requires i <= |dets|
    ensures r.engine.node == e.node
    ensures |r.calls| <= |dets| - i
    decreases |dets| - i
  {
    if i == |dets| then FrameResult(e, [])
    else if dets[i].id == e.node.arucoMarkerID then
      var rest := Scan(Control.ControlDocking(e, dets).engine, dets, i + 1, true, now);
      FrameResult(rest.engine, [ControlCall] + rest.calls)
    else if !seen then
      var rest := Scan(Search.SearchForAruco(e, now), dets, i + 1, seen, now);
      FrameResult(rest.engine, [SearchCall] + rest.calls)
    else
      Scan(e, dets, i + 1, seen, now)
  }

  /** The dispatch of one frame captured at time `now`. */
  function Frame(e: Engine, dets: seq<Detection>, now: real): (r: FrameResult)
    ensures r.engine.node == e.node
    ensures 1 <= |r.calls| <= |dets| || (|dets| == 0 && r.calls == [SearchCall])
  {
    if |dets| == 0 then FrameResult(Search.SearchForAruco(e, now), [SearchCall])
    else Scan(e, dets, 0, false, now)
  }

  /** `n` copies of one call. */
  function Repeat(c: Call, n: nat): (r: seq<Call>)
    ensures |r| == n
    ensures forall k :: 0 <= k < n ==> r[k] == c
  {
    seq(n, _ => c)
  }

  /** The index of the first entry at or after `i` whose id is `target`, or
      the length of the frame when there is none. */
  function FirstMatchFrom(dets: seq<Detection>, target: int, i: nat): (k: nat)
    requires i <= |dets|
    ensures i <= k <= |dets|
    ensures k < |dets| ==> dets[k].id == target
    ensures forall j :: i <= j < k ==> dets[j].id != target
    decreases |dets| - i
  {
    if i == |dets| then |dets|
    else if dets[i].id == target then i
    else FirstMatchFrom(dets, target, i + 1)
  }

  /** The number of entries at or after `i` whose id is `target`. */
  function MatchesFrom(dets: seq<Detection>, target: int, i: nat): nat
    requires i <= |dets|
    decreases |dets| - i
  {
    if i == |dets| then 0
    else (if dets[i].id == target then 1 else 0) + MatchesFrom(dets, target, i + 1)
  }

  lemma RepeatCons(c: Call, n: nat)
    ensures [c] + Repeat(c, n) == Repeat(c, n + 1)
  {
  }

  /** The calls of a scan are a block of search calls, one per non-matching
      entry before the first match (none once a match has been seen), followed
      by one control call per matching entry. */
  lemma {:induction false} ScanCalls(e: Engine, dets: seq<Detection>, i: nat, seen: bool, now: real)
    requires i <= |dets|
    ensures var target := e.node.arucoMarkerID;
            Scan(e, dets, i, seen, now).calls ==
              Repeat(SearchCall, if seen then 0 else FirstMatchFrom(dets, target, i) - i)
              + Repeat(ControlCall, MatchesFrom(dets, target, i))
    decreases |dets| - i
  {
    var target := e.node.arucoMarkerID;
    if i < |dets| {
      if dets[i].id == target {
        var e1 := Control.ControlDocking(e, dets).engine;
        ScanCalls(e1, dets, i + 1, true, now);
        RepeatCons(ControlCall, MatchesFrom(dets, target, i + 1));
        assert Repeat(SearchCall, 0) == [];
      } else if !seen {
        var e1 := Search.SearchForAruco(e, now);
        ScanCalls(e1, dets, i + 1, seen, now);
        RepeatCons(SearchCall, FirstMatchFrom(dets, target, i + 1) - (i + 1));
      } else {
        ScanCalls(e, dets, i + 1, seen, now);
      }
    }
  }

  /** The calls of one frame: exactly one search call when nothing was
      detected; otherwise one search call per entry preceding the first match,
      then one control call per match, and no search call after a match. */
  lemma FrameCalls(e: Engine, dets: seq<Detection>, now: real)
    ensures var target := e.node.arucoMarkerID;
            Frame(e, dets, now).calls ==
              if |dets| == 0 then [SearchCall]
              else Repeat(SearchCall, FirstMatchFrom(dets, target, 0))
                   + Repeat(ControlCall, MatchesFrom(dets, target, 0))
  {
    if |dets| > 0 {
      ScanCalls(e, dets, 0, false, now);
    }
  }

  /** A scan over entries none of which matches leaves the PID memory alone. */
  lemma {:induction false} ScanWithoutMatchKeepsPid(e: Engine, dets: seq<Detection>, i: nat, seen: bool, now: real)
    requires i <= |dets|
    requires MatchesFrom(dets, e.node.arucoMarkerID, i) == 0
    ensures Scan(e, dets, i, seen, now).engine.pid == e.pid
    decreases |dets| - i
  {
    if i < |dets| {
      if !seen {
        ScanWithoutMatchKeepsPid(Search.SearchForAruco(e, now), dets, i + 1, seen, now);
      } else {
        ScanWithoutMatchKeepsPid(e, dets, i + 1, seen, now);
      }
    }
  }

  /** A frame without the target marker leaves the PID memory alone. */
  lemma FrameWithoutMatchKeepsPid(e: Engine, dets: seq<Detection>, now: real)
    requires MatchesFrom(dets, e.node.arucoMarkerID, 0) == 0
    ensures Frame(e, dets, now).engine.pid == e.pid
  {
    if |dets| > 0 {
      ScanWithoutMatchKeepsPid(e, dets, 0, false, now);
    }
  }

  /** Two frames with the same ids in the same order and the same first entry. */
  predicate SameIdsSameFirst(dets: seq<Detection>, dets': seq<Detection>)
  {
    && |dets| == |dets'|
    && (forall k :: 0 <= k < |dets| ==> dets[k].id == dets'[k].id)
    && (|dets| > 0 ==> dets[0] == dets'[0])
  }

  lemma {:induction false} ScanFirstPoseOnly(e: Engine, dets: seq<Detection>, dets': seq<Detection>, i: nat, seen: bool, now: real)
    requires i <= |dets| && SameIdsSameFirst(dets, dets')
    ensures Scan(e, dets, i, seen, now) == Scan(e, dets', i, seen, now)
    decreases |dets| - i
  {
    if i < |dets| {
      if dets[i].id == e.node.arucoMarkerID {
        assert Control.ControlDocking(e, dets) == Control.ControlDocking(e, dets');
        ScanFirstPoseOnly(Control.ControlDocking(e, dets).engine, dets, dets', i + 1, true, now);
      } else if !seen {
        ScanFirstPoseOnly(Search.SearchForAruco(e, now), dets, dets', i + 1, seen, now);
      } else {
        ScanFirstPoseOnly(e, dets, dets', i + 1, seen, now);
      }
    }
  }

  /** Only the first entry's pose reaches the controller: the poses of every
      other entry, the matching one included, have no effect on the frame. */
  lemma FrameFirstPoseOnly(e: Engine, dets: seq<Detection>, dets': seq<Detection>, now: real)
    requires SameIdsSameFirst(dets, dets')
    ensures Frame(e, dets, now) == Frame(e, dets', now)
  {
    if |dets| > 0 {
      ScanFirstPoseOnly(e, dets, dets', 0, false, now);
    }
  }

  /** A non-target marker ahead of the target: one search call, then one
      control call that steers on the non-target marker's pose. */
  lemma StrayMarkerFirst(e: Engine, stray: Detection, target: Detection, now: real)
    requires stray.id != e.node.arucoMarkerID && target.id == e.node.arucoMarkerID
    ensures var r := Frame(e, [stray, target], now);
            && r.calls == [SearchCall, ControlCall]
            && r.engine == Control.ControlDocking(Search.SearchForAruco(e, now), [stray, target]).engine
  {
    var dets := [stray, target];
    var e1 := Search.SearchForAruco(e, now);
    var e2 := Control.ControlDocking(e1, dets).engine;
    assert Scan(e2, dets, 2, true, now) == FrameResult(e2, []);
    assert Scan(e1, dets, 1, false, now) == FrameResult(e2, [ControlCall]);
  }

  /** Every frame keeps the search globals valid. */
  lemma {:induction false} ScanPreservesValid(e: Engine, dets: seq<Detection>, i: nat, seen: bool, now: real)
    requires i <= |dets| && Search.Valid(e.search)
    ensures Search.Valid(Scan(e, dets, i, seen, now).engine.search)
    decreases |dets| - i
  {
    if i < |dets| {
      if dets[i].id == e.node.arucoMarkerID {
        ScanPreservesValid(Control.ControlDocking(e, dets).engine, dets, i + 1, true, now);
      } else if !seen {
        Search.StepPreservesValid(e.search, e.publisher, now);
        ScanPreservesValid(Search.SearchForAruco(e, now), dets, i + 1, seen, now);
      } else {
        ScanPreservesValid(e, dets, i + 1, seen, now);
      }
    }
  }

  lemma FramePreservesValid(e: Engine, dets: seq<Detection>, now: real)
    requires Search.Valid(e.search)
    ensures Search.Valid(Frame(e, dets, now).engine.search)
  {
    if |dets| == 0 {
      Search.StepPreservesValid(e.search, e.publisher, now);
    } else {
      ScanPreservesValid(e, dets, 0, false, now);
    }
  }

  /** A scan keeps the linear command at zero: a search call writes zero and
      a control call leaves it as it was. */
  lemma {:induction false} ScanKeepsLinearZero(e: Engine, dets: seq<Detection>, i: nat, seen: bool, now: real)
    requires i <= |dets| && e.publisher.linearVec == Zero
    ensures Scan(e, dets, i, seen, now).engine.publisher.linearVec == Zero
    decreases |dets| - i
  {
    if i < |dets| {
      if dets[i].id == e.node.arucoMarkerID {
        ScanKeepsLinearZero(Control.ControlDocking(e, dets).engine, dets, i + 1, true, now);
      } else if !seen {
        ScanKeepsLinearZero(Search.SearchForAruco(e, now), dets, i + 1, seen, now);
      } else {
        ScanKeepsLinearZero(e, dets, i + 1, seen, now);
      }
    }
  }

  /** Once zero, the linear command stays zero through any frame. */
  lemma FrameKeepsLinearZero(e: Engine, dets: seq<Detection>, now: real)
    requires e.publisher.linearVec == Zero
    ensures Frame(e, dets, now).engine.publisher.linearVec == Zero
  {
    if |dets| > 0 {
      ScanKeepsLinearZero(e, dets, 0, false, now);
    }
  }
}
