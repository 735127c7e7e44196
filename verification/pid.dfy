/** The PID step of the docking node. There is a single integral and a single
    last error for the whole module: every axis and every goal feeds the same
    memory, so a run of calls is best understood as one sequence of samples. */
module Pid {
  import opened EngineState

  datatype Gains = Gains(kp: real, ki: real, kd: real)

  const AngleGains: Gains := Gains(0.001, 0.1, 0.1)
  const DistanceXGains: Gains := Gains(0.3, 0.1, 0.1)
  const DistanceZGains: Gains := Gains(0.3, 0.1, 0.1)

  datatype StepResult = StepResult(output: real, state: PidState)

  /** One PID call: accumulate the error, difference it against the previous
      error, and remember it. */
  function Step(s: PidState, error: real, g: Gains): (r: StepResult)
    ensures r.state.integral == s.integral + error
    ensures r.state.derivative == error - s.lastError
    ensures r.state.lastError == error
    ensures r.output == g.kp * error + g.ki * r.state.integral + g.kd * r.state.derivative
  {
    var integral := s.integral + error;
    var derivative := error - s.lastError;
    StepResult(g.kp * error + g.ki * integral + g.kd * derivative,
               PidState(integral, derivative, error))
  }

  /** One call's argument: the error and the gains it is weighted with. */
  datatype Sample = Sample(error: real, gains: Gains)

  datatype RunResult = RunResult(outputs: seq<real>, state: PidState)

  /** Consecutive PID calls on the shared memory, in call order. */
  function Run(s: PidState, xs: seq<Sample>): (r: RunResult)
    ensures |r.outputs| == |xs|
    decreases |xs|
  {
    if |xs| == 0 then RunResult([], s)
    else
      var first := Step(s, xs[0].error, xs[0].gains);
      var rest := Run(first.state, xs[1..]);
      RunResult([first.output] + rest.outputs, rest.state)
  }

  /** The sum of the errors of a run of samples. */
  function ErrorSum(xs: seq<Sample>): real
    decreases |xs|
  {
    if |xs| == 0 then 0.0 else xs[0].error + ErrorSum(xs[1..])
  }

  /** The error the n-th call differences against: the memory's last error
      for the first call, the preceding sample's error otherwise. */
  function PreviousError(s: PidState, xs: seq<Sample>, n: nat): real
    requires n < |xs|
  {
    if n == 0 then s.lastError else xs[n - 1].error
  }

  /** The n-th output of a run written without iteration: proportional term,
      integral of every error so far, difference against the previous error. */
  function ClosedForm(s: PidState, xs: seq<Sample>, n: nat): real
    requires n < |xs|
  {
    var g := xs[n].gains;
    var e := xs[n].error;
    g.kp * e + g.ki * (s.integral + ErrorSum(xs[..n + 1])) + g.kd * (e - PreviousError(s, xs, n))
  }

  /** A first call on untouched memory weighs the error by the sum of the gains. */
  lemma FirstStepFromRest(error: real, g: Gains)
    ensures Step(PidAtRest, error, g).output == (g.kp + g.ki + g.kd) * error
    ensures Step(PidAtRest, error, g).state == PidState(error, error, error)
  {
  }

  /** Splitting off the first sample of a prefix. */
  lemma ErrorSumPrefix(xs: seq<Sample>, n: nat)
    requires n < |xs|
    ensures ErrorSum(xs[..n + 1]) == xs[0].error + ErrorSum(xs[1..][..n])
  {
    assert xs[..n + 1][1..] == xs[1..][..n];
  }

  /** After a run, the memory holds the initial integral plus every error, the
      last error is the last sample's, and the derivative is that sample's
      difference. */
  lemma {:induction false} RunState(s: PidState, xs: seq<Sample>)
    ensures Run(s, xs).state.integral == s.integral + ErrorSum(xs)
    ensures Run(s, xs).state.lastError == (if |xs| == 0 then s.lastError else xs[|xs| - 1].error)
    ensures Run(s, xs).state.derivative ==
              (if |xs| == 0 then s.derivative
               else xs[|xs| - 1].error - PreviousError(s, xs, |xs| - 1))
    decreases |xs|
  {
    if |xs| > 0 {
      var first := Step(s, xs[0].error, xs[0].gains);
      RunState(first.state, xs[1..]);
    }
  }

  /** The closed form of a run that starts one call later, from the memory
      the first call leaves, agrees with the closed form of the whole run. */
  lemma ClosedFormShift(s: PidState, xs: seq<Sample>, n: nat)
    requires 0 < n < |xs|
    ensures ClosedForm(Step(s, xs[0].error, xs[0].gains).state, xs[1..], n - 1) == ClosedForm(s, xs, n)
  {
    var s1 := Step(s, xs[0].error, xs[0].gains).state;
    var tail := xs[1..];
    assert tail[n - 1] == xs[n];
    ErrorSumPrefix(xs, n);
    assert s1.integral + ErrorSum(tail[..n]) == s.integral + ErrorSum(xs[..n + 1]);
    assert PreviousError(s1, tail, n - 1) == PreviousError(s, xs, n);
  }

  /** The n-th output of a run equals its closed form: the iterative memory
      computes exactly the accumulated integral and the one-step difference. */
  lemma {:induction false} RunOutputAt(s: PidState, xs: seq<Sample>, n: nat)
    requires n < |xs|
    ensures Run(s, xs).outputs[n] == ClosedForm(s, xs, n)
    decreases n
  {
    var first := Step(s, xs[0].error, xs[0].gains);
    var tail := xs[1..];
    if n == 0 {
      assert xs[..1] == [xs[0]];
      assert [xs[0]][1..] == [];
      assert ErrorSum(xs[..1]) == xs[0].error;
    } else {
      assert Run(s, xs).outputs[n] == Run(first.state, tail).outputs[n - 1];
      RunOutputAt(first.state, tail, n - 1);
      ClosedFormShift(s, xs, n);
    }
  }
}
