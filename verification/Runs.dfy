/** Runs of the ECU: every state and response of a sequence of requests over time. */
module Runs {
  import opened Common
  import opened Ecu

  /** A request at one moment, with the random bytes it would draw. */
  function At(conn: nat, request: Request, now: Time, random: Bytes): Input {
    Input(conn, request, Instant(now), random, 0.0, {}, "")
  }

  datatype Run = Run(start: Time, inputs: seq<Input>, states: seq<EcuState>, responses: seq<Response>)

  /** Clock readings never go backwards, within a request and between requests. */
  ghost predicate Monotone(start: Time, inputs: seq<Input>) {
    && (forall i | 0 <= i < |inputs| :: inputs[i].clock.Ordered() && start <= inputs[i].clock.t0)
    && (forall i, j | 0 <= i < j < |inputs| :: inputs[i].clock.t3 <= inputs[j].clock.t0)
  }

  /** The latest clock reading before step `n`. */
  function Before(r: Run, n: nat): Time
    requires n <= |r.inputs|
  {
    if n == 0 then r.start else r.inputs[n - 1].clock.t3
  }

  predicate Shaped(r: Run) {
    |r.states| == |r.inputs| + 1 && |r.responses| == |r.inputs|
  }

  /** The outcome of step `n`. */
  function Out(r: Run, n: int): StepResult
    requires Shaped(r) && 0 <= n < |r.inputs|
  {
    StepResult(r.states[n + 1], r.responses[n])
  }

  /** Step `n` of the run is the ECU's reaction to its `n`-th input. */
  ghost predicate IsStep(e: Env, r: Run, n: int)
    requires Shaped(r) && 0 <= n < |r.inputs|
  {
    Step(e, r.states[n], r.inputs[n]) == Out(r, n)
  }

  /** Every step follows from the one before, whatever the clock says. */
  ghost predicate IsBehaviour(e: Env, r: Run) {
    && Shaped(r)
    && r.states[0] == Initial(e, r.start)
    && forall n | 0 <= n < |r.inputs| :: IsStep(e, r, n)
  }

  ghost predicate IsRun(e: Env, r: Run) {
    IsBehaviour(e, r) && Monotone(r.start, r.inputs)
  }

  /** The run of a sequence of inputs. */
  function Execute(e: Env, start: Time, inputs: seq<Input>): (r: Run)
    ensures r.start == start && r.inputs == inputs
    ensures |r.states| == |inputs| + 1 && |r.responses| == |inputs|
  {
    if inputs == [] then
      Run(start, [], [Initial(e, start)], [])
    else
      var n := |inputs| - 1;
      var before := Execute(e, start, inputs[..n]);
      var last := Step(e, before.states[n], inputs[n]);
      Run(start, inputs, before.states + [last.state], before.responses + [last.response])
  }

  /** Every sequence of inputs has a behaviour: the one `Execute` computes. */
  lemma {:induction false} ExecuteIsBehaviour(e: Env, start: Time, inputs: seq<Input>)
    ensures IsBehaviour(e, Execute(e, start, inputs))
  {
    if inputs != [] {
      var n := |inputs| - 1;
      ExecuteIsBehaviour(e, start, inputs[..n]);
      var r, before := Execute(e, start, inputs), Execute(e, start, inputs[..n]);
      forall k | 0 <= k < |inputs|
        ensures IsStep(e, r, k)
      {
        if k < n {
          assert IsStep(e, before, k);
        }
      }
    }
  }
}
