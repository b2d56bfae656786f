/** Connections other than the owner cannot influence an elevated session. */
module Isolation {
  import opened Common
  import opened Ecu

  /** The two simulation hooks act for any connection. */
  predicate IsInjection(r: Request) {
    r.InjectTamper? || r.InjectReplayNonce?
  }

  /** The owner `o` has an elevated session that has not timed out. */
  predicate HeldBy(e: Env, s: EcuState, o: nat, now: Time) {
    Observed(e, s, now).session.Elevated() && s.owner == Some(o)
  }

  /** A request of another connection while `o` holds the session. */
  predicate Shut(e: Env, s: EcuState, i: Input, o: nat) {
    i.conn != o && !IsInjection(i.request) && HeldBy(e, s, o, i.clock.t0)
  }

  /** The requests that only the owner of an elevated session may make. */
  predicate IsGuarded(r: Request) {
    || r.SessionControl? || r.RequestSeed? || r.SendKey? || r.CommunicateCertificate? || r.VerifyProof?
    || r.Deauthenticate?
  }

  /** A foreign request changes nothing at all, and if it is one that could, it is refused. */
  lemma ForeignRequestIsInert(e: Env, s: EcuState, i: Input, o: nat)
    requires Shut(e, s, i, o)
    ensures Step(e, s, i).state == s
    ensures Decoded(i.request).Some? && IsGuarded(Decoded(i.request).value) ==> Step(e, s, i).response == Negative(0x22)
  {
  }

  /** The state after a sequence of requests. */
  function After(e: Env, s: EcuState, inputs: seq<Input>): EcuState
    decreases inputs
  {
    if inputs == [] then s else After(e, Step(e, s, inputs[0]).state, inputs[1..])
  }

  /** Every kept request with its response, in order: those of `o` and the injections. */
  function Transcript(e: Env, s: EcuState, inputs: seq<Input>, o: nat): seq<(Input, Response)>
    decreases inputs
  {
    if inputs == [] then [] else
      var out := Step(e, s, inputs[0]);
      var rest := Transcript(e, out.state, inputs[1..], o);
      if Kept(inputs[0], o) then [(inputs[0], out.response)] + rest else rest
  }

  predicate Kept(i: Input, o: nat) {
    i.conn == o || IsInjection(i.request)
  }

  /** The sequence without the requests of other connections. */
  function Without(inputs: seq<Input>, o: nat): seq<Input> {
    if inputs == [] then []
    else if Kept(inputs[0], o) then [inputs[0]] + Without(inputs[1..], o)
    else Without(inputs[1..], o)
  }

  /** Other connections act only while `o` holds an unexpired elevated session. */
  ghost predicate OthersShut(e: Env, s: EcuState, inputs: seq<Input>, o: nat)
    decreases inputs
  {
    inputs == [] ||
    ((Kept(inputs[0], o) || Shut(e, s, inputs[0], o)) && OthersShut(e, Step(e, s, inputs[0]).state, inputs[1..], o))
  }

  /**
   * Deleting every request of other connections made while `o` holds its
   * session leaves the final state (timer, limiters and log included) and every
   * response to `o` and to the injections as they were.
   */
  lemma {:induction false} OthersAreInvisible(e: Env, s: EcuState, inputs: seq<Input>, o: nat)
    requires OthersShut(e, s, inputs, o)
    ensures After(e, s, inputs) == After(e, s, Without(inputs, o))
    ensures Transcript(e, s, inputs, o) == Transcript(e, s, Without(inputs, o), o)
    decreases inputs
  {
    if inputs != [] {
      var i := inputs[0];
      var s' := Step(e, s, i).state;
      OthersAreInvisible(e, s', inputs[1..], o);
      if Kept(i, o) {
        assert Without(inputs, o)[1..] == Without(inputs[1..], o);
      } else {
        ForeignRequestIsInert(e, s, i, o);
      }
    }
  }
}
