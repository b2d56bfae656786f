/** The lazily checked inactivity timer behaves like one that fires on time. */
module LazyExpiry {
  import opened Common
  import opened Session
  import opened Ecu
  import opened Runs

  /** A session with a deadline at which it ends by itself. */
  datatype EagerSession = Idle | Active(session: int, owner: nat, deadline: Time) {
    function Kind(): int {
      if Active? then session else DEFAULT
    }
  }

  function Advance(en: EagerSession, now: Time): EagerSession {
    if en.Active? && en.deadline <= now then Idle else en
  }

  function Renew(en: EagerSession, deadline: Time): EagerSession {
    if en.Active? then en.(deadline := deadline) else en
  }

  /**
   * The eager session after a request that found `en`, told from the request and
   * its response.  The session has to be alive when a handler checks it; the
   * activity counts from the reading the handler takes afterwards.
   */
  function Follow(timeout: Time, en: EagerSession, i: Input, response: Response): EagerSession {
    match response
    case SessionPositive(id) => if id == DEFAULT then Idle else Active(id, i.conn, i.clock.t2 + timeout)
    case SeedPositive(_) => Renew(Advance(en, i.clock.t1), i.clock.t3 + timeout)
    case KeyPositive(_) => Renew(Advance(en, i.clock.t1), i.clock.t2 + timeout)
    case CertPositive(_) => Renew(en, i.clock.t1 + timeout)
    case ProofPositive(_) => Renew(en, i.clock.t1 + timeout)
    case SessionInfo(_) => if en.Active? && en.owner == i.conn then Renew(en, i.clock.t1 + timeout) else en
    case _ => if i.request.InjectTamper? then Idle else en
  }

  /** The eager session as the first `n` requests leave it. */
  function EagerAt(timeout: Time, r: Run, n: nat): EagerSession
    requires Shaped(r) && n <= |r.inputs|
  {
    if n == 0 then Idle
    else
      var i := r.inputs[n - 1];
      Follow(timeout, Advance(EagerAt(timeout, r, n - 1), i.clock.t0), i, r.responses[n - 1])
  }

  /** What an observer of the lazy session at `now` sees is the eager session. */
  predicate Agree(e: Env, s: EcuState, en: EagerSession, now: Time) {
    match Advance(en, now)
    case Idle => !Observed(e, s, now).session.Elevated()
    case Active(session, owner, deadline) =>
      && Observed(e, s, now).session.session == session != DEFAULT
      && s.owner == Some(owner)
      && deadline == s.session.lastActivity + e.session.timeout
  }

  lemma AgreeLater(e: Env, s: EcuState, en: EagerSession, now: Time, later: Time)
    requires Agree(e, s, en, now) && now <= later
    ensures Agree(e, s, en, later)
  {
  }

  /** The lazy state after a request agrees with the eager session after it. */
  ghost predicate AgreeAfter(e: Env, en: EagerSession, i: Input, out: StepResult) {
    Agree(e, out.state, Follow(e.session.timeout, Advance(en, i.clock.t0), i, out.response), i.clock.t3)
  }

  lemma AgreeStep(e: Env, s: EcuState, en: EagerSession, i: Input)
    requires i.clock.Ordered() && Agree(e, s, en, i.clock.t0)
    ensures AgreeAfter(e, en, i, Step(e, s, i))
  {
    match Decoded(i.request) {
      case None =>
      case Some(r) =>
        match r {
          case SessionControl(target) => AgreeSessionControl(e, s, en, i, target);
          case RequestSeed(sf) => AgreeRequestSeed(e, s, en, i, sf);
          case SendKey(sf, key) => AgreeSendKey(e, s, en, i, sf, key);
          case CommunicateCertificate(pem) => AgreeCertificate(e, s, en, i, pem);
          case VerifyProof(proof) => AgreeProof(e, s, en, i, proof);
          case _ => AgreeOther(e, s, en, i);
        }
    }
  }

  lemma AgreeSessionControl(e: Env, s: EcuState, en: EagerSession, i: Input, target: int)
    requires i.clock.Ordered() && Agree(e, s, en, i.clock.t0) && Decoded(i.request) == Some(SessionControl(target))
    ensures AgreeAfter(e, en, i, OnSessionControl(e, s, i, target))
  {
  }

  lemma AgreeRequestSeed(e: Env, s: EcuState, en: EagerSession, i: Input, sf: int)
    requires i.clock.Ordered() && Agree(e, s, en, i.clock.t0) && Decoded(i.request) == Some(RequestSeed(sf))
    ensures AgreeAfter(e, en, i, OnRequestSeed(e, s, i, sf))
  {
  }

  lemma AgreeSendKey(e: Env, s: EcuState, en: EagerSession, i: Input, sf: int, key: Bytes)
    requires i.clock.Ordered() && Agree(e, s, en, i.clock.t0) && i.request == SendKey(sf, key)
    ensures AgreeAfter(e, en, i, OnSendKey(e, s, i, sf, key))
  {
  }

  lemma AgreeCertificate(e: Env, s: EcuState, en: EagerSession, i: Input, pem: string)
    requires i.clock.Ordered() && Agree(e, s, en, i.clock.t0) && i.request == CommunicateCertificate(pem)
    ensures AgreeAfter(e, en, i, OnCommunicateCertificate(e, s, i, pem))
  {
  }

  lemma AgreeProof(e: Env, s: EcuState, en: EagerSession, i: Input, proof: Bytes)
    requires i.clock.Ordered() && Agree(e, s, en, i.clock.t0) && i.request == VerifyProof(proof)
    ensures AgreeAfter(e, en, i, OnVerifyProof(e, s, i, proof))
  {
  }

  lemma AgreeOther(e: Env, s: EcuState, en: EagerSession, i: Input)
    requires i.clock.Ordered() && Agree(e, s, en, i.clock.t0) && Decoded(i.request) == Some(i.request)
    requires !i.request.SessionControl? && !i.request.RequestSeed? && !i.request.SendKey?
          && !i.request.CommunicateCertificate? && !i.request.VerifyProof?
    ensures AgreeAfter(e, en, i, Step(e, s, i))
  {
  }

  lemma {:induction false} AgreeAlways(e: Env, r: Run, n: nat, now: Time)
    requires IsRun(e, r) && n <= |r.inputs| && Before(r, n) <= now
    ensures Agree(e, r.states[n], EagerAt(e.session.timeout, r, n), now)
  {
    if n > 0 {
      var i := r.inputs[n - 1];
      AgreeAlways(e, r, n - 1, i.clock.t0);
      assert IsStep(e, r, n - 1);
      AgreeStep(e, r.states[n - 1], EagerAt(e.session.timeout, r, n - 1), i);
      AgreeLater(e, r.states[n], EagerAt(e.session.timeout, r, n), i.clock.t3, now);
    }
  }

  /**
   * At every moment after a request, the session that a check would see, and its
   * owner, are those of a machine whose sessions end exactly one timeout after
   * their last activity.
   */
  lemma LazyIsEager(e: Env, r: Run, n: nat, now: Time)
    requires IsRun(e, r) && n <= |r.inputs| && Before(r, n) <= now
    ensures var eager := Advance(EagerAt(e.session.timeout, r, n), now);
            && Observed(e, r.states[n], now).session.session == eager.Kind()
            && (eager.Active? ==>
                  && eager.session != DEFAULT
                  && r.states[n].owner == Some(eager.owner)
                  && eager.deadline == r.states[n].session.lastActivity + e.session.timeout)
  {
    AgreeAlways(e, r, n, now);
  }

  /** Two states that look the same when a request arrives answer it alike and look the same afterwards. */
  lemma SameLookSameAnswer(e: Env, s: EcuState, s': EcuState, i: Input)
    requires i.clock.Ordered() && Observed(e, s, i.clock.t0) == Observed(e, s', i.clock.t0)
    ensures Step(e, s, i).response == Step(e, s', i).response
    ensures Observed(e, Step(e, s, i).state, i.clock.t3) == Observed(e, Step(e, s', i).state, i.clock.t3)
  {
  }

  /** The state after checking the timer at each of `polls`. */
  function PollEach(e: Env, s: EcuState, polls: seq<Time>): EcuState
    decreases polls
  {
    if polls == [] then s else PollEach(e, Observed(e, s, polls[0]), polls[1..])
  }

  /** The responses when the timer is also checked at each of `polls[k]` before request `k`. */
  function Polled(e: Env, s: EcuState, inputs: seq<Input>, polls: seq<seq<Time>>): seq<Response>
    requires |polls| == |inputs|
    decreases inputs
  {
    if inputs == [] then [] else
      var out := Step(e, PollEach(e, s, polls[0]), inputs[0]);
      [out.response] + Polled(e, out.state, inputs[1..], polls[1..])
  }

  function Unpolled(e: Env, s: EcuState, inputs: seq<Input>): seq<Response>
    decreases inputs
  {
    if inputs == [] then [] else
      var out := Step(e, s, inputs[0]);
      [out.response] + Unpolled(e, out.state, inputs[1..])
  }

  predicate NoneLater(polls: seq<Time>, now: Time) {
    forall k | 0 <= k < |polls| :: polls[k] <= now
  }

  /** Readings never go backwards, and the polls before a request are no later than it. */
  predicate InOrder(now: Time, inputs: seq<Input>, polls: seq<seq<Time>>)
    requires |polls| == |inputs|
    decreases inputs
  {
    inputs == [] ||
    (&& now <= inputs[0].clock.t0 && inputs[0].clock.Ordered()
     && NoneLater(polls[0], inputs[0].clock.t0)
     && InOrder(inputs[0].clock.t3, inputs[1..], polls[1..]))
  }

  lemma {:induction false} PollsAreInvisible(e: Env, s: EcuState, polls: seq<Time>, now: Time)
    requires NoneLater(polls, now)
    ensures Observed(e, PollEach(e, s, polls), now) == Observed(e, s, now)
    decreases polls
  {
    if polls != [] {
      PollsAreInvisible(e, Observed(e, s, polls[0]), polls[1..], now);
    }
  }

  /** Checking the timer at any further moments, such as every deadline, changes no response. */
  lemma {:induction false} PollingIsInvisible(e: Env, s: EcuState, s': EcuState, now: Time, inputs: seq<Input>,
                                              polls: seq<seq<Time>>)
    requires |polls| == |inputs| && InOrder(now, inputs, polls) && Observed(e, s, now) == Observed(e, s', now)
    ensures Unpolled(e, s, inputs) == Polled(e, s', inputs, polls)
    decreases inputs
  {
    if inputs != [] {
      var i := inputs[0];
      var polled := PollEach(e, s', polls[0]);
      PollsAreInvisible(e, s', polls[0], i.clock.t0);
      assert Observed(e, s, i.clock.t0) == Observed(e, s', i.clock.t0);
      SameLookSameAnswer(e, s, polled, i);
      PollingIsInvisible(e, Step(e, s, i).state, Step(e, polled, i).state, i.clock.t3, inputs[1..], polls[1..]);
    }
  }
}
