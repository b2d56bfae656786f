/** When the exchange behind FULL_ACCESS was bidirectional, that is, also sent the ECU's own certificate. */
module Bidirectional {
  import opened Common
  import opened Session
  import opened Authentication
  import opened Ecu
  import opened Runs
  import opened Provenance
  import opened Exchange

  /** Step `n` granted FULL_ACCESS for the exchange that step `j` opened. */
  ghost predicate GrantsFull(e: Env, r: Run, j: int, n: int)
    requires Shaped(r) && 0 <= n < |r.inputs|
  {
    OpenSince(e, r, j, n) && r.responses[n] == ProofPositive(FULL_ACCESS)
  }

  /**
   * Every grant of FULL_ACCESS has its exchange, and the ECU's certificate was
   * part of that exchange if and only if it was opened in Programming.
   */
  lemma FullAccessIsBidirectional(e: Env, r: Run, n: nat)
    requires IsBehaviour(e, r) && n < |r.inputs| && r.responses[n] == ProofPositive(FULL_ACCESS)
    ensures exists j :: GrantsFull(e, r, j, n)
    ensures forall j | GrantsFull(e, r, j, n) ::
              && r.responses[j].CertPositive?
              && (r.responses[j].challenge.ecuCert == Some(e.certs.ecuCertPem) <==> SessionSeen(e, r, j) == PROGRAMMING)
  {
    AcceptedProof(e, r, n, FULL_ACCESS);
    EvaluationHasExchange(e, r, n);
    var j, m :| ProofOf(e, r, j, m, n);
    assert GrantsFull(e, r, j, n);
    forall j | GrantsFull(e, r, j, n)
      ensures r.responses[j].challenge.ecuCert == Some(e.certs.ecuCertPem) <==> SessionSeen(e, r, j) == PROGRAMMING
    {
      OpeningIsValidated(e, r, j);
    }
  }

  /** The transition table leads from Default by way of Extended to Programming. */
  predicate ReachesProgramming(e: Env) {
    && DEFAULT in e.session.allowed && EXTENDED in e.session.allowed[DEFAULT]
    && EXTENDED in e.session.allowed && PROGRAMMING in e.session.allowed[EXTENDED]
    && e.session.timeout > 0.0
  }

  /** A certificate presented in Extended; its proof presented in Programming. */
  function OneWayInputs(pem: string, nonce: Bytes, utc: Time, revoked: set<string>, proof: Bytes): seq<Input> {
    [ At(1, SessionControl(EXTENDED), 0.0, []),
      Input(1, CommunicateCertificate(pem), Instant(0.0), nonce, utc, revoked, ""),
      At(1, SessionControl(PROGRAMMING), 0.0, []),
      At(1, VerifyProof(proof), 0.0, []),
      At(1, CheckAccess(FULL_ACCESS), 0.0, []) ]
  }

  /** The state holds a session of connection 1, fresh at time 0, with nothing of 0x27 in use. */
  predicate Holding(s: EcuState, session: int) {
    s.session == SessionState(session, 0.0) && s.owner == Some(1) && s.mechanism != Mech27
  }

  lemma ChangeSession(e: Env, s: EcuState, target: int)
    requires ReachesProgramming(e) && s.mechanism != Mech27
    requires || (s.session == SessionState(DEFAULT, 0.0) && target == EXTENDED)
             || (s.session == SessionState(EXTENDED, 0.0) && s.owner == Some(1) && target == PROGRAMMING)
    ensures var s' := Step(e, s, At(1, SessionControl(target), 0.0, [])).state;
            Holding(s', target) && s'.auth == s.auth
  {
  }

  lemma OpenOneWay(e: Env, s: EcuState, i: Input)
    requires Holding(s, EXTENDED) && i.conn == 1 && i.clock == Instant(0.0) && i.request.CommunicateCertificate?
    requires e.session.timeout > 0.0 && PassesAllChecks(e.certs, i.request.pem, i.utc, i.revoked)
    ensures var out := Step(e, s, i);
            && out.response == CertPositive(Challenge(i.random, None)) && Holding(out.state, EXTENDED)
            && out.state.auth.pendingCert == e.certs.parse(i.request.pem)
            && out.state.auth.pendingChallenge == Some(i.random) && out.state.auth.usedNonces == s.auth.usedNonces
  {
  }

  lemma ProveInProgramming(e: Env, s: EcuState, proof: Bytes)
    requires Holding(s, PROGRAMMING) && e.session.timeout > 0.0 && s.auth.usedNonces == {}
    requires s.auth.pendingCert.Some? && s.auth.pendingChallenge.Some?
    requires e.certs.proofVerifies(s.auth.pendingCert.value, proof, s.auth.pendingChallenge.value)
    ensures var out := Step(e, s, At(1, VerifyProof(proof), 0.0, []));
            && out.response == ProofPositive(FULL_ACCESS)
            && Holding(out.state, PROGRAMMING) && out.state.auth.granted == Some(FULL_ACCESS)
  {
  }

  lemma GateOpens(e: Env, s: EcuState)
    requires Holding(s, PROGRAMMING) && e.session.timeout > 0.0 && s.auth.granted == Some(FULL_ACCESS)
    ensures Step(e, s, At(1, CheckAccess(FULL_ACCESS), 0.0, [])).response == AccessInfo(true)
  {
  }

  /** The run has the inputs above, for a certificate that passes and a proof that verifies. */
  ghost predicate OneWayRun(e: Env, r: Run, pem: string, nonce: Bytes, utc: Time, revoked: set<string>, proof: Bytes) {
    && ReachesProgramming(e) && PassesAllChecks(e.certs, pem, utc, revoked)
    && e.certs.proofVerifies(e.certs.parse(pem).value, proof, nonce)
    && IsRun(e, r) && r.start == 0.0 && r.inputs == OneWayInputs(pem, nonce, utc, revoked, proof)
  }

  lemma OpenedOneWay(e: Env, r: Run, pem: string, nonce: Bytes, utc: Time, revoked: set<string>, proof: Bytes)
    requires OneWayRun(e, r, pem, nonce, utc, revoked, proof)
    ensures r.responses[1] == CertPositive(Challenge(nonce, None)) && Holding(r.states[2], EXTENDED)
    ensures var auth := r.states[2].auth;
            auth.pendingCert == e.certs.parse(pem) && auth.pendingChallenge == Some(nonce) && auth.usedNonces == {}
  {
    assert IsStep(e, r, 0) && IsStep(e, r, 1);
    ChangeSession(e, r.states[0], EXTENDED);
    OpenOneWay(e, r.states[1], r.inputs[1]);
  }

  /**
   * Whatever certificate passes the checks and whatever proof verifies: FULL_ACCESS
   * is granted for an exchange in which the ECU never presented its certificate.
   */
  lemma OneWayExchangeGivesFullAccess(e: Env, r: Run,
                                      pem: string, nonce: Bytes, utc: Time, revoked: set<string>, proof: Bytes)
    requires OneWayRun(e, r, pem, nonce, utc, revoked, proof)
    ensures r.responses[1] == CertPositive(Challenge(nonce, None))
    ensures r.responses[3] == ProofPositive(FULL_ACCESS) && r.responses[4] == AccessInfo(true)
  {
    OpenedOneWay(e, r, pem, nonce, utc, revoked, proof);
    assert IsStep(e, r, 2) && IsStep(e, r, 3) && IsStep(e, r, 4);
    ChangeSession(e, r.states[2], PROGRAMMING);
    ProveInProgramming(e, r.states[3], proof);
    GateOpens(e, r.states[4]);
  }

  /** There is such a run. */
  lemma OneWayRunExists(e: Env, pem: string, nonce: Bytes, utc: Time, revoked: set<string>, proof: Bytes)
    requires ReachesProgramming(e) && PassesAllChecks(e.certs, pem, utc, revoked)
    requires e.certs.proofVerifies(e.certs.parse(pem).value, proof, nonce)
    ensures exists r :: OneWayRun(e, r, pem, nonce, utc, revoked, proof)
  {
    ExecuteIsBehaviour(e, 0.0, OneWayInputs(pem, nonce, utc, revoked, proof));
    assert OneWayRun(e, Execute(e, 0.0, OneWayInputs(pem, nonce, utc, revoked, proof)), pem, nonce, utc, revoked, proof);
  }
}
