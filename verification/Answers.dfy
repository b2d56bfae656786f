/** What every request of the three services is answered, told from the history of the run alone. */
module Answers {
  import opened Common
  import opened Session
  import opened Authentication
  import opened Ecu
  import opened Runs
  import opened History
  import opened Provenance
  import opened Seeds
  import opened Exchange
  import opened MechanismLock
  import opened RateLimit
  import opened LazyExpiry

  /** The session that the first `n` requests leave open at `now`. */
  function OpenAt(e: Env, r: Run, n: nat, now: Time): EagerSession
    requires Shaped(r) && n <= |r.inputs|
  {
    Advance(EagerAt(e.session.timeout, r, n), now)
  }

  /** Request `n` arrives while another connection has a session open. */
  predicate Stranger(e: Env, r: Run, n: nat)
    requires Shaped(r) && n < |r.inputs|
  {
    var found := OpenAt(e, r, n, r.inputs[n].clock.t0);
    found.Active? && found.owner != r.inputs[n].conn
  }

  /** What request `n` finds, at its arrival and at a later check, is what the history leaves open. */
  lemma FoundIsHistory(e: Env, r: Run, n: nat)
    requires IsRun(e, r) && n < |r.inputs|
    ensures var c := r.inputs[n].clock;
            var found := Observed(e, r.states[n], c.t0);
            && (Foreign(found, r.inputs[n].conn) <==> Stranger(e, r, n))
            && found.session.session == OpenAt(e, r, n, c.t0).Kind()
            && Expired(e.session.timeout, found.session, c.t1).session == OpenAt(e, r, n, c.t1).Kind()
  {
    var c := r.inputs[n].clock;
    assert c.Ordered() && Before(r, n) <= c.t0;
    LazyIsEager(e, r, n, c.t0);
    LazyIsEager(e, r, n, c.t1);
  }

  /** Which steps clear is told from requests, responses and the eager session alone. */
  lemma ClearsAreHistory(e: Env, r: Run, k: nat)
    requires IsRun(e, r) && k < |r.inputs|
    ensures ClearsAt(e, r, k) <==>
              var i := r.inputs[k];
              var response := r.responses[k];
              || (response.SessionPositive?
                  && (response.sessionId == DEFAULT || i.clock.t3 - i.clock.t2 >= e.session.timeout))
              || i.request.InjectTamper?
              || (i.request.CheckAccess? && OpenAt(e, r, k, i.clock.t0).Idle?)
  {
    FoundIsHistory(e, r, k);
    LazyIsEager(e, r, k, r.inputs[k].clock.t0);
  }

  /** A change that 0x10 may make: to a known session, and either none or a listed one other than Default to Programming. */
  predicate Permitted(p: SessionPolicy, from: int, target: int) {
    && target in {DEFAULT, EXTENDED, PROGRAMMING}
    && (target == from
        || (!(from == DEFAULT && target == PROGRAMMING) && from in p.allowed && target in p.allowed[from]))
  }

  lemma SessionControlStep(e: Env, s: EcuState, i: Input, target: int)
    requires Decoded(i.request) == Some(SessionControl(target))
    ensures var s0 := Observed(e, s, i.clock.t0);
            var from := Expired(e.session.timeout, s0.session, i.clock.t1).session;
            Step(e, s, i).response ==
              if Foreign(s0, i.conn) || !Permitted(e.session, from, target) then Negative(0x22) else SessionPositive(target)
  {
  }

  /** The answer that the history calls for to a 0x10 request for `target`. */
  function SessionControlAnswer(e: Env, r: Run, n: nat, target: int): Response
    requires Shaped(r) && n < |r.inputs|
  {
    if Stranger(e, r, n) || !Permitted(e.session, OpenAt(e, r, n, r.inputs[n].clock.t1).Kind(), target)
    then Negative(0x22) else SessionPositive(target)
  }

  lemma SessionControlAnswered(e: Env, r: Run, n: nat, target: int)
    requires IsRun(e, r) && n < |r.inputs| && Decoded(r.inputs[n].request) == Some(SessionControl(target))
    ensures r.responses[n] == SessionControlAnswer(e, r, n, target)
  {
    FoundIsHistory(e, r, n);
    assert IsStep(e, r, n);
    SessionControlStep(e, r.states[n], r.inputs[n], target);
  }

  /** A 0x10 request is accepted exactly from no stranger, for a permitted change of the session then open. */
  lemma SessionControlAnswers(e: Env, r: Run, n: nat, target: int)
    requires IsRun(e, r) && n < |r.inputs| && r.inputs[n].request == SessionControl(target)
    ensures r.responses[n] == SessionControlAnswer(e, r, n, target)
  {
    SessionControlAnswered(e, r, n, target);
  }

  lemma SessionStateStep(e: Env, s: EcuState, i: Input)
    requires i.request == GetSessionState
    ensures Step(e, s, i).response == SessionInfo(Observed(e, s, i.clock.t0).session.session)
  {
  }

  /** The session query reports the session that the history leaves open when it arrives. */
  lemma GetSessionStateAnswers(e: Env, r: Run, n: nat)
    requires IsRun(e, r) && n < |r.inputs| && r.inputs[n].request == GetSessionState
    ensures r.responses[n] == SessionInfo(OpenAt(e, r, n, r.inputs[n].clock.t0).Kind())
  {
    FoundIsHistory(e, r, n);
    assert IsStep(e, r, n);
    SessionStateStep(e, r.states[n], r.inputs[n]);
  }

  /** The subfunction belongs to a seed row, or to a key row, whose session is `session`. */
  predicate Serves(e: Env, sf: int, seed: bool, session: int) {
    sf in e.sa.levels && e.sa.levels[sf].SeedLevel? == seed && e.sa.levels[sf].requiredSession == session
  }

  function LimitAnswer(verdict: Option<nat>, seed: Bytes): Response {
    if verdict.Some? then Negative(verdict.value) else SeedPositive(seed)
  }

  lemma SeedStep(e: Env, s: EcuState, i: Input, sf: int)
    requires Decoded(i.request) == Some(RequestSeed(sf))
    ensures var s0 := Observed(e, s, i.clock.t0);
            var session := Expired(e.session.timeout, s0.session, i.clock.t1).session;
            Step(e, s, i).response ==
              if Foreign(s0, i.conn) then Negative(0x22)
              else if s.mechanism == Mech29 then Negative(0x24)
              else if !Serves(e, sf, true, session) then Negative(0x22)
              else LimitAnswer(Verdict(e.sa.limits, LimiterOf(s.sa, e.sa.levels[sf].accessLevel), i.clock.t2), i.random)
  {
  }

  /** The answer that the history calls for to a requestSeed for `sf`. */
  ghost function SeedAnswer(e: Env, r: Run, n: nat, sf: int): Response
    requires Shaped(r) && n < |r.inputs|
  {
    var i := r.inputs[n];
    if Stranger(e, r, n) then Negative(0x22)
    else if exists j :: UsedSince(e, r, j, n, Mech29) then Negative(0x24)
    else if !Serves(e, sf, true, OpenAt(e, r, n, i.clock.t1).Kind()) then Negative(0x22)
    else
      var limiter := ReactAll(e.sa.limits, OPEN, EventsBefore(e, r, e.sa.levels[sf].accessLevel, n));
      LimitAnswer(Verdict(e.sa.limits, limiter, i.clock.t2), i.random)
  }

  lemma SeedAnswered(e: Env, r: Run, n: nat, sf: int)
    requires IsRun(e, r) && n < |r.inputs| && Decoded(r.inputs[n].request) == Some(RequestSeed(sf))
    ensures r.responses[n] == SeedAnswer(e, r, n, sf)
  {
    FoundIsHistory(e, r, n);
    MechanismIsHistory(e, r, n, Mech29);
    if sf in e.sa.levels {
      LevelsAreIndependent(e, r, e.sa.levels[sf].accessLevel, n);
    }
    assert IsStep(e, r, n);
    SeedStep(e, r.states[n], r.inputs[n], sf);
  }

  /**
   * requestSeed is answered 0x22 to strangers, 0x24 while a challenge holds the
   * mechanism lock, 0x22 outside the session of its level, and otherwise as the
   * level's own limiter decides from the level's own events.
   */
  lemma SeedAnswers(e: Env, r: Run, n: nat, sf: int)
    requires IsRun(e, r) && n < |r.inputs| && r.inputs[n].request == RequestSeed(sf)
    ensures r.responses[n] == SeedAnswer(e, r, n, sf)
  {
    SeedAnswered(e, r, n, sf);
  }

  lemma PduStep(e: Env, s: EcuState, i: Input, service: int, payload: seq<int>)
    requires i.request == SendUdsPdu(service, payload)
    requires !(service == 0x10 && |payload| == 1) && !(service == 0x27 && |payload| > 0)
    ensures Step(e, s, i) == StepResult(s, Negative(0x13))
  {
  }

  /**
   * A raw PDU is answered as the 0x10 request for its only byte or the requestSeed
   * for its first byte, and by 0x13, without any effect, if it is neither.
   */
  lemma PduAnswers(e: Env, r: Run, n: nat, service: int, payload: seq<int>)
    requires IsRun(e, r) && n < |r.inputs| && r.inputs[n].request == SendUdsPdu(service, payload)
    ensures service == 0x10 && |payload| == 1 ==> r.responses[n] == SessionControlAnswer(e, r, n, payload[0])
    ensures service == 0x27 && |payload| > 0 ==> r.responses[n] == SeedAnswer(e, r, n, payload[0])
    ensures !(service == 0x10 && |payload| == 1) && !(service == 0x27 && |payload| > 0) ==>
              r.responses[n] == Negative(0x13) && r.states[n + 1] == r.states[n]
  {
    if service == 0x10 && |payload| == 1 {
      SessionControlAnswered(e, r, n, payload[0]);
    } else if service == 0x27 && |payload| > 0 {
      SeedAnswered(e, r, n, payload[0]);
    } else {
      assert IsStep(e, r, n);
      PduStep(e, r.states[n], r.inputs[n], service, payload);
    }
  }

  lemma KeyStep(e: Env, s: EcuState, i: Input, sf: int, key: Bytes)
    requires i.request == SendKey(sf, key)
    ensures var s0 := Observed(e, s, i.clock.t0);
            var session := Expired(e.session.timeout, s0.session, i.clock.t1).session;
            Step(e, s, i).response ==
              if Foreign(s0, i.conn) || !Serves(e, sf, false, session) then Negative(0x22)
              else
                var cfg := e.sa.levels[sf];
                var seed := PendingSeed(s, cfg.requestSeed);
                if seed.None? then Negative(0x24)
                else if key == e.hmac(seed.value, cfg.secret) then KeyPositive(cfg.accessLevel)
                else Negative(0x35)
  {
  }

  /**
   * sendKey is answered 0x22 to strangers and outside the session of its level,
   * 0x24 unless a seed is outstanding, and otherwise as the comparison with
   * that seed's HMAC comes out.
   */
  lemma KeyAnswers(e: Env, r: Run, n: nat, sf: int, key: Bytes)
    requires IsRun(e, r) && n < |r.inputs| && r.inputs[n].request == SendKey(sf, key)
    ensures var served := !Stranger(e, r, n) && Serves(e, sf, false, OpenAt(e, r, n, r.inputs[n].clock.t1).Kind());
            if !served then r.responses[n] == Negative(0x22)
            else
              var cfg := e.sa.levels[sf];
              && ((!exists j, seed :: Outstanding(e, r, j, n, cfg.requestSeed, seed)) ==> r.responses[n] == Negative(0x24))
              && forall j, seed | Outstanding(e, r, j, n, cfg.requestSeed, seed) ::
                   r.responses[n] ==
                     if key == e.hmac(seed, cfg.secret) then KeyPositive(cfg.accessLevel) else Negative(0x35)
  {
    FoundIsHistory(e, r, n);
    assert IsStep(e, r, n);
    KeyStep(e, r.states[n], r.inputs[n], sf, key);
    if sf in e.sa.levels && e.sa.levels[sf].KeyLevel? {
      var from := e.sa.levels[sf].requestSeed;
      if PendingSeed(r.states[n], from).Some? {
        SeedIsHistory(e, r, n, from, PendingSeed(r.states[n], from).value);
      }
      forall j, seed | Outstanding(e, r, j, n, from, seed)
        ensures PendingSeed(r.states[n], from) == Some(seed)
      {
        SeedIsHistory(e, r, n, from, seed);
      }
    }
  }

  /** What the five primitives make of a certificate: the code of the first one it fails, or a challenge. */
  ghost predicate CertificateVerdict(e: Env, i: Input, pem: string, session: int, response: Response) {
    var cert := e.certs.parse(pem);
    if cert.None? then response == Negative(0x73)
    else
      var valid := e.certs.timeValid(cert.value, i.utc);
      var issued := e.certs.issuerMatches(cert.value);
      var signed := e.certs.signedByRoot(cert.value);
      var listed := e.certs.fingerprint(cert.value) in i.revoked;
      && (!valid ==> response == Negative(0x75))
      && (valid && !issued ==> response == Negative(0x78))
      && (valid && issued && !signed ==> response == Negative(0x76))
      && (valid && issued && signed && listed ==> response == Negative(0x74))
      && (valid && issued && signed && !listed ==>
            response == CertPositive(Challenge(i.random, if session == PROGRAMMING then Some(e.certs.ecuCertPem) else None)))
  }

  lemma CertificateStep(e: Env, s: EcuState, i: Input, pem: string)
    requires i.request == CommunicateCertificate(pem)
    ensures var s0 := Observed(e, s, i.clock.t0);
            var response := Step(e, s, i).response;
            if Foreign(s0, i.conn) || !s0.session.Elevated() then response == Negative(0x22)
            else if s.mechanism == Mech27 then response == Negative(0x24)
            else CertificateVerdict(e, i, pem, s0.session.session, response)
  {
  }

  /**
   * A certificate is answered 0x22 to strangers and in Default, 0x24 while a seed
   * holds the mechanism lock, else with the code of the first check it fails, and
   * with a challenge if it passes all five.
   */
  lemma CertificateAnswers(e: Env, r: Run, n: nat, pem: string)
    requires IsRun(e, r) && n < |r.inputs| && r.inputs[n].request == CommunicateCertificate(pem)
    ensures var session := OpenAt(e, r, n, r.inputs[n].clock.t0).Kind();
            if Stranger(e, r, n) || session == DEFAULT then r.responses[n] == Negative(0x22)
            else if exists j :: UsedSince(e, r, j, n, Mech27) then r.responses[n] == Negative(0x24)
            else CertificateVerdict(e, r.inputs[n], pem, session, r.responses[n])
  {
    FoundIsHistory(e, r, n);
    MechanismIsHistory(e, r, n, Mech27);
    assert IsStep(e, r, n);
    CertificateStep(e, r.states[n], r.inputs[n], pem);
  }

  lemma DeauthenticateStep(e: Env, s: EcuState, i: Input)
    requires i.request == Deauthenticate
    ensures Step(e, s, i).response ==
              if Foreign(Observed(e, s, i.clock.t0), i.conn) then Negative(0x22) else DeauthPositive
  {
  }

  /** deAuthenticate is refused to strangers only. */
  lemma DeauthenticateAnswers(e: Env, r: Run, n: nat)
    requires IsRun(e, r) && n < |r.inputs| && r.inputs[n].request == Deauthenticate
    ensures r.responses[n] == if Stranger(e, r, n) then Negative(0x22) else DeauthPositive
  {
    FoundIsHistory(e, r, n);
    assert IsStep(e, r, n);
    DeauthenticateStep(e, r.states[n], r.inputs[n]);
  }

  function ProofLevel(session: int): AccessLevel {
    if session == PROGRAMMING then FULL_ACCESS else ENGINEERING
  }

  lemma ProofStep(e: Env, s: EcuState, i: Input, proof: Bytes)
    requires i.request == VerifyProof(proof)
    ensures var s0 := Observed(e, s, i.clock.t0);
            Step(e, s, i).response ==
              if Foreign(s0, i.conn) || !s0.session.Elevated() then Negative(0x22)
              else if s.auth.pendingCert.None? || s.auth.pendingChallenge.None? then Negative(0x24)
              else if s.auth.pendingChallenge.value in s.auth.usedNonces then Negative(0x24)
              else if e.certs.proofVerifies(s.auth.pendingCert.value, proof, s.auth.pendingChallenge.value)
              then ProofPositive(ProofLevel(s0.session.session))
              else Negative(0x76)
  {
  }

  /** The verdict on a proof for the exchange of step `j` and the challenge of step `m`. */
  ghost function ProofVerdict(e: Env, r: Run, n: int, proof: Bytes, j: int, m: int, session: int): Response
    requires Shaped(r) && 0 <= n < |r.inputs| && Challenges(e, r, j, m, n) && r.inputs[j].request.CommunicateCertificate?
  {
    var cert := e.certs.parse(r.inputs[j].request.pem);
    if exists k :: 0 <= k < n && ProvedWith(e, r, k, NonceOf(r, m)) then Negative(0x24)
    else if cert.Some? && e.certs.proofVerifies(cert.value, proof, NonceOf(r, m)) then ProofPositive(ProofLevel(session))
    else Negative(0x76)
  }

  /**
   * A proof is answered 0x22 to strangers and in Default, 0x24 unless an exchange
   * is open, 0x24 if its challenge was accepted before, and otherwise as its
   * signature verifies under the certificate of that exchange.
   */
  lemma ProofAnswers(e: Env, r: Run, n: nat, proof: Bytes)
    requires IsRun(e, r) && n < |r.inputs| && r.inputs[n].request == VerifyProof(proof)
    ensures var session := OpenAt(e, r, n, r.inputs[n].clock.t0).Kind();
            if Stranger(e, r, n) || session == DEFAULT then r.responses[n] == Negative(0x22)
            else
              && ((!exists j, m :: Challenges(e, r, j, m, n)) ==> r.responses[n] == Negative(0x24))
              && forall j, m | Challenges(e, r, j, m, n) ::
                   r.responses[n] == ProofVerdict(e, r, n, proof, j, m, session)
  {
    FoundIsHistory(e, r, n);
    assert IsStep(e, r, n);
    ProofStep(e, r.states[n], r.inputs[n], proof);
    ExchangeAlwaysOk(e, r, n);
    CertIsHistory(e, r, n);
    if r.states[n].auth.pendingCert.Some? {
      ChallengeIsHistory(e, r, n, r.states[n].auth.pendingChallenge.value);
    }
    forall j, m | Challenges(e, r, j, m, n)
      ensures r.states[n].auth.pendingCert.Some?
           && r.states[n].auth.pendingCert == e.certs.parse(r.inputs[j].request.pem)
           && r.states[n].auth.pendingChallenge == Some(NonceOf(r, m))
      ensures NonceOf(r, m) in r.states[n].auth.usedNonces <==> exists k :: 0 <= k < n && ProvedWith(e, r, k, NonceOf(r, m))
    {
      OpenExchangeHasChallenge(e, r, j, n);
      UsedNoncesAreProved(e, r, n, NonceOf(r, m));
    }
  }

  /** The two simulation hooks are always confirmed, whoever calls them. */
  lemma InjectionAnswers(e: Env, r: Run, n: nat)
    requires IsBehaviour(e, r) && n < |r.inputs|
    requires r.inputs[n].request.InjectTamper? || r.inputs[n].request.InjectReplayNonce?
    ensures r.responses[n] == Done
  {
    assert IsStep(e, r, n);
  }

  lemma QueryStep(e: Env, s: EcuState, i: Input)
    ensures i.request == GetAccessLevel ==> Step(e, s, i).response == LevelInfo(s.sa.granted)
    ensures i.request == GetAuthAccessLevel ==> Step(e, s, i).response == LevelInfo(s.auth.granted)
    ensures i.request.GetAttemptCounter? ==> Step(e, s, i).response == CountInfo(LimiterOf(s.sa, i.request.counterOf).count)
  {
  }

  /** The 0x27 level query names the level of the latest accepted key that nothing has cleared. */
  lemma GetAccessLevelAnswers(e: Env, r: Run, n: nat)
    requires IsBehaviour(e, r) && n < |r.inputs| && r.inputs[n].request == GetAccessLevel
    ensures (forall j, level | Live27(e, r, j, n, level) :: r.responses[n] == LevelInfo(Some(level)))
    ensures (!exists j, level :: Live27(e, r, j, n, level)) ==> r.responses[n] == LevelInfo(None)
  {
    assert IsStep(e, r, n);
    QueryStep(e, r.states[n], r.inputs[n]);
    if r.states[n].sa.granted.Some? {
      Grant27IsHistory(e, r, n, r.states[n].sa.granted.value);
    }
    forall j, level | Live27(e, r, j, n, level)
      ensures r.states[n].sa.granted == Some(level)
    {
      Grant27IsHistory(e, r, n, level);
    }
  }

  /** The 0x29 level query names the level of the latest accepted proof that nothing has cleared or deauthenticated. */
  lemma GetAuthAccessLevelAnswers(e: Env, r: Run, n: nat)
    requires IsBehaviour(e, r) && n < |r.inputs| && r.inputs[n].request == GetAuthAccessLevel
    ensures (forall j, level | Live29(e, r, j, n, level) :: r.responses[n] == LevelInfo(Some(level)))
    ensures (!exists j, level :: Live29(e, r, j, n, level)) ==> r.responses[n] == LevelInfo(None)
  {
    assert IsStep(e, r, n);
    QueryStep(e, r.states[n], r.inputs[n]);
    if r.states[n].auth.granted.Some? {
      Grant29IsHistory(e, r, n, r.states[n].auth.granted.value);
    }
    forall j, level | Live29(e, r, j, n, level)
      ensures r.states[n].auth.granted == Some(level)
    {
      Grant29IsHistory(e, r, n, level);
    }
  }

  /** Under every policy the counter query reports the count of the level's own limiter over its own events. */
  lemma GetAttemptCounterAnswers(e: Env, r: Run, n: nat, level: AccessLevel)
    requires IsBehaviour(e, r) && n < |r.inputs| && r.inputs[n].request == GetAttemptCounter(level)
    ensures r.responses[n] == CountInfo(ReactAll(e.sa.limits, OPEN, EventsBefore(e, r, level, n)).count)
  {
    assert IsStep(e, r, n);
    QueryStep(e, r.states[n], r.inputs[n]);
    LevelsAreIndependent(e, r, level, n);
  }
}
