/** What one session may not inherit from another, and what it does inherit. */
module Sessions {
  import opened Common
  import opened Session
  import opened SecurityAccess
  import opened Ecu
  import opened Runs
  import opened History
  import opened Provenance
  import opened Ownership

  lemma {:induction false} MechanismPersists(e: Env, r: Run, m: nat, n: nat, used: Mechanism)
    requires IsBehaviour(e, r) && m <= n <= |r.inputs| && used != Unlocked && r.states[m].mechanism == used
    requires forall k | m <= k < n :: !ClearsAt(e, r, k)
    ensures r.states[n].mechanism == used
    decreases n
  {
    if m < n {
      MechanismPersists(e, r, m, n - 1, used);
      MechanismKept(e, r, n - 1, used);
    }
  }

  lemma MechanismKept(e: Env, r: Run, n: nat, used: Mechanism)
    requires IsBehaviour(e, r) && n < |r.inputs| && used != Unlocked && r.states[n].mechanism == used && !ClearsAt(e, r, n)
    ensures r.states[n + 1].mechanism == used
  {
    assert IsStep(e, r, n);
    OtherMechanismIsRefused(e, r.states[n], r.inputs[n]);
    TracksAt(e, r, n);
  }

  lemma OtherMechanismIsRefused(e: Env, s: EcuState, i: Input)
    ensures Step(e, s, i).response.SeedPositive? ==> s.mechanism != Mech29 && Step(e, s, i).state.mechanism == Mech27
    ensures Step(e, s, i).response.CertPositive? ==> s.mechanism != Mech27 && Step(e, s, i).state.mechanism == Mech29
  {
  }

  /** A 0x27 seed and a 0x29 challenge are handed out in one run only with a clearing event between them. */
  lemma MechanismsExcludeEachOther(e: Env, r: Run, m: nat, n: nat)
    requires IsBehaviour(e, r) && m < n < |r.inputs|
    requires || (r.responses[m].SeedPositive? && r.responses[n].CertPositive?)
             || (r.responses[m].CertPositive? && r.responses[n].SeedPositive?)
    ensures exists k :: m < k < n && ClearsAt(e, r, k)
  {
    assert IsStep(e, r, m) && IsStep(e, r, n);
    OtherMechanismIsRefused(e, r.states[m], r.inputs[m]);
    OtherMechanismIsRefused(e, r.states[n], r.inputs[n]);
    if !exists k :: m < k < n && ClearsAt(e, r, k) {
      MechanismPersists(e, r, m + 1, n, r.states[m + 1].mechanism);
      assert false;
    }
  }

  lemma LockedStep(e: Env, s: EcuState, i: Input)
    ensures s.mechanism == Mech27 && i.request.CommunicateCertificate? ==>
              Step(e, s, i).response ==
                Negative(if Observed(e, s, i.clock.t0).session.Elevated() && s.owner == Some(i.conn) then 0x24 else 0x22)
    ensures s.mechanism == Mech29 && Decoded(i.request).Some? && Decoded(i.request).value.RequestSeed? ==>
              Step(e, s, i).response ==
                Negative(if Observed(e, s, i.clock.t0).session.Elevated() && s.owner != Some(i.conn) then 0x22 else 0x24)
  {
  }

  /** After a 0x27 seed and until a clearing event, certificates are refused: 0x24 to the owner, 0x22 to others. */
  lemma SeedLocksOutCertificates(e: Env, r: Run, m: nat, n: nat)
    requires IsBehaviour(e, r) && m < n < |r.inputs| && r.responses[m].SeedPositive?
    requires forall k | m < k < n :: !ClearsAt(e, r, k)
    requires r.inputs[n].request.CommunicateCertificate?
    ensures r.responses[n] ==
              Negative(if SessionSeen(e, r, n) != DEFAULT && r.states[n].owner == Some(r.inputs[n].conn) then 0x24 else 0x22)
  {
    assert IsStep(e, r, m) && IsStep(e, r, n);
    OtherMechanismIsRefused(e, r.states[m], r.inputs[m]);
    MechanismPersists(e, r, m + 1, n, Mech27);
    LockedStep(e, r.states[n], r.inputs[n]);
  }

  /** After a 0x29 challenge and until a clearing event, seeds are refused: 0x22 to strangers, 0x24 otherwise. */
  lemma CertificateLocksOutSeeds(e: Env, r: Run, m: nat, n: nat)
    requires IsBehaviour(e, r) && m < n < |r.inputs| && r.responses[m].CertPositive?
    requires forall k | m < k < n :: !ClearsAt(e, r, k)
    requires Decoded(r.inputs[n].request).Some? && Decoded(r.inputs[n].request).value.RequestSeed?
    ensures r.responses[n] ==
              Negative(if SessionSeen(e, r, n) != DEFAULT && r.states[n].owner != Some(r.inputs[n].conn) then 0x22 else 0x24)
  {
    assert IsStep(e, r, m) && IsStep(e, r, n);
    OtherMechanismIsRefused(e, r.states[m], r.inputs[m]);
    MechanismPersists(e, r, m + 1, n, Mech29);
    LockedStep(e, r.states[n], r.inputs[n]);
  }

  /** No level beyond READ_ONLY passes the gate, in any session. */
  ghost predicate NothingGranted(s: EcuState) {
    forall level, session | level != READ_ONLY :: !AccessGranted(s, level, session)
  }

  /** Step `n` opens a new session: it found Default and elevated it. */
  predicate OpensSession(e: Env, r: Run, n: nat)
    requires Shaped(r) && n < |r.inputs|
  {
    SessionSeen(e, r, n) == DEFAULT && ElevatesAt(e, r, n)
  }

  lemma OpeningKeepsGrants(e: Env, s: EcuState, i: Input)
    requires Step(e, s, i).response.SessionPositive? && !Clears(e, s, i, Step(e, s, i).response)
    ensures Step(e, s, i).state.sa == s.sa && Step(e, s, i).state.auth == s.auth
  {
  }

  /** The gate's levels of 0x27 that survive from accepted keys, and those of 0x29 from accepted proofs. */
  ghost predicate GrantSurvives(e: Env, r: Run, j: int, n: int, level: AccessLevel)
    requires Shaped(r)
  {
    || (level in {CALIBRATION, ECU_PROGRAMMING} && Live27(e, r, j, n, level))
    || (level in {ENGINEERING, FULL_ACCESS} && Live29(e, r, j, n, level))
  }

  lemma GrantedMeansHeld(s: EcuState)
    ensures NothingGranted(s) <==>
              && s.sa.granted != Some(CALIBRATION) && s.sa.granted != Some(ECU_PROGRAMMING)
              && s.auth.granted != Some(ENGINEERING) && s.auth.granted != Some(FULL_ACCESS)
  {
    assert s.sa.granted == Some(CALIBRATION) ==> AccessGranted(s, CALIBRATION, EXTENDED);
    assert s.sa.granted == Some(ECU_PROGRAMMING) ==> AccessGranted(s, ECU_PROGRAMMING, PROGRAMMING);
    assert s.auth.granted == Some(ENGINEERING) ==> AccessGranted(s, ENGINEERING, EXTENDED);
    assert s.auth.granted == Some(FULL_ACCESS) ==> AccessGranted(s, FULL_ACCESS, PROGRAMMING);
  }

  /**
   * A new session starts without access if and only if everything granted
   * before it has been cleared: a session that merely timed out hands its grant
   * on to the next one.
   */
  lemma NewSessionInheritsUnclearedGrants(e: Env, r: Run, n: nat)
    requires IsBehaviour(e, r) && n < |r.inputs| && OpensSession(e, r, n)
    ensures NothingGranted(r.states[n + 1]) <==> !exists j, level :: GrantSurvives(e, r, j, n, level)
    ensures NothingGranted(r.states[n + 1]) <==> NothingGranted(r.states[n])
  {
    assert IsStep(e, r, n);
    OpeningKeepsGrants(e, r.states[n], r.inputs[n]);
    GrantedMeansHeld(r.states[n]);
    GrantedMeansHeld(r.states[n + 1]);
    Grant27IsHistory(e, r, n, CALIBRATION);
    Grant27IsHistory(e, r, n, ECU_PROGRAMMING);
    Grant29IsHistory(e, r, n, ENGINEERING);
    Grant29IsHistory(e, r, n, FULL_ACCESS);
    forall level | level in {CALIBRATION, ECU_PROGRAMMING} && r.states[n].sa.granted == Some(level)
      ensures exists j, level :: GrantSurvives(e, r, j, n, level)
    {
      var j :| Live27(e, r, j, n, level);
      assert GrantSurvives(e, r, j, n, level);
    }
    forall level | level in {ENGINEERING, FULL_ACCESS} && r.states[n].auth.granted == Some(level)
      ensures exists j, level :: GrantSurvives(e, r, j, n, level)
    {
      var j :| Live29(e, r, j, n, level);
      assert GrantSurvives(e, r, j, n, level);
    }
    forall j, level | GrantSurvives(e, r, j, n, level)
      ensures !NothingGranted(r.states[n + 1])
    {
      assert Live27(e, r, j, n, level) || Live29(e, r, j, n, level);
    }
  }

  /** A session opened right after a clearing step, such as an access check that found Default, starts without access. */
  lemma ClearedSessionsStartClean(e: Env, r: Run, n: nat)
    requires IsBehaviour(e, r) && 0 < n < |r.inputs| && OpensSession(e, r, n) && ClearsAt(e, r, n - 1)
    ensures NothingGranted(r.states[n + 1])
  {
    TracksAt(e, r, n - 1);
    assert IsStep(e, r, n - 1) && IsStep(e, r, n);
    ClearingRevokes(e, r.states[n - 1], r.inputs[n - 1]);
    OpeningKeepsGrants(e, r.states[n], r.inputs[n]);
    GrantedMeansHeld(r.states[n + 1]);
  }

  /** A clearing event revokes every grant. */
  lemma ClearingRevokes(e: Env, s: EcuState, i: Input)
    requires Clears(e, s, i, Step(e, s, i).response)
    ensures var s' := Step(e, s, i).state; s'.sa.granted.None? && s'.auth.granted.None?
  {
  }

  /** The shipped CALIBRATION pair with its policy's session rules. */
  predicate HasCalibration(e: Env, secret: string) {
    && 0x01 in e.sa.levels && e.sa.levels[0x01] == SeedLevel(EXTENDED, CALIBRATION, 0x02, secret)
    && 0x02 in e.sa.levels && e.sa.levels[0x02] == KeyLevel(EXTENDED, CALIBRATION, 0x01, secret)
    && DEFAULT in e.session.allowed && EXTENDED in e.session.allowed[DEFAULT]
    && e.session.timeout > 0.0
  }

  /**
   * Connection 1 draws `seed`, earns CALIBRATION with it and falls silent; after
   * the timeout connection 2 opens a session and asks for the level.
   */
  function StaleInputs(e: Env, secret: string, seed: Bytes): seq<Input> {
    [ At(1, SessionControl(EXTENDED), 0.0, []),
      At(1, RequestSeed(0x01), 0.0, seed),
      At(1, SendKey(0x02, e.hmac(seed, secret)), 0.0, []),
      At(2, SessionControl(EXTENDED), e.session.timeout, []),
      At(2, CheckAccess(CALIBRATION), e.session.timeout, []) ]
  }

  lemma StrangerInherits(e: Env, s: EcuState, i: Input)
    requires Observed(e, s, i.clock.t0).session.session == DEFAULT && i.request == SessionControl(EXTENDED)
    requires i.clock == Instant(i.clock.t0) && e.session.timeout > 0.0
    requires DEFAULT in e.session.allowed && EXTENDED in e.session.allowed[DEFAULT]
    ensures var s' := Step(e, s, i).state;
            && s'.session == SessionState(EXTENDED, i.clock.t0) && s'.owner == Some(i.conn)
            && s'.sa == s.sa && s'.auth == s.auth && s'.mechanism == s.mechanism
  {
  }

  lemma SeedArrives(e: Env, secret: string, s: EcuState, i: Input)
    requires HasCalibration(e, secret) && i.request == RequestSeed(0x01) && i.clock == Instant(0.0)
    requires s.session == SessionState(EXTENDED, 0.0) && s.owner == Some(i.conn) && s.mechanism != Mech29
    requires s.sa == InitialSa(e.sa)
    ensures var s' := Step(e, s, i).state;
            && s'.session == SessionState(EXTENDED, 0.0) && s'.owner == Some(i.conn)
            && PendingSeed(s', 0x01) == Some(i.random)
  {
  }

  lemma KeyFits(e: Env, secret: string, s: EcuState, i: Input, seed: Bytes)
    requires HasCalibration(e, secret) && i.request == SendKey(0x02, e.hmac(seed, secret)) && i.clock == Instant(0.0)
    requires s.session == SessionState(EXTENDED, 0.0) && s.owner == Some(i.conn) && PendingSeed(s, 0x01) == Some(seed)
    ensures var s' := Step(e, s, i).state;
            s'.session == SessionState(EXTENDED, 0.0) && s'.sa.granted == Some(CALIBRATION)
  {
  }

  lemma EarnCalibration(e: Env, secret: string, seed: Bytes, r: Run)
    requires HasCalibration(e, secret)
    requires IsRun(e, r) && r.start == 0.0 && r.inputs == StaleInputs(e, secret, seed)
    ensures r.states[3].session == SessionState(EXTENDED, 0.0) && r.states[3].sa.granted == Some(CALIBRATION)
  {
    assert IsStep(e, r, 0) && IsStep(e, r, 1) && IsStep(e, r, 2);
    StrangerInherits(e, r.states[0], r.inputs[0]);
    SeedArrives(e, secret, r.states[1], r.inputs[1]);
    KeyFits(e, secret, r.states[2], r.inputs[2], seed);
  }

  /**
   * Whatever the seed: a connection that never sent a key or a proof is granted
   * the access that another one earned in a session that timed out.
   */
  lemma TimedOutGrantPassesToStranger(e: Env, secret: string, seed: Bytes, r: Run)
    requires HasCalibration(e, secret)
    requires IsRun(e, r) && r.start == 0.0 && r.inputs == StaleInputs(e, secret, seed)
    ensures r.states[4].owner == Some(2) && r.responses[4] == AccessInfo(true)
    ensures forall k | 0 <= k < 5 && r.inputs[k].conn == 2 ::
              !r.inputs[k].request.SendKey? && !r.inputs[k].request.VerifyProof?
  {
    EarnCalibration(e, secret, seed, r);
    assert IsStep(e, r, 3) && IsStep(e, r, 4);
    StrangerInherits(e, r.states[3], r.inputs[3]);
  }

  /** There is such a run, for every seed. */
  lemma StaleRunExists(e: Env, secret: string, seed: Bytes)
    requires HasCalibration(e, secret)
    ensures exists r :: IsRun(e, r) && r.start == 0.0 && r.inputs == StaleInputs(e, secret, seed)
  {
    ExecuteIsBehaviour(e, 0.0, StaleInputs(e, secret, seed));
    assert IsRun(e, Execute(e, 0.0, StaleInputs(e, secret, seed)));
  }
}
