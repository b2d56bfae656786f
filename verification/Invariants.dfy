/** What holds in every reachable state, although no single handler checks it. */
module Invariants {
  import opened Common
  import opened Session
  import opened SecurityAccess
  import opened Authentication
  import opened AuditLog
  import opened Ecu
  import opened Runs

  /** A level's counter stays within the limit; a lockout is set exactly at the limit. */
  ghost predicate LimiterOk(max: int, sa: SaState, level: AccessLevel) {
    && sa.Count(level) <= max
    && (sa.Count(level) == max <==> sa.Lockout(level).Some?)
    && (sa.Count(level) > 0 <==> sa.LastFail(level).Some?)
  }

  /** A pending seed belongs to a level that is not locked out. */
  ghost predicate SeedOk(levels: map<int, LevelConfig>, sa: SaState, sf: int) {
    sf in sa.pendingSeeds ==>
      sf in levels && levels[sf].SeedLevel? && sa.Lockout(levels[sf].accessLevel).None?
  }

  ghost predicate SaInv(e: Env, sa: SaState) {
    && (forall level :: LimiterOk(e.sa.limits.maxAttempts, sa, level))
    && (forall sf :: SeedOk(e.sa.levels, sa, sf))
  }

  /** Whatever either mechanism has in flight or granted is covered by the mechanism lock. */
  ghost predicate MechanismInv(s: EcuState) {
    && (s.sa.pendingSeeds != map[] || s.sa.granted.Some? ==> s.mechanism == Mech27)
    && (s.auth.pendingCert.Some? || s.auth.granted.Some? ==> s.mechanism == Mech29)
  }

  ghost predicate OwnerInv(s: EcuState) {
    && s.session.session in {DEFAULT, EXTENDED, PROGRAMMING}
    && (s.session.Elevated() ==> s.owner.Some?)
  }

  /** What holds under every policy; the limiters' invariant `SaInv` needs a well-formed one. */
  ghost predicate Inv(e: Env, s: EcuState) {
    && MechanismInv(s)
    && OwnerInv(s)
    && LogOk(e.hash, e.genesis, s.log)
  }

  lemma ClearSaKeepsInv(e: Env, sa: SaState)
    requires SaInv(e, sa)
    ensures SaInv(e, ClearSa(sa))
  {
    forall level
      ensures LimiterOk(e.sa.limits.maxAttempts, ClearSa(sa), level)
    {
      assert LimiterOk(e.sa.limits.maxAttempts, sa, level);
    }
  }

  lemma ResetKeepsLimiter(max: int, sa: SaState, level: AccessLevel, other: AccessLevel)
    requires max >= 1 && LimiterOk(max, sa, other)
    ensures LimiterOk(max, ResetLimiter(sa, level), other)
  {
  }

  lemma SeedRequestedKeepsInv(e: Env, session: SessionState, sa: SaState, sf: int, random: Bytes, c: Clock)
    requires e.WellFormed() && SaInv(e, sa)
    ensures SaInv(e, SeedRequested(e.sa, e.session.timeout, session, sa, sf, random, c).sa)
  {
    var sa' := SeedRequested(e.sa, e.session.timeout, session, sa, sf, random, c).sa;
    if sa' != sa {
      var asked := e.sa.levels[sf].accessLevel;
      var checked := RateChecked(e.sa.limits, sa, asked, c.t2).state;
      assert checked == sa || checked == ResetLimiter(sa, asked);
      forall level
        ensures LimiterOk(e.sa.limits.maxAttempts, sa', level)
      {
        ResetKeepsLimiter(e.sa.limits.maxAttempts, sa, asked, level);
        assert LimiterOk(e.sa.limits.maxAttempts, checked, level);
      }
      forall x
        ensures SeedOk(e.sa.levels, sa', x)
      {
        assert SeedOk(e.sa.levels, sa, x);
      }
    }
  }

  /** The seed row and the key row of a pair are the only rows of their access level. */
  lemma PairOf(levels: map<int, LevelConfig>, key: int)
    requires WellFormedTable(levels) && key in levels && levels[key].KeyLevel?
    ensures var seed := levels[key].requestSeed;
            && seed in levels && levels[seed].SeedLevel? && levels[seed].accessLevel == levels[key].accessLevel
            && forall sf | sf in levels && levels[sf].SeedLevel? && levels[sf].accessLevel == levels[key].accessLevel ::
                 sf == seed
  {
    assert Paired(levels, key);
  }

  lemma KeySentKeepsInv(e: Env, session: SessionState, sa: SaState, sf: int, key: Bytes, c: Clock)
    requires e.WellFormed() && SaInv(e, sa)
    ensures SaInv(e, KeySent(e.sa, e.session.timeout, e.hmac, session, sa, sf, key, c).sa)
  {
    var sa' := KeySent(e.sa, e.session.timeout, e.hmac, session, sa, sf, key, c).sa;
    if sa' != sa {
      PairOf(e.sa.levels, sf);
      assert SeedOk(e.sa.levels, sa, e.sa.levels[sf].requestSeed);
      forall level
        ensures LimiterOk(e.sa.limits.maxAttempts, sa', level)
      {
        assert LimiterOk(e.sa.limits.maxAttempts, sa, level);
      }
      forall x
        ensures SeedOk(e.sa.levels, sa', x)
      {
        assert SeedOk(e.sa.levels, sa, x);
      }
    }
  }

  /** Every request keeps the limiters' invariant. */
  lemma SaInvStep(e: Env, s: EcuState, i: Input)
    requires e.WellFormed() && SaInv(e, s.sa)
    ensures SaInv(e, Step(e, s, i).state.sa)
  {
    var s0 := Observed(e, s, i.clock.t0);
    match Decoded(i.request) {
      case None =>
      case Some(r) =>
        match r {
          case RequestSeed(sf) => SeedRequestedKeepsInv(e, s0.session, s.sa, sf, i.random, i.clock);
          case SendKey(sf, key) => KeySentKeepsInv(e, s0.session, s.sa, sf, key, i.clock);
          case _ => ClearSaKeepsInv(e, s.sa);
        }
    }
  }

  lemma SaInvAt(e: Env, r: Run, n: nat)
    requires e.WellFormed() && IsBehaviour(e, r) && n < |r.inputs| && SaInv(e, r.states[n].sa)
    ensures SaInv(e, r.states[n + 1].sa)
  {
    assert IsStep(e, r, n);
    SaInvStep(e, r.states[n], r.inputs[n]);
  }

  /** In every reachable state the limiters' invariant holds. */
  lemma {:induction false} SaInvAlways(e: Env, r: Run, n: nat)
    requires e.WellFormed() && IsBehaviour(e, r) && n <= |r.inputs|
    ensures SaInv(e, r.states[n].sa)
  {
    if n > 0 {
      SaInvAlways(e, r, n - 1);
      SaInvAt(e, r, n - 1);
    }
  }

  lemma InvSessionControl(e: Env, s: EcuState, i: Input, target: int)
    requires Inv(e, s)
    ensures Inv(e, OnSessionControl(e, s, i, target).state)
  {
    EmitKeepsLogOk(e.hash, e.genesis, s.log, SessionEvent("SESSION_START", i.conn, "success"), i.stamp);
    EmitKeepsLogOk(e.hash, e.genesis, s.log, SessionEvent("SESSION_END", i.conn, "success"), i.stamp);
  }

  lemma InvRequestSeed(e: Env, s: EcuState, i: Input, sf: int)
    requires Inv(e, s)
    ensures Inv(e, OnRequestSeed(e, s, i, sf).state)
  {
  }

  lemma InvSendKey(e: Env, s: EcuState, i: Input, sf: int, key: Bytes)
    requires Inv(e, s)
    ensures Inv(e, OnSendKey(e, s, i, sf, key).state)
  {
    var s0 := Observed(e, s, i.clock.t0);
    var r := KeySent(e.sa, e.session.timeout, e.hmac, s0.session, s0.sa, sf, key, i.clock);
    match r.outcome {
      case Accepted(level) => EmitKeepsLogOk(e.hash, e.genesis, s.log, SuccessEvent(0x27, level, i.conn), i.stamp);
      case Rejected(nrc) => EmitKeepsLogOk(e.hash, e.genesis, s.log, FailureEvent(0x27, nrc, i.conn), i.stamp);
    }
  }

  lemma InvVerifyProof(e: Env, s: EcuState, i: Input, proof: Bytes)
    requires Inv(e, s)
    ensures Inv(e, OnVerifyProof(e, s, i, proof).state)
  {
    var s0 := Observed(e, s, i.clock.t0);
    var r := ProofVerified(e.certs, s0.session, s0.auth, proof, s0.session.session, i.clock.t1);
    match r.outcome {
      case Accepted(level) => EmitKeepsLogOk(e.hash, e.genesis, s.log, SuccessEvent(0x29, level, i.conn), i.stamp);
      case Rejected(nrc) => EmitKeepsLogOk(e.hash, e.genesis, s.log, FailureEvent(0x29, nrc, i.conn), i.stamp);
    }
  }

  lemma InvCommunicateCertificate(e: Env, s: EcuState, i: Input, pem: string)
    requires Inv(e, s)
    ensures Inv(e, OnCommunicateCertificate(e, s, i, pem).state)
  {
  }

  lemma InvCheckAccess(e: Env, s: EcuState, i: Input, level: AccessLevel)
    requires Inv(e, s)
    ensures Inv(e, OnCheckAccess(e, s, i, level).state)
  {
  }

  /** Every request keeps the mechanism, owner and log invariants, under every policy. */
  lemma InvStep(e: Env, s: EcuState, i: Input)
    requires Inv(e, s)
    ensures Inv(e, Step(e, s, i).state)
  {
    match Decoded(i.request) {
      case None =>
      case Some(r) =>
        match r {
          case SessionControl(target) => InvSessionControl(e, s, i, target);
          case InjectTamper =>
            EmitKeepsLogOk(e.hash, e.genesis, s.log, SessionEvent("SESSION_TAMPER_RESET", i.conn, "tamper"), i.stamp);
          case RequestSeed(sf) => InvRequestSeed(e, s, i, sf);
          case SendKey(sf, key) => InvSendKey(e, s, i, sf, key);
          case CommunicateCertificate(pem) => InvCommunicateCertificate(e, s, i, pem);
          case VerifyProof(proof) => InvVerifyProof(e, s, i, proof);
          case CheckAccess(level) => InvCheckAccess(e, s, i, level);
          case _ =>
        }
    }
  }

  lemma InvAt(e: Env, r: Run, n: nat)
    requires IsBehaviour(e, r) && n < |r.inputs| && Inv(e, r.states[n])
    ensures Inv(e, r.states[n + 1])
  {
    assert IsStep(e, r, n);
    InvStep(e, r.states[n], r.inputs[n]);
  }

  /** In every reachable state the mechanism, owner and log invariants hold. */
  lemma {:induction false} InvAlways(e: Env, r: Run, n: nat)
    requires IsBehaviour(e, r) && n <= |r.inputs|
    ensures Inv(e, r.states[n])
  {
    if n > 0 {
      InvAlways(e, r, n - 1);
      InvAt(e, r, n - 1);
    }
  }

  /** In every reachable state at most one level beyond READ_ONLY passes the gate, in whatever session it is asked. */
  lemma OneLevelAtATime(e: Env, r: Run, n: nat, a: AccessLevel, b: AccessLevel, sessionA: int, sessionB: int)
    requires IsBehaviour(e, r) && n <= |r.inputs|
    requires a != READ_ONLY && AccessGranted(r.states[n], a, sessionA)
    requires b != READ_ONLY && AccessGranted(r.states[n], b, sessionB)
    ensures a == b
  {
    InvAlways(e, r, n);
  }

  /** In every reachable state the log and all its prefixes are chains from the genesis hash. */
  lemma LogAlwaysVerifies(e: Env, r: Run, n: nat, k: nat)
    requires IsBehaviour(e, r) && n <= |r.inputs| && k <= |r.states[n].log.entries|
    ensures IsChain(e.hash, e.genesis, r.states[n].log.entries[..k])
    ensures r.states[n].log.prevHash == Head(e.hash, e.genesis, r.states[n].log.entries)
  {
    InvAlways(e, r, n);
    PrefixChained(e.hash, e.genesis, r.states[n].log.entries, k);
    ChainedIsChain(e.hash, e.genesis, r.states[n].log.entries[..k]);
  }

  /** Whatever verifies and ends in the hash the logger remembers is its log, or breaks the hash function. */
  lemma LogCannotBeForged(e: Env, r: Run, n: nat, forged: seq<Entry>)
    requires IsBehaviour(e, r) && n <= |r.inputs|
    requires IsChain(e.hash, e.genesis, forged) && Head(e.hash, e.genesis, forged) == r.states[n].log.prevHash
    ensures var log := r.states[n].log.entries;
            forged == log || Proves(e.hash, e.genesis, Compare(forged, log))
  {
    InvAlways(e, r, n);
    ChainedIsChain(e.hash, e.genesis, forged);
    TamperEvidence(e.hash, e.genesis, forged, r.states[n].log.entries);
  }
}
