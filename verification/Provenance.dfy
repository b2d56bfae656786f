/** Access is exactly what the run's history justifies. */
module Provenance {
  import opened Common
  import opened Session
  import opened SecurityAccess
  import opened Ecu
  import opened Runs
  import opened Register
  import opened History
  import opened Invariants

  predicate ClearsAt(e: Env, r: Run, n: int)
    requires Shaped(r) && 0 <= n < |r.inputs|
  {
    Clears(e, r.states[n], r.inputs[n], r.responses[n])
  }

  lemma TracksAt(e: Env, r: Run, n: nat)
    requires IsBehaviour(e, r) && n < |r.inputs|
    ensures Tracks(e, r.states[n], r.inputs[n], Out(r, n))
  {
    assert IsStep(e, r, n);
    StepTracks(e, r.states[n], r.inputs[n]);
  }

  /** The key accepted at step `j` for `level` is the latest one before `n`, and nothing was cleared since. */
  ghost predicate Live27(e: Env, r: Run, j: int, n: int, level: AccessLevel)
    requires Shaped(r)
  {
    && 0 <= j < n <= |r.inputs|
    && r.responses[j] == KeyPositive(level)
    && forall k | j < k < n :: !r.responses[k].KeyPositive? && !ClearsAt(e, r, k)
  }

  /** The proof accepted at step `j` for `level` is the latest before `n`, and nothing was cleared or deauthenticated since. */
  ghost predicate Live29(e: Env, r: Run, j: int, n: int, level: AccessLevel)
    requires Shaped(r)
  {
    && 0 <= j < n <= |r.inputs|
    && r.responses[j] == ProofPositive(level)
    && forall k | j < k < n :: !r.responses[k].ProofPositive? && !r.responses[k].DeauthPositive? && !ClearsAt(e, r, k)
  }

  function Write27(e: Env, r: Run, k: int): Write<Option<AccessLevel>>
    requires Shaped(r) && 0 <= k < |r.inputs|
  {
    Grant27Write(e, r.states[k], r.inputs[k], r.responses[k])
  }

  function Write29(e: Env, r: Run, k: int): Write<Option<AccessLevel>>
    requires Shaped(r) && 0 <= k < |r.inputs|
  {
    Grant29Write(e, r.states[k], r.inputs[k], r.responses[k])
  }

  /** The 0x27 grant is the level of the latest accepted key that nothing has cleared. */
  lemma Grant27IsHistory(e: Env, r: Run, n: nat, level: AccessLevel)
    requires IsBehaviour(e, r) && n <= |r.inputs|
    ensures r.states[n].sa.granted == Some(level) <==> exists j :: Live27(e, r, j, n, level)
  {
    var vals := seq(|r.states|, k requires 0 <= k < |r.states| => r.states[k].sa.granted);
    var evs := seq(|r.inputs|, k requires 0 <= k < |r.inputs| => Write27(e, r, k));
    assert Follows(vals, evs) by {
      forall k | 0 <= k < |evs|
        ensures vals[k + 1] == if evs[k].Put? then evs[k].value else vals[k]
      {
        TracksAt(e, r, k);
      }
    }
    Holds(vals, evs, n);
    forall j
      ensures LastWrite(evs, j, n) && evs[j].value == Some(level) <==> Live27(e, r, j, n, level)
    {
      Live27IsLastWrite(e, r, evs, j, n, level);
    }
  }

  lemma Live27IsLastWrite(e: Env, r: Run, evs: seq<Write<Option<AccessLevel>>>, j: int, n: int, level: AccessLevel)
    requires Shaped(r) && |evs| == |r.inputs| && forall k | 0 <= k < |evs| :: evs[k] == Write27(e, r, k)
    ensures LastWrite(evs, j, n) && evs[j].value == Some(level) <==> Live27(e, r, j, n, level)
  {
    assert forall k | 0 <= k < |evs| :: evs[k].Keep? <==>
        !r.responses[k].KeyPositive? && !ClearsAt(e, r, k);
  }

  /** The 0x29 grant is the level of the latest accepted proof that nothing has cleared or deauthenticated. */
  lemma Grant29IsHistory(e: Env, r: Run, n: nat, level: AccessLevel)
    requires IsBehaviour(e, r) && n <= |r.inputs|
    ensures r.states[n].auth.granted == Some(level) <==> exists j :: Live29(e, r, j, n, level)
  {
    var vals := seq(|r.states|, k requires 0 <= k < |r.states| => r.states[k].auth.granted);
    var evs := seq(|r.inputs|, k requires 0 <= k < |r.inputs| => Write29(e, r, k));
    assert Follows(vals, evs) by {
      forall k | 0 <= k < |evs|
        ensures vals[k + 1] == if evs[k].Put? then evs[k].value else vals[k]
      {
        TracksAt(e, r, k);
      }
    }
    Holds(vals, evs, n);
    forall j
      ensures LastWrite(evs, j, n) && evs[j].value == Some(level) <==> Live29(e, r, j, n, level)
    {
      Live29IsLastWrite(e, r, evs, j, n, level);
    }
  }

  lemma Live29IsLastWrite(e: Env, r: Run, evs: seq<Write<Option<AccessLevel>>>, j: int, n: int, level: AccessLevel)
    requires Shaped(r) && |evs| == |r.inputs| && forall k | 0 <= k < |evs| :: evs[k] == Write29(e, r, k)
    ensures LastWrite(evs, j, n) && evs[j].value == Some(level) <==> Live29(e, r, j, n, level)
  {
    assert forall k | 0 <= k < |evs| :: evs[k].Keep? <==>
        !r.responses[k].ProofPositive? && !r.responses[k].DeauthPositive? && !ClearsAt(e, r, k);
  }

  /** The session an access check at step `n` sees. */
  function SessionSeen(e: Env, r: Run, n: nat): int
    requires n < |r.states| && n < |r.inputs|
  {
    Observed(e, r.states[n], r.inputs[n].clock.t0).session.session
  }

  /** What the history says about access to `level` at step `n`. */
  ghost predicate Justified(e: Env, r: Run, n: nat, level: AccessLevel)
    requires Shaped(r) && n < |r.inputs|
  {
    match level
    case READ_ONLY => true
    case CALIBRATION => SessionSeen(e, r, n) == EXTENDED && exists j :: Live27(e, r, j, n, CALIBRATION)
    case ECU_PROGRAMMING => SessionSeen(e, r, n) == PROGRAMMING && exists j :: Live27(e, r, j, n, ECU_PROGRAMMING)
    case ENGINEERING => SessionSeen(e, r, n) == EXTENDED && exists j :: Live29(e, r, j, n, ENGINEERING)
    case FULL_ACCESS => SessionSeen(e, r, n) == PROGRAMMING && exists j :: Live29(e, r, j, n, FULL_ACCESS)
    case Custom(_) => false
  }

  /** `check_access` grants exactly what the history justifies. */
  lemma AccessIsHistory(e: Env, r: Run, n: nat, level: AccessLevel)
    requires IsBehaviour(e, r) && n < |r.inputs| && r.inputs[n].request == CheckAccess(level)
    ensures r.responses[n] == AccessInfo(Justified(e, r, n, level))
  {
    assert IsStep(e, r, n);
    Grant27IsHistory(e, r, n, level);
    Grant29IsHistory(e, r, n, level);
  }

  lemma KeyAcceptedStep(e: Env, s: EcuState, i: Input)
    requires Step(e, s, i).response.KeyPositive?
    ensures i.request.SendKey? && i.request.keySubfunction in e.sa.levels
    ensures var cfg := e.sa.levels[i.request.keySubfunction];
            && cfg.KeyLevel? && Step(e, s, i).response == KeyPositive(cfg.accessLevel)
            && Step(e, s, i).state.session.session == cfg.requiredSession
            && (cfg.requiredSession != DEFAULT ==> s.owner == Some(i.conn))
  {
  }

  /** An accepted key came in the session its level requires, and from the owner if that session is elevated. */
  lemma AcceptedKey(e: Env, r: Run, j: nat, level: AccessLevel)
    requires IsBehaviour(e, r) && j < |r.inputs| && r.responses[j] == KeyPositive(level)
    ensures r.inputs[j].request.SendKey? && r.inputs[j].request.keySubfunction in e.sa.levels
    ensures var cfg := e.sa.levels[r.inputs[j].request.keySubfunction];
            && cfg.KeyLevel? && cfg.accessLevel == level && r.states[j + 1].session.session == cfg.requiredSession
            && (cfg.requiredSession != DEFAULT ==> r.states[j].owner == Some(r.inputs[j].conn))
  {
    assert IsStep(e, r, j);
    KeyAcceptedStep(e, r.states[j], r.inputs[j]);
  }

  /** An accepted proof came from the session's owner, and its level is the one of the session it was presented in. */
  lemma AcceptedProof(e: Env, r: Run, j: nat, level: AccessLevel)
    requires IsBehaviour(e, r) && j < |r.inputs| && r.responses[j] == ProofPositive(level)
    ensures r.inputs[j].request.VerifyProof? && r.states[j].owner == Some(r.inputs[j].conn)
    ensures r.states[j + 1].session.session == SessionSeen(e, r, j)
    ensures SessionSeen(e, r, j) == (if level == FULL_ACCESS then PROGRAMMING else EXTENDED)
    ensures level in {ENGINEERING, FULL_ACCESS}
  {
    assert IsStep(e, r, j);
    InvAlways(e, r, j);
  }

  /** The gate asks for each 0x27 level in the session in which the policy hands out its seeds. */
  predicate GateAgrees(levels: map<int, LevelConfig>) {
    forall sf | sf in levels ::
      && (levels[sf].accessLevel == CALIBRATION ==> levels[sf].requiredSession == EXTENDED)
      && (levels[sf].accessLevel == ECU_PROGRAMMING ==> levels[sf].requiredSession == PROGRAMMING)
  }

  /** The step at which access to `level` was earned. */
  ghost predicate Earned(e: Env, r: Run, j: int, n: nat, level: AccessLevel)
    requires Shaped(r) && n < |r.inputs|
  {
    && 0 <= j < n
    && (Live27(e, r, j, n, level) || Live29(e, r, j, n, level))
    && r.states[j].owner == Some(r.inputs[j].conn)
    && r.states[j + 1].session.session == SessionSeen(e, r, n)
  }

  /**
   * Access beyond READ_ONLY was earned earlier: the then owner had a key or a
   * proof for exactly this level accepted, in a session of the same kind as the
   * one that is open now, and nothing has been cleared (nor, for 0x29,
   * deauthenticated) since.
   */
  lemma AccessWasEarned(e: Env, r: Run, n: nat, level: AccessLevel)
    requires GateAgrees(e.sa.levels) && IsBehaviour(e, r) && n < |r.inputs|
    requires r.inputs[n].request == CheckAccess(level) && level != READ_ONLY && r.responses[n] == AccessInfo(true)
    ensures exists j :: Earned(e, r, j, n, level)
  {
    AccessIsHistory(e, r, n, level);
    if level == CALIBRATION || level == ECU_PROGRAMMING {
      var j :| Live27(e, r, j, n, level);
      AcceptedKey(e, r, j, level);
      assert Earned(e, r, j, n, level);
    } else {
      var j :| Live29(e, r, j, n, level);
      AcceptedProof(e, r, j, level);
      assert Earned(e, r, j, n, level);
    }
  }
}
