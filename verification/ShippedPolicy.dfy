/** The policy file the repository ships, and why the assumptions of the other modules hold for it. */
module ShippedPolicy {
  import opened Common
  import opened Session
  import opened SecurityAccess
  import opened Authentication
  import opened AuditLog
  import opened Ecu
  import opened Bidirectional
  import opened Provenance
  import opened Sessions
  import opened Tightness

  const TRANSITIONS: map<int, set<int>> := map[1 := {2, 3}, 3 := {1, 2}, 2 := {1, 3}]

  const CALIBRATION_SECRET := "sim-calibration-secret-dev-only"

  const PROGRAMMING_SECRET := "sim-programming-secret-dev-only"

  const PAIRS := [
    LevelPair(0x01, 0x02, EXTENDED, CALIBRATION, CALIBRATION_SECRET),
    LevelPair(0x03, 0x04, PROGRAMMING, ECU_PROGRAMMING, PROGRAMMING_SECRET)]

  const LIMITS := LimitPolicy(3, 10.0, 3600.0)

  function ShippedEnv(hmac: (Bytes, string) -> Bytes, certs: CertBackend, genesis: string, hash: Hasher): Env {
    Env(SessionPolicy(TRANSITIONS, 300.0), SaPolicy(LevelTable(PAIRS), LIMITS), genesis, hmac, certs, hash)
  }

  /** The shipped policy satisfies everything the other modules assume of a policy. */
  lemma ShippedPolicyIsCovered(hmac: (Bytes, string) -> Bytes, certs: CertBackend, genesis: string, hash: Hasher)
    ensures DistinctPairs(PAIRS)
    ensures var e := ShippedEnv(hmac, certs, genesis, hash);
            && e.WellFormed() && GateAgrees(e.sa.levels) && HasCalibration(e, CALIBRATION_SECRET)
            && ReachesProgramming(e)
            && Guessable(e, Target(0x01, 0x02, EXTENDED, CALIBRATION, CALIBRATION_SECRET))
            && Guessable(e, Target(0x03, 0x04, PROGRAMMING, ECU_PROGRAMMING, PROGRAMMING_SECRET))
  {
    assert DistinctPairs(PAIRS);
    DistinctPairsAreWellFormed(PAIRS);
    assert PAIRS[..1] == [PAIRS[0]] && PAIRS[..1][..0] == [];
    var none: map<int, LevelConfig> := map[];
    assert LevelTable(PAIRS[..1]) == Rows(none, PAIRS[0]);
    assert LevelTable(PAIRS) == Rows(Rows(none, PAIRS[0]), PAIRS[1]);
  }

  /** The shipped transition graph, once the code has barred Default to Programming: every change but that one. */
  lemma ShippedGraph(s: SessionState, target: int, checked: Time, touched: Time)
    requires s.session in {1, 2, 3}
    ensures var from := Expired(300.0, s, checked).session;
            var t := Transited(SessionPolicy(TRANSITIONS, 300.0), s, target, checked, touched);
            && (t.outcome.Accepted? <==>
                  target in {1, 2, 3} && !(from == 1 && target == 2))
            && (t.outcome.Accepted? ==> t.state == SessionState(target, touched))
            && (t.outcome.Rejected? ==> t.outcome.nrc == 0x22 && t.state.session == from)
            && from == (if s.session != 1 && checked - s.lastActivity >= 300.0 then 1 else s.session)
  {
  }
}
