/** The lock between 0x27 and 0x29 as the history of the run. */
module MechanismLock {
  import opened Ecu
  import opened Runs
  import opened Register
  import opened History
  import opened Provenance

  /** A seed or a challenge was handed out. */
  predicate HandsOut(r: Run, k: int)
    requires Shaped(r) && 0 <= k < |r.inputs|
  {
    r.responses[k].SeedPositive? || r.responses[k].CertPositive?
  }

  /** Step `j` handed out the last seed or challenge before `n`, of the mechanism `used`, and nothing was cleared since. */
  ghost predicate UsedSince(e: Env, r: Run, j: int, n: int, used: Mechanism)
    requires Shaped(r)
  {
    && 0 <= j < n <= |r.inputs|
    && HandsOut(r, j) && used == (if r.responses[j].SeedPositive? then Mech27 else Mech29)
    && forall k | j < k < n :: !HandsOut(r, k) && !ClearsAt(e, r, k)
  }

  function WriteMechanism(e: Env, r: Run, k: int): Write<Mechanism>
    requires Shaped(r) && 0 <= k < |r.inputs|
  {
    MechanismWrite(e, r.states[k], r.inputs[k], r.responses[k])
  }

  lemma UsedIsLastWrite(e: Env, r: Run, evs: seq<Write<Mechanism>>, j: int, n: int, used: Mechanism)
    requires used != Unlocked
    requires Shaped(r) && |evs| == |r.inputs| && forall k | 0 <= k < |evs| :: evs[k] == WriteMechanism(e, r, k)
    ensures LastWrite(evs, j, n) && evs[j].value == used <==> UsedSince(e, r, j, n, used)
  {
    assert forall k | 0 <= k < |evs| :: evs[k].Keep? <==> !HandsOut(r, k) && !ClearsAt(e, r, k);
  }

  /** A mechanism holds the lock exactly while its seed or challenge is the last one handed out and nothing has cleared it. */
  lemma MechanismIsHistory(e: Env, r: Run, n: nat, used: Mechanism)
    requires IsBehaviour(e, r) && n <= |r.inputs| && used != Unlocked
    ensures r.states[n].mechanism == used <==> exists j :: UsedSince(e, r, j, n, used)
  {
    var vals := seq(|r.states|, k requires 0 <= k < |r.states| => r.states[k].mechanism);
    var evs := seq(|r.inputs|, k requires 0 <= k < |r.inputs| => WriteMechanism(e, r, k));
    assert Follows(vals, evs) by {
      forall k | 0 <= k < |evs|
        ensures vals[k + 1] == if evs[k].Put? then evs[k].value else vals[k]
      {
        TracksAt(e, r, k);
      }
    }
    Holds(vals, evs, n);
    forall j
      ensures LastWrite(evs, j, n) && evs[j].value == used <==> UsedSince(e, r, j, n, used)
    {
      UsedIsLastWrite(e, r, evs, j, n, used);
    }
  }
}
