/** Every key is compared with one seed, and every seed serves one comparison. */
module Seeds {
  import opened Common
  import opened Ecu
  import opened Runs
  import opened Register
  import opened History
  import opened Provenance

  predicate IssuesAt(r: Run, k: int, sf: int)
    requires Shaped(r) && 0 <= k < |r.inputs|
  {
    Decoded(r.inputs[k].request) == Some(RequestSeed(sf)) && r.responses[k].SeedPositive?
  }

  predicate ComparesAt(e: Env, r: Run, k: int, sf: int)
    requires Shaped(r) && 0 <= k < |r.inputs|
  {
    Compares(e, r.inputs[k], r.responses[k], sf)
  }

  /** Step `j` issued `seed` for `sf`; before `n` it was not replaced, compared or cleared. */
  ghost predicate Outstanding(e: Env, r: Run, j: int, n: int, sf: int, seed: Bytes)
    requires Shaped(r)
  {
    && 0 <= j < n <= |r.inputs|
    && IssuesAt(r, j, sf) && r.responses[j].seed == seed
    && forall k | j < k < n :: !IssuesAt(r, k, sf) && !ComparesAt(e, r, k, sf) && !ClearsAt(e, r, k)
  }

  function WriteSeed(e: Env, r: Run, k: int, sf: int): Write<Option<Bytes>>
    requires Shaped(r) && 0 <= k < |r.inputs|
  {
    SeedWrite(e, r.states[k], r.inputs[k], r.responses[k], sf)
  }

  lemma OutstandingIsLastWrite(e: Env, r: Run, evs: seq<Write<Option<Bytes>>>, j: int, n: int, sf: int, seed: Bytes)
    requires Shaped(r) && |evs| == |r.inputs| && forall k | 0 <= k < |evs| :: evs[k] == WriteSeed(e, r, k, sf)
    ensures LastWrite(evs, j, n) && evs[j].value == Some(seed) <==> Outstanding(e, r, j, n, sf, seed)
  {
    assert forall k | 0 <= k < |evs| :: evs[k].Keep? <==>
        !IssuesAt(r, k, sf) && !ComparesAt(e, r, k, sf) && !ClearsAt(e, r, k);
  }

  /** The pending seed of a subfunction is the latest one issued for it that was not compared or cleared. */
  lemma SeedIsHistory(e: Env, r: Run, n: nat, sf: int, seed: Bytes)
    requires IsBehaviour(e, r) && n <= |r.inputs|
    ensures PendingSeed(r.states[n], sf) == Some(seed) <==> exists j :: Outstanding(e, r, j, n, sf, seed)
  {
    var vals := seq(|r.states|, k requires 0 <= k < |r.states| => PendingSeed(r.states[k], sf));
    var evs := seq(|r.inputs|, k requires 0 <= k < |r.inputs| => WriteSeed(e, r, k, sf));
    assert Follows(vals, evs) by {
      forall k | 0 <= k < |evs|
        ensures vals[k + 1] == if evs[k].Put? then evs[k].value else vals[k]
      {
        TracksAt(e, r, k);
        assert Applies(PendingSeed(r.states[k], sf), WriteSeed(e, r, k, sf), PendingSeed(r.states[k + 1], sf));
      }
    }
    Holds(vals, evs, n);
    forall j
      ensures LastWrite(evs, j, n) && evs[j].value == Some(seed) <==> Outstanding(e, r, j, n, sf, seed)
    {
      OutstandingIsLastWrite(e, r, evs, j, n, sf, seed);
    }
  }

  lemma ComparisonStep(e: Env, s: EcuState, i: Input, sf: int)
    requires Compares(e, i, Step(e, s, i).response, sf)
    ensures PendingSeed(s, sf).Some?
    ensures Step(e, s, i).response.KeyPositive? <==>
              i.request.key == e.hmac(PendingSeed(s, sf).value, e.sa.levels[i.request.keySubfunction].secret)
  {
  }

  /** The key of step `n` was compared with the HMAC of the seed issued at step `j`. */
  ghost predicate ComparedWith(e: Env, r: Run, j: int, n: int, sf: int)
    requires Shaped(r) && 0 <= n < |r.inputs| && KeyFor(e, r.inputs[n], sf)
  {
    && 0 <= j < n && IssuesAt(r, j, sf)
    && Outstanding(e, r, j, n, sf, r.responses[j].seed)
    && var expected := e.hmac(r.responses[j].seed, e.sa.levels[r.inputs[n].request.keySubfunction].secret);
       r.responses[n].KeyPositive? <==> r.inputs[n].request.key == expected
  }

  /** Every comparison uses the latest outstanding seed of the paired subfunction, and its verdict is the HMAC's. */
  lemma KeyIsComparedWithSeed(e: Env, r: Run, n: nat, sf: int)
    requires IsBehaviour(e, r) && n < |r.inputs| && ComparesAt(e, r, n, sf)
    ensures exists j :: ComparedWith(e, r, j, n, sf)
  {
    assert IsStep(e, r, n);
    ComparisonStep(e, r.states[n], r.inputs[n], sf);
    var seed := PendingSeed(r.states[n], sf).value;
    SeedIsHistory(e, r, n, sf, seed);
    var j :| Outstanding(e, r, j, n, sf, seed);
    assert ComparedWith(e, r, j, n, sf);
  }

  /** A key that is accepted or answered 0x35 was compared; there is no other way to either answer. */
  lemma VerdictMeansCompared(e: Env, r: Run, n: nat)
    requires IsBehaviour(e, r) && n < |r.inputs| && r.inputs[n].request.SendKey?
    requires r.responses[n].KeyPositive? || r.responses[n] == Negative(0x35)
    ensures exists sf :: ComparesAt(e, r, n, sf)
  {
    assert IsStep(e, r, n);
    var key := r.inputs[n].request.keySubfunction;
    assert ComparesAt(e, r, n, e.sa.levels[key].requestSeed);
  }

  /** Any two comparisons have different issued seeds; at one level the later seed was issued after the earlier comparison. */
  lemma SeedsAreUsedOnce(e: Env, r: Run, m: nat, n: nat, sf: int, sf': int)
    requires IsBehaviour(e, r) && m < n < |r.inputs| && ComparesAt(e, r, m, sf) && ComparesAt(e, r, n, sf')
    ensures exists i, j :: ComparedWith(e, r, i, m, sf) && ComparedWith(e, r, j, n, sf')
    ensures forall i, j | ComparedWith(e, r, i, m, sf) && ComparedWith(e, r, j, n, sf') :: i != j && (sf == sf' ==> m < j)
  {
    KeyIsComparedWithSeed(e, r, m, sf);
    KeyIsComparedWithSeed(e, r, n, sf');
    forall i, j | ComparedWith(e, r, i, m, sf) && ComparedWith(e, r, j, n, sf')
      ensures i != j && (sf == sf' ==> m < j)
    {
      if sf == sf' {
        assert ComparesAt(e, r, m, sf) && j != m;
      }
    }
  }
}
