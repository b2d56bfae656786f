/** Who owns an elevated session, how ownership moves, and how Programming is reached. */
module Ownership {
  import opened Common
  import opened Session
  import opened Ecu
  import opened Runs
  import opened Register
  import opened History
  import opened Invariants
  import opened Provenance

  predicate ElevatesAt(e: Env, r: Run, k: int)
    requires Shaped(r) && 0 <= k < |r.inputs|
  {
    r.responses[k].SessionPositive? && !ClearsAt(e, r, k)
  }

  predicate ReleasesAt(e: Env, r: Run, k: int)
    requires Shaped(r) && 0 <= k < |r.inputs|
  {
    ClearsAt(e, r, k) || r.responses[k] == SessionInfo(DEFAULT)
  }

  /** Connection `c` sent the last accepted elevating 0x10 before `n`, and nothing has released the session since. */
  ghost predicate HeldSince(e: Env, r: Run, j: int, n: int, c: nat)
    requires Shaped(r)
  {
    && 0 <= j < n <= |r.inputs|
    && ElevatesAt(e, r, j) && r.inputs[j].conn == c
    && forall k | j < k < n :: !ElevatesAt(e, r, k) && !ReleasesAt(e, r, k)
  }

  function WriteOwner(e: Env, r: Run, k: int): Write<Option<nat>>
    requires Shaped(r) && 0 <= k < |r.inputs|
  {
    OwnerWrite(e, r.states[k], r.inputs[k], r.responses[k])
  }

  /** The owner is the connection of the last accepted elevating 0x10 that nothing has released. */
  lemma OwnerIsHistory(e: Env, r: Run, n: nat, c: nat)
    requires IsBehaviour(e, r) && n <= |r.inputs|
    ensures r.states[n].owner == Some(c) <==> exists j :: HeldSince(e, r, j, n, c)
  {
    var vals := seq(|r.states|, k requires 0 <= k < |r.states| => r.states[k].owner);
    var evs := seq(|r.inputs|, k requires 0 <= k < |r.inputs| => WriteOwner(e, r, k));
    assert Follows(vals, evs) by {
      forall k | 0 <= k < |evs|
        ensures vals[k + 1] == if evs[k].Put? then evs[k].value else vals[k]
      {
        TracksAt(e, r, k);
      }
    }
    Holds(vals, evs, n);
    forall j
      ensures LastWrite(evs, j, n) && evs[j].value == Some(c) <==> HeldSince(e, r, j, n, c)
    {
      HeldIsLastWrite(e, r, evs, j, n, c);
    }
  }

  lemma HeldIsLastWrite(e: Env, r: Run, evs: seq<Write<Option<nat>>>, j: int, n: int, c: nat)
    requires Shaped(r) && |evs| == |r.inputs| && forall k | 0 <= k < |evs| :: evs[k] == WriteOwner(e, r, k)
    ensures LastWrite(evs, j, n) && evs[j].value == Some(c) <==> HeldSince(e, r, j, n, c)
  {
    assert forall k | 0 <= k < |evs| :: evs[k].Keep? <==> !ElevatesAt(e, r, k) && !ReleasesAt(e, r, k);
  }

  /** An elevated session always has an owner, who elevated it. */
  lemma ElevatedIsOwned(e: Env, r: Run, n: nat)
    requires IsBehaviour(e, r) && n <= |r.inputs| && r.states[n].session.Elevated()
    ensures r.states[n].owner.Some? && exists j :: HeldSince(e, r, j, n, r.states[n].owner.value)
  {
    InvAlways(e, r, n);
    OwnerIsHistory(e, r, n, r.states[n].owner.value);
  }

  lemma TakingStep(e: Env, s: EcuState, i: Input, c: nat)
    requires s.owner != Some(c) && Step(e, s, i).state.owner == Some(c)
    ensures !Observed(e, s, i.clock.t0).session.Elevated() && i.conn == c
  {
  }

  /** Ownership passes from one connection to another only through an observed Default session. */
  lemma {:induction false} HandoverThroughDefault(e: Env, r: Run, m: nat, n: nat, a: nat, b: nat)
    requires IsBehaviour(e, r) && m < n <= |r.inputs|
    requires a != b && r.states[m].owner == Some(a) && r.states[n].owner == Some(b)
    ensures exists k :: m <= k < n && SessionSeen(e, r, k) == DEFAULT && r.inputs[k].conn == b
    decreases n
  {
    if r.states[n - 1].owner == Some(b) {
      HandoverThroughDefault(e, r, m, n - 1, a, b);
      var k :| m <= k < n - 1 && SessionSeen(e, r, k) == DEFAULT && r.inputs[k].conn == b;
    } else {
      assert IsStep(e, r, n - 1);
      TakingStep(e, r.states[n - 1], r.inputs[n - 1], b);
      assert SessionSeen(e, r, n - 1) == DEFAULT;
    }
  }

  lemma ProgrammingStep(e: Env, s: EcuState, i: Input)
    requires OwnerInv(s) && Step(e, s, i).state.session.session == PROGRAMMING
    ensures Step(e, s, i).state.session == s.session
         || Observed(e, s, i.clock.t0).session.session in {EXTENDED, PROGRAMMING}
  {
  }

  /** From step `j` on, up to step `n`, the session is never Default, expired or not. */
  predicate NeverDefault(e: Env, r: Run, j: int, n: int)
    requires 0 <= j <= n < |r.inputs| && Shaped(r)
  {
    forall k | j <= k <= n :: SessionSeen(e, r, k) != DEFAULT
  }

  /** Seen in Programming at one request, the session was seen in Extended or Programming at the request before. */
  lemma ProgrammingAt(e: Env, r: Run, n: nat)
    requires IsRun(e, r) && n + 1 < |r.inputs| && SessionSeen(e, r, n + 1) == PROGRAMMING
    ensures SessionSeen(e, r, n) in {EXTENDED, PROGRAMMING}
  {
    assert IsStep(e, r, n);
    InvAlways(e, r, n);
    ProgrammingStep(e, r.states[n], r.inputs[n]);
    assert r.inputs[n].clock.t0 <= r.inputs[n + 1].clock.t0;
  }

  /** For every transition table, a Programming session was an Extended session since it was last Default. */
  lemma {:induction false} ProgrammingThroughExtended(e: Env, r: Run, n: nat)
    requires IsRun(e, r) && n < |r.inputs| && SessionSeen(e, r, n) == PROGRAMMING
    ensures exists j :: 0 <= j < n && SessionSeen(e, r, j) == EXTENDED && NeverDefault(e, r, j, n)
  {
    if n > 0 {
      ProgrammingAt(e, r, n - 1);
      if SessionSeen(e, r, n - 1) == EXTENDED {
        assert NeverDefault(e, r, n - 1, n);
      } else {
        ProgrammingThroughExtended(e, r, n - 1);
        var j :| 0 <= j < n - 1 && SessionSeen(e, r, j) == EXTENDED && NeverDefault(e, r, j, n - 1);
        assert NeverDefault(e, r, j, n);
      }
    }
  }

  /** Unless a Default session is seen in between, the connection that earned access still owns the session it is used in. */
  lemma EarnerStillOwns(e: Env, r: Run, j: nat, n: nat, level: AccessLevel)
    requires IsBehaviour(e, r) && n < |r.inputs| && Earned(e, r, j, n, level) && NeverDefault(e, r, j + 1, n)
    ensures r.states[n].owner == Some(r.inputs[j].conn)
  {
    TracksAt(e, r, j);
    if r.responses[j].KeyPositive? {
      AcceptedKey(e, r, j, level);
    } else {
      AcceptedProof(e, r, j, level);
    }
    InvAlways(e, r, n);
    assert SessionSeen(e, r, n) != DEFAULT;
    var a, b := r.inputs[j].conn, r.states[n].owner.value;
    if a != b {
      HandoverThroughDefault(e, r, j + 1, n, a, b);
    }
  }

  lemma TouchedByOwner(e: Env, s: EcuState, i: Input)
    ensures var out := Step(e, s, i);
            ActivityWrite(s, i, out.response).Put? && out.state.session.Elevated() ==> out.state.owner == Some(i.conn)
  {
  }

  /** The step resets no timer, and if the session is elevated afterwards, session and owner are as before. */
  ghost predicate Untouched(s: EcuState, i: Input, out: StepResult) {
    ActivityWrite(s, i, out.response).Keep? && out.state.session.Elevated() ==>
      out.state.session == s.session && out.state.owner == s.owner
  }

  lemma UntouchedSessionControl(e: Env, s: EcuState, i: Input, target: int)
    ensures Untouched(s, i, OnSessionControl(e, s, i, target))
  {
  }

  lemma UntouchedRequestSeed(e: Env, s: EcuState, i: Input, sf: int)
    ensures Untouched(s, i, OnRequestSeed(e, s, i, sf))
  {
  }

  lemma UntouchedStays(e: Env, s: EcuState, i: Input)
    ensures Untouched(s, i, Step(e, s, i))
  {
    match Decoded(i.request) {
      case None =>
      case Some(r) =>
        match r {
          case SessionControl(target) => UntouchedSessionControl(e, s, i, target);
          case RequestSeed(sf) => UntouchedRequestSeed(e, s, i, sf);
          case _ =>
        }
    }
  }

  /** Step `j` is the owner's, and reset the inactivity timer to the reading it has before `n`. */
  ghost predicate OwnerTouch(r: Run, j: int, n: int)
    requires Shaped(r)
  {
    && 0 <= j < n <= |r.inputs|
    && r.states[n].owner == Some(r.inputs[j].conn)
    && ActivityWrite(r.states[j], r.inputs[j], r.responses[j]) == Put(r.states[n].session.lastActivity)
  }

  lemma {:induction false} ElevatedWasTouched(e: Env, r: Run, n: nat)
    requires IsBehaviour(e, r) && n <= |r.inputs| && r.states[n].session.Elevated()
    ensures exists j :: OwnerTouch(r, j, n)
  {
    if n > 0 {
      assert IsStep(e, r, n - 1);
      TouchedByOwner(e, r.states[n - 1], r.inputs[n - 1]);
      UntouchedStays(e, r.states[n - 1], r.inputs[n - 1]);
      TracksAt(e, r, n - 1);
      if ActivityWrite(r.states[n - 1], r.inputs[n - 1], r.responses[n - 1]).Keep? {
        ElevatedWasTouched(e, r, n - 1);
        var j :| OwnerTouch(r, j, n - 1);
        assert OwnerTouch(r, j, n);
      } else {
        assert OwnerTouch(r, n - 1, n);
      }
    }
  }

  /** A session seen elevated was touched by its owner less than the timeout ago. */
  lemma SeenElevatedIsFresh(e: Env, r: Run, n: nat)
    requires IsRun(e, r) && n < |r.inputs| && SessionSeen(e, r, n) != DEFAULT
    ensures exists j :: OwnerTouch(r, j, n) && r.inputs[n].clock.t0 - r.inputs[j].clock.t3 < e.session.timeout
  {
    ElevatedWasTouched(e, r, n);
    var j :| OwnerTouch(r, j, n);
    assert r.inputs[j].clock.Ordered();
  }
}
