/** The guessing-rate bound over whole runs, and lockouts in wall-clock terms. */
module GuessingRate {
  import opened Common
  import opened SecurityAccess
  import opened Ecu
  import opened Runs
  import opened History
  import opened Invariants
  import opened RateLimit

  /** While a seed of the level is pending, the last wrong key is far enough back for another one. */
  ghost predicate Armed(e: Env, sa: SaState, level: AccessLevel, fails: seq<Time>, now: Time)
    requires e.WellFormed()
  {
    forall sf | sf in sa.pendingSeeds :: Concerns(e, sf, level) ==> Waited(e.sa.limits, fails, now)
  }

  /** A right or wrong key for the level was answered. */
  predicate Judged(e: Env, i: Input, response: Response, level: AccessLevel) {
    var evs := EventsOf(e, i, response, level);
    |evs| == 1 && !evs[0].Asked?
  }

  lemma JudgedIsCompared(e: Env, s: EcuState, i: Input, level: AccessLevel)
    requires Judged(e, i, Step(e, s, i).response, level)
    ensures i.request.SendKey? && i.request.keySubfunction in e.sa.levels
    ensures var cfg := e.sa.levels[i.request.keySubfunction];
            && cfg.KeyLevel? && cfg.accessLevel == level
            && Compares(e, i, Step(e, s, i).response, cfg.requestSeed)
            && cfg.requestSeed in s.sa.pendingSeeds
  {
  }

  /** A key of the level is judged only when the level is not locked and its seed is pending. */
  lemma JudgedWhenArmed(e: Env, s: EcuState, i: Input, level: AccessLevel)
    requires e.WellFormed() && SaInv(e, s.sa) && Judged(e, i, Step(e, s, i).response, level)
    ensures s.sa.Lockout(level).None?
    ensures exists sf :: sf in s.sa.pendingSeeds && Concerns(e, sf, level)
  {
    JudgedIsCompared(e, s, i, level);
    var key := i.request.keySubfunction;
    PairOf(e.sa.levels, key);
    var sf := e.sa.levels[key].requestSeed;
    assert SeedOk(e.sa.levels, s.sa, sf);
    assert Concerns(e, sf, level);
  }

  /** A seed of the level pending after a step was pending before, or has just been issued. */
  lemma PendingAfter(e: Env, s: EcuState, i: Input, level: AccessLevel, sf: int)
    requires e.WellFormed() && SaInv(e, s.sa)
    requires sf in Step(e, s, i).state.sa.pendingSeeds && Concerns(e, sf, level)
    ensures var out := Step(e, s, i);
            || (out.response.SeedPositive? && EventsOf(e, i, out.response, level) == [Asked(i.clock.t2)])
            || (sf in s.sa.pendingSeeds && !Judged(e, i, out.response, level))
  {
    var out := Step(e, s, i);
    StepTracks(e, s, i);
    assert Applies(PendingSeed(s, sf), SeedWrite(e, s, i, out.response, sf), PendingSeed(out.state, sf));
    SaInvStep(e, s, i);
    assert SeedOk(e.sa.levels, out.state.sa, sf);
    if Judged(e, i, out.response, level) {
      JudgedIsCompared(e, s, i, level);
      PairOf(e.sa.levels, i.request.keySubfunction);
    }
  }

  /** One step keeps the relation between the limiter, the wrong keys so far and the clock. */
  lemma RateKept(e: Env, s: EcuState, i: Input, level: AccessLevel, fails: seq<Time>, now: Time)
    requires e.WellFormed() && SaInv(e, s.sa) && i.clock.Ordered() && now <= i.clock.t0
    requires RateOk(e.sa.limits, LimiterOf(s.sa, level), fails, now) && Armed(e, s.sa, level, fails, now)
    ensures var out := Step(e, s, i);
            var after := FailsAfter(fails, EventsOf(e, i, out.response, level));
            && RateOk(e.sa.limits, LimiterOf(out.state.sa, level), after, i.clock.t3)
            && Armed(e, out.state.sa, level, after, i.clock.t3)
  {
    var p := e.sa.limits;
    var out := Step(e, s, i);
    var evs := EventsOf(e, i, out.response, level);
    assert LimiterOk(p.maxAttempts, s.sa, level);
    LimiterStep(e, s, i, level);
    if Judged(e, i, out.response, level) {
      JudgedWhenArmed(e, s, i, level);
    }
    if evs == [] {
      RateLater(p, LimiterOf(s.sa, level), fails, now, i.clock.t3);
    } else {
      assert evs == [evs[0]];
      ReactOne(p, LimiterOf(s.sa, level), evs[0]);
      RateStep(p, LimiterOf(s.sa, level), fails, now, evs[0], i.clock.t3);
    }
    forall sf | sf in out.state.sa.pendingSeeds && Concerns(e, sf, level)
      ensures Waited(p, FailsAfter(fails, evs), i.clock.t3)
    {
      PendingAfter(e, s, i, level, sf);
    }
  }

  /** The times of the wrong keys for `level` among the first `n` steps, since the last right one. */
  function WrongKeys(e: Env, r: Run, level: AccessLevel, n: nat): seq<Time>
    requires Shaped(r) && n <= |r.inputs|
  {
    if n == 0 then []
    else FailsAfter(WrongKeys(e, r, level, n - 1), EventsOf(e, r.inputs[n - 1], r.responses[n - 1], level))
  }

  lemma RateAt(e: Env, r: Run, level: AccessLevel, n: nat, fails: seq<Time>)
    requires e.WellFormed() && IsRun(e, r) && n < |r.inputs|
    requires RateOk(e.sa.limits, LimiterOf(r.states[n].sa, level), fails, Before(r, n))
    requires Armed(e, r.states[n].sa, level, fails, Before(r, n))
    ensures var after := FailsAfter(fails, EventsOf(e, r.inputs[n], r.responses[n], level));
            && RateOk(e.sa.limits, LimiterOf(r.states[n + 1].sa, level), after, Before(r, n + 1))
            && Armed(e, r.states[n + 1].sa, level, after, Before(r, n + 1))
  {
    SaInvAlways(e, r, n);
    assert IsStep(e, r, n);
    RateKept(e, r.states[n], r.inputs[n], level, fails, Before(r, n));
  }

  lemma RateAtStart(e: Env, r: Run, level: AccessLevel)
    requires e.WellFormed() && IsRun(e, r)
    ensures RateOk(e.sa.limits, LimiterOf(r.states[0].sa, level), [], r.start)
    ensures Armed(e, r.states[0].sa, level, [], r.start)
  {
  }

  lemma {:induction false} RateAlways(e: Env, r: Run, level: AccessLevel, n: nat)
    requires e.WellFormed() && IsRun(e, r) && n <= |r.inputs|
    ensures RateOk(e.sa.limits, LimiterOf(r.states[n].sa, level), WrongKeys(e, r, level, n), Before(r, n))
    ensures Armed(e, r.states[n].sa, level, WrongKeys(e, r, level, n), Before(r, n))
  {
    if n == 0 {
      RateAtStart(e, r, level);
    } else {
      RateAlways(e, r, level, n - 1);
      RateAt(e, r, level, n - 1, WrongKeys(e, r, level, n - 1));
    }
  }

  /** The least time from the first to the `n`-th wrong key. */
  function LeastTime(p: LimitPolicy, n: nat): Time
    requires p.maxAttempts >= 1 && n >= 1
  {
    var blocks := (n - 1) / p.maxAttempts;
    blocks as real * p.lockoutDuration + (n - 1 - blocks) as real * p.requiredDelay
  }

  lemma LeastTimeStep(p: LimitPolicy, n: nat)
    requires p.maxAttempts >= 1 && n >= 1
    ensures LeastTime(p, n + 1) == LeastTime(p, n) + Gap(p, n)
  {
    Count(n - 1, p.maxAttempts);
    var b := (n - 1) / p.maxAttempts;
    var d := n - 1 - b;
    assert (b + 1) as real * p.lockoutDuration == b as real * p.lockoutDuration + p.lockoutDuration;
    assert (d + 1) as real * p.requiredDelay == d as real * p.requiredDelay + p.requiredDelay;
  }

  lemma {:induction false} SpacedSum(p: LimitPolicy, fails: seq<Time>, n: nat)
    requires p.maxAttempts >= 1 && Spaced(p, fails) && 1 <= n <= |fails|
    ensures fails[n - 1] - fails[0] >= LeastTime(p, n)
  {
    if n == 1 {
      assert 0 / p.maxAttempts == 0;
    } else {
      SpacedSum(p, fails, n - 1);
      LeastTimeStep(p, n - 1);
      assert fails[n - 1] - fails[n - 2] >= Gap(p, n - 1);
    }
  }

  /**
   * The guessing rate of every run: without a right key in between, the k-th
   * wrong key for a level comes at least (k-1) div M lockouts and, for the other
   * gaps, required delays after the first, whatever happens to the session,
   * its owner or the other levels.
   */
  lemma GuessingRateBound(e: Env, r: Run, level: AccessLevel, n: nat, k: nat)
    requires e.WellFormed() && IsRun(e, r) && n <= |r.inputs|
    requires 1 <= k <= |WrongKeys(e, r, level, n)|
    ensures var fails := WrongKeys(e, r, level, n);
            fails[k - 1] - fails[0] >= LeastTime(e.sa.limits, k)
  {
    RateAlways(e, r, level, n);
    SpacedSum(e.sa.limits, WrongKeys(e, r, level, n), k);
  }

  predicate WrongAt(e: Env, r: Run, level: AccessLevel, k: int)
    requires Shaped(r) && 0 <= k < |r.inputs|
  {
    var evs := EventsOf(e, r.inputs[k], r.responses[k], level);
    |evs| == 1 && evs[0].Failed?
  }

  predicate RightAt(e: Env, r: Run, level: AccessLevel, k: int)
    requires Shaped(r) && 0 <= k < |r.inputs|
  {
    var evs := EventsOf(e, r.inputs[k], r.responses[k], level);
    |evs| == 1 && evs[0].Succeeded?
  }

  /** A seed request of the level passed. */
  predicate PassesAt(e: Env, r: Run, level: AccessLevel, k: int)
    requires Shaped(r) && 0 <= k < |r.inputs|
  {
    var evs := EventsOf(e, r.inputs[k], r.responses[k], level);
    |evs| == 1 && evs[0].Asked? && r.responses[k].SeedPositive?
  }

  /** Step `j` was the last wrong key, and neither a seed request has passed since nor a right key been sent. */
  ghost predicate UnservedSince(e: Env, r: Run, level: AccessLevel, j: int, n: int)
    requires Shaped(r)
  {
    && 0 <= j < n <= |r.inputs|
    && WrongAt(e, r, level, j)
    && forall k | j < k < n :: !WrongAt(e, r, level, k) && !RightAt(e, r, level, k) && !PassesAt(e, r, level, k)
  }

  /** What step `n` makes of the limiter, by kind of event. */
  lemma LimiterMoves(e: Env, r: Run, level: AccessLevel, n: nat)
    requires IsBehaviour(e, r) && n < |r.inputs|
    ensures var l, l' := LimiterOf(r.states[n].sa, level), LimiterOf(r.states[n + 1].sa, level);
            && (WrongAt(e, r, level, n) ==> l'.count == l.count + 1)
            && (RightAt(e, r, level, n) ==> l' == OPEN)
            && (PassesAt(e, r, level, n) ==> l'.lockout.None?)
            && (!WrongAt(e, r, level, n) && !RightAt(e, r, level, n) && !PassesAt(e, r, level, n) ==> l' == l)
  {
    LimiterAt(e, r, level, n);
    var evs := EventsOf(e, r.inputs[n], r.responses[n], level);
    if evs != [] {
      assert evs == [evs[0]];
      ReactOne(e.sa.limits, LimiterOf(r.states[n].sa, level), evs[0]);
    }
  }

  /** A level is locked only while its last wrong key is unserved, and its counter is positive as long as it is. */
  lemma {:induction false} LockedIsUnserved(e: Env, r: Run, level: AccessLevel, n: nat)
    requires IsBehaviour(e, r) && n <= |r.inputs|
    ensures LimiterOf(r.states[n].sa, level).lockout.Some? ==> exists j :: UnservedSince(e, r, level, j, n)
    ensures (exists j :: UnservedSince(e, r, level, j, n)) ==> LimiterOf(r.states[n].sa, level).count > 0
  {
    if n > 0 {
      LockedIsUnserved(e, r, level, n - 1);
      LimiterMoves(e, r, level, n - 1);
      UnservedMoves(e, r, level, n - 1, n);
    }
  }

  lemma UnservedMoves(e: Env, r: Run, level: AccessLevel, n: nat, next: nat)
    requires Shaped(r) && n < |r.inputs| && next == n + 1
    ensures (exists j :: UnservedSince(e, r, level, j, next)) <==>
              || WrongAt(e, r, level, n)
              || (!RightAt(e, r, level, n) && !PassesAt(e, r, level, n) && exists j :: UnservedSince(e, r, level, j, n))
  {
    if WrongAt(e, r, level, n) {
      assert UnservedSince(e, r, level, n, next);
    }
    forall j | UnservedSince(e, r, level, j, next) && j < n
      ensures UnservedSince(e, r, level, j, n)
    {
    }
    forall j | UnservedSince(e, r, level, j, n)
      ensures !WrongAt(e, r, level, n) && !RightAt(e, r, level, n) && !PassesAt(e, r, level, n) ==>
                UnservedSince(e, r, level, j, next)
    {
    }
    forall j | UnservedSince(e, r, level, j, next)
      ensures j < n ==> !WrongAt(e, r, level, n) && !RightAt(e, r, level, n) && !PassesAt(e, r, level, n)
    {
    }
  }

  /**
   * The counter that the history calls for: the wrong keys since the last right
   * one, counted within a block of M; a full block counts M until a seed request passes.
   */
  ghost function Counted(e: Env, r: Run, level: AccessLevel, n: nat): nat
    requires Shaped(r) && n <= |r.inputs| && e.sa.limits.maxAttempts >= 1
  {
    var inBlock := |WrongKeys(e, r, level, n)| % e.sa.limits.maxAttempts;
    if inBlock > 0 then inBlock
    else if exists j :: UnservedSince(e, r, level, j, n) then e.sa.limits.maxAttempts
    else 0
  }

  /** The counter query reports exactly what the wrong keys, right keys and passed seed requests of the level call for. */
  lemma CounterCountsWrongKeys(e: Env, r: Run, level: AccessLevel, n: nat)
    requires e.WellFormed() && IsRun(e, r) && n < |r.inputs| && r.inputs[n].request == GetAttemptCounter(level)
    ensures r.responses[n] == CountInfo(Counted(e, r, level, n))
  {
    RateAlways(e, r, level, n);
    LockedIsUnserved(e, r, level, n);
    assert IsStep(e, r, n);
    assert r.responses[n] == CountInfo(LimiterOf(r.states[n].sa, level).count);
  }

  /** Step `j` sent the last wrong key of a block of M, and since then no seed request has passed and no key was right. */
  ghost predicate BlockEndedAt(e: Env, r: Run, level: AccessLevel, j: int, n: int)
    requires Shaped(r) && e.sa.limits.maxAttempts >= 1
  {
    UnservedSince(e, r, level, j, n) && |WrongKeys(e, r, level, j + 1)| % e.sa.limits.maxAttempts == 0
  }

  lemma {:induction false} WrongKeysKept(e: Env, r: Run, level: AccessLevel, m: nat, n: nat)
    requires Shaped(r) && m <= n <= |r.inputs|
    requires forall k | m <= k < n :: !WrongAt(e, r, level, k) && !RightAt(e, r, level, k)
    ensures WrongKeys(e, r, level, n) == WrongKeys(e, r, level, m)
    decreases n
  {
    if m < n {
      WrongKeysKept(e, r, level, m, n - 1);
      assert !WrongAt(e, r, level, n - 1) && !RightAt(e, r, level, n - 1);
    }
  }

  lemma UnservedBlocks(e: Env, r: Run, level: AccessLevel, j: nat, n: nat)
    requires Shaped(r) && e.sa.limits.maxAttempts >= 1 && n <= |r.inputs| && UnservedSince(e, r, level, j, n)
    ensures BlockEndedAt(e, r, level, j, n) <==> |WrongKeys(e, r, level, n)| % e.sa.limits.maxAttempts == 0
  {
    WrongKeysKept(e, r, level, j + 1, n);
  }

  lemma FullMeansEnded(e: Env, r: Run, level: AccessLevel, n: nat)
    requires Shaped(r) && e.sa.limits.maxAttempts >= 1 && n <= |r.inputs|
    requires Counted(e, r, level, n) == e.sa.limits.maxAttempts
    ensures exists j :: BlockEndedAt(e, r, level, j, n)
  {
    var inBlock := |WrongKeys(e, r, level, n)| % e.sa.limits.maxAttempts;
    assert 0 <= inBlock < e.sa.limits.maxAttempts;
    var j :| UnservedSince(e, r, level, j, n);
    UnservedBlocks(e, r, level, j, n);
    assert BlockEndedAt(e, r, level, j, n);
  }

  lemma EndedMeansFull(e: Env, r: Run, level: AccessLevel, j: nat, n: nat)
    requires Shaped(r) && e.sa.limits.maxAttempts >= 1 && n <= |r.inputs| && BlockEndedAt(e, r, level, j, n)
    ensures Counted(e, r, level, n) == e.sa.limits.maxAttempts
  {
    UnservedBlocks(e, r, level, j, n);
  }

  /** The counter query reports M exactly from the last wrong key of a block until a seed request passes or a key is right. */
  lemma CounterAtLimit(e: Env, r: Run, level: AccessLevel, n: nat)
    requires e.WellFormed() && IsRun(e, r) && n < |r.inputs| && r.inputs[n].request == GetAttemptCounter(level)
    ensures r.responses[n] == CountInfo(e.sa.limits.maxAttempts) <==> exists j :: BlockEndedAt(e, r, level, j, n)
  {
    CounterCountsWrongKeys(e, r, level, n);
    if Counted(e, r, level, n) == e.sa.limits.maxAttempts {
      FullMeansEnded(e, r, level, n);
    }
    forall j | BlockEndedAt(e, r, level, j, n)
      ensures Counted(e, r, level, n) == e.sa.limits.maxAttempts
    {
      EndedMeansFull(e, r, level, j, n);
    }
  }

  /** A lockout ends only when its time is up. */
  lemma LockoutStep(e: Env, s: EcuState, i: Input, level: AccessLevel, until: Time)
    requires e.WellFormed() && SaInv(e, s.sa) && i.clock.Ordered() && s.sa.Lockout(level) == Some(until)
    ensures Step(e, s, i).state.sa.Lockout(level) == Some(until) || until <= i.clock.t3
  {
    assert LimiterOk(e.sa.limits.maxAttempts, s.sa, level);
    LimiterStep(e, s, i, level);
    var evs := EventsOf(e, i, Step(e, s, i).response, level);
    if Judged(e, i, Step(e, s, i).response, level) {
      JudgedWhenArmed(e, s, i, level);
    }
    if evs != [] {
      assert evs == [evs[0]];
      ReactOne(e.sa.limits, LimiterOf(s.sa, level), evs[0]);
    }
  }

  lemma {:induction false} LockoutLasts(e: Env, r: Run, level: AccessLevel, m: nat, n: nat, until: Time)
    requires e.WellFormed() && IsRun(e, r) && m <= n <= |r.inputs|
    requires r.states[m].sa.Lockout(level) == Some(until)
    ensures r.states[n].sa.Lockout(level) == Some(until) || until <= Before(r, n)
    decreases n
  {
    if m < n {
      LockoutLasts(e, r, level, m, n - 1, until);
      SaInvAlways(e, r, n - 1);
      assert IsStep(e, r, n - 1);
      if r.states[n - 1].sa.Lockout(level) == Some(until) {
        LockoutStep(e, r.states[n - 1], r.inputs[n - 1], level, until);
      }
    }
  }

  /** Once a level is locked until a time, no key for it is judged before that time. */
  lemma NoKeyDuringLockout(e: Env, r: Run, level: AccessLevel, m: nat, n: nat, until: Time)
    requires e.WellFormed() && IsRun(e, r) && m <= n < |r.inputs|
    requires r.states[m].sa.Lockout(level) == Some(until)
    requires Judged(e, r.inputs[n], r.responses[n], level)
    ensures until <= r.inputs[n].clock.t0
  {
    LockoutLasts(e, r, level, m, n, until);
    SaInvAlways(e, r, n);
    assert IsStep(e, r, n);
    JudgedWhenArmed(e, r.states[n], r.inputs[n], level);
  }
}
