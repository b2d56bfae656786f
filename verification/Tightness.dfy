/** The guessing-rate bound is attained: a patient attacker's schedule meets it exactly. */
module Tightness {
  import opened Common
  import opened Session
  import opened SecurityAccess
  import opened Ecu
  import opened Runs
  import opened History
  import opened RateLimit
  import opened GuessingRate

  /** A pair of rows to guess keys for. */
  datatype Target = Target(sf: int, key: int, session: int, level: AccessLevel, secret: string)

  /** The policy has the pair, its session can be reached from Default, and the durations are sensible. */
  predicate Guessable(e: Env, t: Target) {
    && t.sf in e.sa.levels && e.sa.levels[t.sf] == SeedLevel(t.session, t.level, t.key, t.secret)
    && t.key in e.sa.levels && e.sa.levels[t.key] == KeyLevel(t.session, t.level, t.sf, t.secret)
    && t.session in {DEFAULT, EXTENDED, PROGRAMMING}
    && (t.session != DEFAULT ==>
          e.session.timeout > 0.0 && DEFAULT in e.session.allowed && EXTENDED in e.session.allowed[DEFAULT])
    && (t.session == PROGRAMMING ==> EXTENDED in e.session.allowed && PROGRAMMING in e.session.allowed[EXTENDED])
    && e.sa.limits.maxAttempts >= 1 && e.sa.limits.requiredDelay >= 0.0 && e.sa.limits.lockoutDuration >= 0.0
  }

  /** One guess: to the level's session, by way of Extended unless it is Default, then a seed, then a key. */
  function First(t: Target): int {
    if t.session == DEFAULT then DEFAULT else EXTENDED
  }

  function Attempt(t: Target, now: Time, seed: Bytes, key: Bytes): seq<Input> {
    [ At(1, SessionControl(First(t)), now, []),
      At(1, SessionControl(t.session), now, []),
      At(1, RequestSeed(t.sf), now, seed),
      At(1, SendKey(t.key, key), now, []) ]
  }

  /** The first `n` guesses, each at the earliest time the bound allows; `draw` gives the seeds. */
  function Schedule(p: LimitPolicy, t: Target, draw: nat -> Bytes, guess: nat -> Bytes, n: nat): seq<Input>
    requires p.maxAttempts >= 1
  {
    if n == 0 then []
    else Schedule(p, t, draw, guess, n - 1) + Attempt(t, LeastTime(p, n), draw(n - 1), guess(n - 1))
  }

  /** No guess is the key of its seed. */
  ghost predicate Misses(e: Env, t: Target, draw: nat -> Bytes, guess: nat -> Bytes) {
    forall k: nat :: guess(k) != e.hmac(draw(k), t.secret)
  }

  /** The limiter after `k` wrong keys on schedule. */
  function OnSchedule(p: LimitPolicy, k: nat): Limiter
    requires p.maxAttempts >= 1
  {
    if k == 0 then OPEN
    else if k % p.maxAttempts == 0 then
      Limiter(p.maxAttempts, Some(LeastTime(p, k) + p.lockoutDuration), Some(LeastTime(p, k)))
    else Limiter(k % p.maxAttempts, None, Some(LeastTime(p, k)))
  }

  /** On schedule the limiter lets the next guess pass, and the guess moves it along the schedule. */
  lemma ScheduleStep(p: LimitPolicy, k: nat)
    requires p.maxAttempts >= 1
    ensures Verdict(p, OnSchedule(p, k), LeastTime(p, k + 1)).None?
    ensures var now := LeastTime(p, k + 1);
            React(p, React(p, OnSchedule(p, k), Asked(now)), Failed(now, now)) == OnSchedule(p, k + 1)
  {
    Count(k, p.maxAttempts);
    if k >= 1 {
      LeastTimeStep(p, k);
    }
  }

  /** Connection 1 can start a guess. */
  predicate Free(s: EcuState, t: Target) {
    && (s.session.session == DEFAULT || (s.session.session == t.session && s.owner == Some(1)))
    && s.mechanism != Mech29
  }

  /** Connection 1 is on its way, in Extended or already in the level's session. */
  predicate Underway(e: Env, s: EcuState, t: Target, now: Time) {
    && s.mechanism != Mech29
    && if t.session == DEFAULT then s.session.session == DEFAULT
       else Observed(e, s, now).session.session in {EXTENDED, t.session} && s.owner == Some(1)
  }

  /** Connection 1 is in the level's session, fresh at `now`. */
  predicate Positioned(s: EcuState, t: Target, now: Time) {
    && s.mechanism != Mech29
    && s.session.session == t.session
    && (t.session != DEFAULT ==> s.session.lastActivity == now && s.owner == Some(1))
  }

  /** The pending seeds of all subfunctions but `sf` are as before. */
  ghost predicate KeepsOthers(s: EcuState, s': EcuState, sf: int) {
    forall x | x != sf :: PendingSeed(s', x) == PendingSeed(s, x)
  }

  lemma FirstStep(e: Env, s: EcuState, t: Target, now: Time)
    requires Guessable(e, t) && Free(s, t)
    ensures Underway(e, Step(e, s, At(1, SessionControl(First(t)), now, [])).state, t, now)
  {
  }

  lemma SecondStep(e: Env, s: EcuState, t: Target, now: Time)
    requires Guessable(e, t) && Underway(e, s, t, now)
    ensures Positioned(Step(e, s, At(1, SessionControl(t.session), now, [])).state, t, now)
  {
  }

  lemma AskStep(e: Env, s: EcuState, t: Target, now: Time, seed: Bytes)
    requires Guessable(e, t) && Positioned(s, t, now)
    requires Verdict(e.sa.limits, LimiterOf(s.sa, t.level), now).None?
    ensures var out := Step(e, s, At(1, RequestSeed(t.sf), now, seed));
            && Positioned(out.state, t, now) && PendingSeed(out.state, t.sf) == Some(seed)
            && EventsOf(e, At(1, RequestSeed(t.sf), now, seed), out.response, t.level) == [Asked(now)]
            && KeepsOthers(s, out.state, t.sf)
  {
  }

  lemma WrongStep(e: Env, s: EcuState, t: Target, now: Time, seed: Bytes, key: Bytes)
    requires Guessable(e, t) && Positioned(s, t, now)
    requires PendingSeed(s, t.sf) == Some(seed) && key != e.hmac(seed, t.secret)
    ensures var out := Step(e, s, At(1, SendKey(t.key, key), now, []));
            && Positioned(out.state, t, now)
            && EventsOf(e, At(1, SendKey(t.key, key), now, []), out.response, t.level) == [Failed(now, now)]
            && KeepsOthers(s, out.state, t.sf)
  {
  }

  /** A request that means nothing for the level leaves its limiter and its wrong keys. */
  lemma Silent(e: Env, s: EcuState, i: Input, level: AccessLevel)
    requires i.request.SessionControl?
    ensures EventsOf(e, i, Step(e, s, i).response, level) == []
    ensures LimiterOf(Step(e, s, i).state.sa, level) == LimiterOf(s.sa, level)
  {
    LimiterStep(e, s, i, level);
  }

  lemma Speaks(e: Env, s: EcuState, i: Input, level: AccessLevel, ev: LimitEvent)
    requires EventsOf(e, i, Step(e, s, i).response, level) == [ev]
    ensures LimiterOf(Step(e, s, i).state.sa, level) == React(e.sa.limits, LimiterOf(s.sa, level), ev)
  {
    LimiterStep(e, s, i, level);
    ReactOne(e.sa.limits, LimiterOf(s.sa, level), ev);
  }

  /** A run extended by one request. */
  function Extension(e: Env, r: Run, i: Input): Run
    requires Shaped(r)
  {
    var out := Step(e, r.states[|r.inputs|], i);
    Run(r.start, r.inputs + [i], r.states + [out.state], r.responses + [out.response])
  }

  lemma ExtendRun(e: Env, r: Run, i: Input)
    requires IsRun(e, r) && i.clock.Ordered() && r.start <= i.clock.t0
    requires forall k | 0 <= k < |r.inputs| :: r.inputs[k].clock.t3 <= i.clock.t0
    ensures IsRun(e, Extension(e, r, i))
  {
    var r' := Extension(e, r, i);
    forall n | 0 <= n < |r'.inputs|
      ensures IsStep(e, r', n)
    {
      if n < |r.inputs| {
        assert IsStep(e, r, n);
      }
    }
  }

  lemma {:induction false} WrongKeysPrefix(e: Env, r: Run, i: Input, level: AccessLevel, n: nat)
    requires Shaped(r) && n <= |r.inputs|
    ensures WrongKeys(e, Extension(e, r, i), level, n) == WrongKeys(e, r, level, n)
  {
    if n > 0 {
      WrongKeysPrefix(e, r, i, level, n - 1);
    }
  }

  /** The wrong keys of a whole run. */
  function AllWrongKeys(e: Env, r: Run, level: AccessLevel): seq<Time>
    requires Shaped(r)
  {
    WrongKeys(e, r, level, |r.inputs|)
  }

  lemma WrongKeysExtend(e: Env, r: Run, i: Input, level: AccessLevel)
    requires Shaped(r)
    ensures var response := Step(e, r.states[|r.inputs|], i).response;
            AllWrongKeys(e, Extension(e, r, i), level)
              == FailsAfter(AllWrongKeys(e, r, level), EventsOf(e, i, response, level))
  {
    WrongKeysPrefix(e, r, i, level, |r.inputs|);
  }

  /** No request of the run is later than `now`. */
  predicate OverBy(r: Run, now: Time) {
    r.start <= now && forall k | 0 <= k < |r.inputs| :: r.inputs[k].clock.t3 <= now
  }

  lemma ExtendOver(e: Env, r: Run, i: Input, level: AccessLevel, now: Time) returns (r': Run)
    requires IsRun(e, r) && OverBy(r, now) && i.clock == Instant(now)
    ensures IsRun(e, r') && OverBy(r', now) && r'.start == r.start && r'.inputs == r.inputs + [i]
    ensures var out := Step(e, r.states[|r.inputs|], i);
            && r'.states[|r'.inputs|] == out.state
            && AllWrongKeys(e, r', level) == FailsAfter(AllWrongKeys(e, r, level), EventsOf(e, i, out.response, level))
  {
    ExtendRun(e, r, i);
    WrongKeysExtend(e, r, i, level);
    r' := Extension(e, r, i);
  }

  /** The run so far consists of `k` guesses on schedule. */
  ghost predicate Guessed(e: Env, r: Run, t: Target, k: nat)
    requires e.sa.limits.maxAttempts >= 1
  {
    && IsRun(e, r)
    && Free(r.states[|r.inputs|], t)
    && LimiterOf(r.states[|r.inputs|].sa, t.level) == OnSchedule(e.sa.limits, k)
  }

  /** The two session requests of a guess. */
  lemma Approach(e: Env, r: Run, t: Target, now: Time) returns (r': Run)
    requires Guessable(e, t) && IsRun(e, r) && OverBy(r, now) && Free(r.states[|r.inputs|], t)
    ensures IsRun(e, r') && OverBy(r', now) && r'.start == r.start
    ensures r'.inputs == r.inputs + [At(1, SessionControl(First(t)), now, []), At(1, SessionControl(t.session), now, [])]
    ensures Positioned(r'.states[|r'.inputs|], t, now)
    ensures LimiterOf(r'.states[|r'.inputs|].sa, t.level) == LimiterOf(r.states[|r.inputs|].sa, t.level)
    ensures AllWrongKeys(e, r', t.level) == AllWrongKeys(e, r, t.level)
  {
    var i1, i2 := At(1, SessionControl(First(t)), now, []), At(1, SessionControl(t.session), now, []);
    var r1 := ExtendOver(e, r, i1, t.level, now);
    FirstStep(e, r.states[|r.inputs|], t, now);
    Silent(e, r.states[|r.inputs|], i1, t.level);
    r' := ExtendOver(e, r1, i2, t.level, now);
    SecondStep(e, r1.states[|r1.inputs|], t, now);
    Silent(e, r1.states[|r1.inputs|], i2, t.level);
  }

  /** The seed request of a guess, when the limiter lets it pass. */
  lemma Ask(e: Env, r: Run, t: Target, now: Time, seed: Bytes) returns (r': Run)
    requires Guessable(e, t) && IsRun(e, r) && OverBy(r, now) && Positioned(r.states[|r.inputs|], t, now)
    requires Verdict(e.sa.limits, LimiterOf(r.states[|r.inputs|].sa, t.level), now).None?
    ensures IsRun(e, r') && OverBy(r', now) && r'.start == r.start
    ensures r'.inputs == r.inputs + [At(1, RequestSeed(t.sf), now, seed)]
    ensures Positioned(r'.states[|r'.inputs|], t, now) && PendingSeed(r'.states[|r'.inputs|], t.sf) == Some(seed)
    ensures LimiterOf(r'.states[|r'.inputs|].sa, t.level) ==
              React(e.sa.limits, LimiterOf(r.states[|r.inputs|].sa, t.level), Asked(now))
    ensures KeepsOthers(r.states[|r.inputs|], r'.states[|r'.inputs|], t.sf)
    ensures AllWrongKeys(e, r', t.level) == AllWrongKeys(e, r, t.level)
  {
    var i := At(1, RequestSeed(t.sf), now, seed);
    AskStep(e, r.states[|r.inputs|], t, now, seed);
    Speaks(e, r.states[|r.inputs|], i, t.level, Asked(now));
    r' := ExtendOver(e, r, i, t.level, now);
  }

  /** The wrong key of a guess. */
  lemma Miss(e: Env, r: Run, t: Target, now: Time, seed: Bytes, key: Bytes) returns (r': Run)
    requires Guessable(e, t) && IsRun(e, r) && OverBy(r, now) && Positioned(r.states[|r.inputs|], t, now)
    requires PendingSeed(r.states[|r.inputs|], t.sf) == Some(seed) && key != e.hmac(seed, t.secret)
    ensures IsRun(e, r') && OverBy(r', now) && r'.start == r.start
    ensures r'.inputs == r.inputs + [At(1, SendKey(t.key, key), now, [])]
    ensures Positioned(r'.states[|r'.inputs|], t, now)
    ensures LimiterOf(r'.states[|r'.inputs|].sa, t.level) ==
              React(e.sa.limits, LimiterOf(r.states[|r.inputs|].sa, t.level), Failed(now, now))
    ensures KeepsOthers(r.states[|r.inputs|], r'.states[|r'.inputs|], t.sf)
    ensures AllWrongKeys(e, r', t.level) == AllWrongKeys(e, r, t.level) + [now]
  {
    var i := At(1, SendKey(t.key, key), now, []);
    WrongStep(e, r.states[|r.inputs|], t, now, seed, key);
    Speaks(e, r.states[|r.inputs|], i, t.level, Failed(now, now));
    r' := ExtendOver(e, r, i, t.level, now);
  }

  /** One guess, when the limiter lets it pass. */
  lemma Guess(e: Env, r: Run, t: Target, now: Time, seed: Bytes, key: Bytes) returns (r': Run)
    requires Guessable(e, t) && IsRun(e, r) && OverBy(r, now) && Free(r.states[|r.inputs|], t)
    requires Verdict(e.sa.limits, LimiterOf(r.states[|r.inputs|].sa, t.level), now).None? && key != e.hmac(seed, t.secret)
    ensures IsRun(e, r') && OverBy(r', now) && r'.start == r.start && r'.inputs == r.inputs + Attempt(t, now, seed, key)
    ensures Free(r'.states[|r'.inputs|], t)
    ensures LimiterOf(r'.states[|r'.inputs|].sa, t.level) ==
              React(e.sa.limits, React(e.sa.limits, LimiterOf(r.states[|r.inputs|].sa, t.level), Asked(now)), Failed(now, now))
    ensures AllWrongKeys(e, r', t.level) == AllWrongKeys(e, r, t.level) + [now]
  {
    var there := Approach(e, r, t, now);
    var asked := Ask(e, there, t, now, seed);
    r' := Miss(e, asked, t, now, seed, key);
  }

  /** One more guess on schedule. */
  lemma NextGuess(e: Env, r: Run, t: Target, seed: Bytes, key: Bytes, k: nat, now: Time) returns (r': Run)
    requires Guessable(e, t) && Guessed(e, r, t, k) && OverBy(r, now) && key != e.hmac(seed, t.secret)
    requires now == LeastTime(e.sa.limits, k + 1)
    ensures Guessed(e, r', t, k + 1) && OverBy(r', now) && r'.start == r.start
    ensures r'.inputs == r.inputs + Attempt(t, now, seed, key)
    ensures AllWrongKeys(e, r', t.level) == AllWrongKeys(e, r, t.level) + [now]
  {
    ScheduleStep(e.sa.limits, k);
    r' := Guess(e, r, t, now, seed, key);
  }

  /** A run that is over when the `n`-th guess was due is over when the next one is. */
  lemma OverByNext(p: LimitPolicy, r: Run, n: nat)
    requires p.maxAttempts >= 1 && p.requiredDelay >= 0.0 && p.lockoutDuration >= 0.0
    requires if n == 0 then r.inputs == [] && r.start == 0.0 else OverBy(r, LeastTime(p, n))
    ensures OverBy(r, LeastTime(p, n + 1))
  {
    if n == 0 {
      assert 0 / p.maxAttempts == 0;
    } else {
      LeastTimeStep(p, n);
    }
  }

  lemma NoGuesses(e: Env, t: Target) returns (r: Run)
    requires Guessable(e, t)
    ensures r.start == 0.0 && r.inputs == [] && Guessed(e, r, t, 0) && AllWrongKeys(e, r, t.level) == []
  {
    r := Run(0.0, [], [Initial(e, 0.0)], []);
  }

  /** When the first `n` guesses are due. */
  function DueTimes(p: LimitPolicy, n: nat): seq<Time>
    requires p.maxAttempts >= 1
  {
    if n == 0 then [] else DueTimes(p, n - 1) + [LeastTime(p, n)]
  }

  lemma {:induction false} DueAt(p: LimitPolicy, n: nat)
    requires p.maxAttempts >= 1
    ensures |DueTimes(p, n)| == n && forall k | 1 <= k <= n :: DueTimes(p, n)[k - 1] == LeastTime(p, k)
  {
    if n > 0 {
      DueAt(p, n - 1);
    }
  }

  lemma {:induction false} ScheduleIsRun(e: Env, t: Target, draw: nat -> Bytes, guess: nat -> Bytes, n: nat)
    returns (r: Run)
    requires Guessable(e, t) && Misses(e, t, draw, guess)
    ensures r.start == 0.0 && r.inputs == Schedule(e.sa.limits, t, draw, guess, n)
    ensures Guessed(e, r, t, n) && (n > 0 ==> OverBy(r, LeastTime(e.sa.limits, n)))
    ensures AllWrongKeys(e, r, t.level) == DueTimes(e.sa.limits, n)
  {
    if n == 0 {
      r := NoGuesses(e, t);
    } else {
      var before := ScheduleIsRun(e, t, draw, guess, n - 1);
      OverByNext(e.sa.limits, before, n - 1);
      r := NextGuess(e, before, t, draw(n - 1), guess(n - 1), n - 1, LeastTime(e.sa.limits, n));
    }
  }

  /**
   * For every number of guesses, whatever the seeds drawn and the wrong keys
   * guessed, the schedule is the input of a run in which every wrong key comes
   * exactly when the bound allows it.
   */
  lemma BoundIsAttained(e: Env, t: Target, draw: nat -> Bytes, guess: nat -> Bytes, n: nat) returns (r: Run)
    requires Guessable(e, t) && Misses(e, t, draw, guess)
    ensures IsRun(e, r) && r.start == 0.0 && r.inputs == Schedule(e.sa.limits, t, draw, guess, n)
    ensures |AllWrongKeys(e, r, t.level)| == n
    ensures forall k | 1 <= k <= n :: AllWrongKeys(e, r, t.level)[k - 1] == LeastTime(e.sa.limits, k)
  {
    r := ScheduleIsRun(e, t, draw, guess, n);
    DueAt(e.sa.limits, n);
  }

  /** Two pairs for one level, in one session. */
  predicate Shared(e: Env, t: Target, u: Target) {
    Guessable(e, t) && Guessable(e, u) && t.level == u.level && t.session == u.session && t.sf != u.sf
  }

  lemma DrawBoth(e: Env, t: Target, u: Target, seed: Bytes) returns (r: Run)
    requires Shared(e, t, u)
    ensures IsRun(e, r) && OverBy(r, 0.0) && Positioned(r.states[|r.inputs|], t, 0.0)
    ensures PendingSeed(r.states[|r.inputs|], t.sf) == PendingSeed(r.states[|r.inputs|], u.sf) == Some(seed)
    ensures AllWrongKeys(e, r, t.level) == []
  {
    var start := NoGuesses(e, t);
    var there := Approach(e, start, t, 0.0);
    var asked := Ask(e, there, t, 0.0, seed);
    r := Ask(e, asked, u, 0.0, seed);
  }

  /**
   * That a level belongs to one pair is needed for the bound: with two pairs for
   * one level both seeds can be drawn first, and two wrong keys then come at once.
   */
  lemma SharedLevelBeatsBound(e: Env, t: Target, u: Target, seed: Bytes, key: Bytes) returns (r: Run)
    requires Shared(e, t, u)
    requires key != e.hmac(seed, t.secret) && key != e.hmac(seed, u.secret)
    requires e.sa.limits.requiredDelay > 0.0 && e.sa.limits.lockoutDuration > 0.0
    ensures IsRun(e, r) && AllWrongKeys(e, r, t.level) == [0.0, 0.0]
    ensures LeastTime(e.sa.limits, 2) > 0.0
  {
    var drawn := DrawBoth(e, t, u, seed);
    var missed := Miss(e, drawn, t, 0.0, seed, key);
    r := Miss(e, missed, u, 0.0, seed, key);
    TwoTakeTime(e.sa.limits);
  }

  lemma TwoTakeTime(p: LimitPolicy)
    requires p.maxAttempts >= 1 && p.requiredDelay > 0.0 && p.lockoutDuration > 0.0
    ensures LeastTime(p, 2) > 0.0
  {
    assert 0 / p.maxAttempts == 0;
    LeastTimeStep(p, 1);
  }
}
