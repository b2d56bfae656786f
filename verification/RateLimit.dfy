/** Each access level has its own limiter, and the limiters bound the guessing rate of every run. */
module RateLimit {
  import opened Common
  import opened Session
  import opened SecurityAccess
  import opened Ecu
  import opened Runs
  import opened Sequences

  /** A limiter for one level, on its own. */
  datatype Limiter = Limiter(count: nat, lockout: Option<Time>, lastFail: Option<Time>)

  /** What concerns one level: a seed was asked for, a wrong key was sent, or the right one. */
  datatype LimitEvent = Asked(now: Time) | Failed(at: Time, locked: Time) | Succeeded

  const OPEN := Limiter(0, None, None)

  /** The limiter's answer to a seed request at `now`: None lets it pass. */
  function Verdict(p: LimitPolicy, l: Limiter, now: Time): Option<nat> {
    match l.lockout
    case Some(until) => if now < until then Some(0x36) else None
    case None => if l.lastFail.Some? && now < l.lastFail.value + p.requiredDelay then Some(0x37) else None
  }

  function React(p: LimitPolicy, l: Limiter, ev: LimitEvent): Limiter {
    match ev
    case Asked(now) => if l.lockout.Some? && l.lockout.value <= now then OPEN else l
    case Failed(at, locked) =>
      Limiter(l.count + 1, if l.count + 1 >= p.maxAttempts then Some(locked + p.lockoutDuration) else l.lockout, Some(at))
    case Succeeded => OPEN
  }

  function ReactAll(p: LimitPolicy, l: Limiter, evs: seq<LimitEvent>): Limiter {
    if evs == [] then l else React(p, ReactAll(p, l, evs[..|evs| - 1]), evs[|evs| - 1])
  }

  /** The level a subfunction belongs to is `level`. */
  predicate Concerns(e: Env, sf: int, level: AccessLevel) {
    sf in e.sa.levels && e.sa.levels[sf].accessLevel == level
  }

  /** The event a step means for `level`, told from its request and response. */
  function EventsOf(e: Env, i: Input, response: Response, level: AccessLevel): seq<LimitEvent> {
    match Decoded(i.request)
    case Some(RequestSeed(sf)) =>
      if Concerns(e, sf, level) && (response.SeedPositive? || response in {Negative(0x36), Negative(0x37)})
      then [Asked(i.clock.t2)] else []
    case Some(SendKey(sf, _)) =>
      if !Concerns(e, sf, level) then []
      else if response.KeyPositive? then [Succeeded]
      else if response == Negative(0x35) then [Failed(i.clock.t2, i.clock.t3)]
      else []
    case _ => []
  }

  /** The part of the 0x27 state that belongs to `level`. */
  function LimiterOf(sa: SaState, level: AccessLevel): Limiter {
    Limiter(sa.Count(level), sa.Lockout(level), sa.LastFail(level))
  }

  /** A request that reaches the limiter is answered by it. */
  predicate Answers(p: LimitPolicy, l: Limiter, evs: seq<LimitEvent>, response: Response) {
    |evs| == 1 && evs[0].Asked? ==>
      match Verdict(p, l, evs[0].now)
      case None => response.SeedPositive?
      case Some(nrc) => response == Negative(nrc)
  }

  /** The check of the handler is the limiter of its level, and leaves the other levels alone. */
  lemma RateCheckedLimits(p: LimitPolicy, sa: SaState, asked: AccessLevel, now: Time, level: AccessLevel)
    ensures var checked := RateChecked(p, sa, asked, now);
            && checked.blocked == Verdict(p, LimiterOf(sa, asked), now)
            && LimiterOf(checked.state, level) ==
                 if level == asked then React(p, LimiterOf(sa, level), Asked(now)) else LimiterOf(sa, level)
  {
  }

  lemma SeedRequestedLimits(e: Env, session: SessionState, sa: SaState, sf: int, random: Bytes, c: Clock, level: AccessLevel)
    ensures var r := SeedRequested(e.sa, e.session.timeout, session, sa, sf, random, c);
            var l := LimiterOf(sa, level);
            if Concerns(e, sf, level) && (r.outcome.Accepted? || r.outcome.nrc in {0x36, 0x37}) then
              && LimiterOf(r.sa, level) == React(e.sa.limits, l, Asked(c.t2))
              && Verdict(e.sa.limits, l, c.t2) == (if r.outcome.Accepted? then None else Some(r.outcome.nrc))
            else LimiterOf(r.sa, level) == l
  {
    if sf in e.sa.levels {
      RateCheckedLimits(e.sa.limits, sa, e.sa.levels[sf].accessLevel, c.t2, level);
    }
  }

  lemma KeySentLimits(e: Env, session: SessionState, sa: SaState, sf: int, key: Bytes, c: Clock, level: AccessLevel)
    ensures var r := KeySent(e.sa, e.session.timeout, e.hmac, session, sa, sf, key, c);
            var l := LimiterOf(sa, level);
            LimiterOf(r.sa, level) ==
              if !Concerns(e, sf, level) then l
              else if r.outcome.Accepted? then OPEN
              else if r.outcome.nrc == 0x35 then React(e.sa.limits, l, Failed(c.t2, c.t3))
              else l
  {
  }

  lemma ReactOne(p: LimitPolicy, l: Limiter, ev: LimitEvent)
    ensures ReactAll(p, l, [ev]) == React(p, l, ev)
  {
    assert [ev][..0] == [];
  }

  lemma RequestSeedLimits(e: Env, s: EcuState, i: Input, sf: int, level: AccessLevel)
    requires Decoded(i.request) == Some(RequestSeed(sf))
    ensures var out := OnRequestSeed(e, s, i, sf);
            var evs := EventsOf(e, i, out.response, level);
            && LimiterOf(out.state.sa, level) == ReactAll(e.sa.limits, LimiterOf(s.sa, level), evs)
            && Answers(e.sa.limits, LimiterOf(s.sa, level), evs, out.response)
  {
    SeedRequestedLimits(e, Observed(e, s, i.clock.t0).session, s.sa, sf, i.random, i.clock, level);
    ReactOne(e.sa.limits, LimiterOf(s.sa, level), Asked(i.clock.t2));
  }

  lemma SendKeyLimits(e: Env, s: EcuState, i: Input, sf: int, key: Bytes, level: AccessLevel)
    requires i.request == SendKey(sf, key)
    ensures var out := OnSendKey(e, s, i, sf, key);
            LimiterOf(out.state.sa, level) == ReactAll(e.sa.limits, LimiterOf(s.sa, level), EventsOf(e, i, out.response, level))
  {
    KeySentLimits(e, Observed(e, s, i.clock.t0).session, s.sa, sf, key, i.clock, level);
    ReactOne(e.sa.limits, LimiterOf(s.sa, level), Failed(i.clock.t2, i.clock.t3));
    ReactOne(e.sa.limits, LimiterOf(s.sa, level), Succeeded);
  }

  /** Only requestSeed and sendKey touch the 0x27 state, but for clearing grant and seeds. */
  lemma OthersDoNotLimit(e: Env, s: EcuState, i: Input)
    requires Decoded(i.request).Some?
    requires var r := Decoded(i.request).value; !r.RequestSeed? && !r.SendKey?
    ensures Step(e, s, i).state.sa in {s.sa, ClearSa(s.sa)}
  {
  }

  /** Only a level's own events move its limiter, and they move it as the limiter alone would. */
  lemma LimiterStep(e: Env, s: EcuState, i: Input, level: AccessLevel)
    ensures var out := Step(e, s, i);
            var evs := EventsOf(e, i, out.response, level);
            && LimiterOf(out.state.sa, level) == ReactAll(e.sa.limits, LimiterOf(s.sa, level), evs)
            && Answers(e.sa.limits, LimiterOf(s.sa, level), evs, out.response)
  {
    match Decoded(i.request) {
      case None =>
      case Some(r) =>
        match r {
          case RequestSeed(sf) => RequestSeedLimits(e, s, i, sf, level);
          case SendKey(sf, key) => SendKeyLimits(e, s, i, sf, key, level);
          case _ => OthersDoNotLimit(e, s, i);
        }
    }
  }

  function EventsEach(e: Env, r: Run, level: AccessLevel): seq<seq<LimitEvent>>
    requires Shaped(r)
  {
    seq(|r.inputs|, k requires 0 <= k < |r.inputs| => EventsOf(e, r.inputs[k], r.responses[k], level))
  }

  /** A level's events in the first `n` steps. */
  function EventsBefore(e: Env, r: Run, level: AccessLevel, n: nat): seq<LimitEvent>
    requires Shaped(r) && n <= |r.inputs|
  {
    Flat(EventsEach(e, r, level), n)
  }

  lemma {:induction false} ReactAppend(p: LimitPolicy, l: Limiter, a: seq<LimitEvent>, b: seq<LimitEvent>)
    requires |b| <= 1
    ensures ReactAll(p, l, a + b) == ReactAll(p, ReactAll(p, l, a), b)
  {
    if b == [] {
      assert a + b == a;
    } else {
      assert (a + b)[..|a|] == a && b[..0] == [];
    }
  }

  lemma {:induction false} ReactFlat(p: LimitPolicy, limiters: seq<Limiter>, parts: seq<seq<LimitEvent>>, n: nat)
    requires |limiters| == |parts| + 1 && n <= |parts|
    requires forall k | 0 <= k < |parts| :: |parts[k]| <= 1 && limiters[k + 1] == ReactAll(p, limiters[k], parts[k])
    ensures limiters[n] == ReactAll(p, limiters[0], Flat(parts, n))
  {
    if n > 0 {
      ReactFlat(p, limiters, parts, n - 1);
      ReactAppend(p, limiters[0], Flat(parts, n - 1), parts[n - 1]);
    }
  }

  lemma LimiterAt(e: Env, r: Run, level: AccessLevel, n: nat)
    requires IsBehaviour(e, r) && n < |r.inputs|
    ensures var evs := EventsOf(e, r.inputs[n], r.responses[n], level);
            && LimiterOf(r.states[n + 1].sa, level) == ReactAll(e.sa.limits, LimiterOf(r.states[n].sa, level), evs)
            && Answers(e.sa.limits, LimiterOf(r.states[n].sa, level), evs, r.responses[n])
            && |evs| <= 1
  {
    assert IsStep(e, r, n);
    LimiterStep(e, r.states[n], r.inputs[n], level);
  }

  /** In every run a level's state is the fold of its own limiter over its own events. */
  lemma LevelsAreIndependent(e: Env, r: Run, level: AccessLevel, n: nat)
    requires IsBehaviour(e, r) && n <= |r.inputs|
    ensures LimiterOf(r.states[n].sa, level) == ReactAll(e.sa.limits, OPEN, EventsBefore(e, r, level, n))
  {
    var limiters := seq(|r.states|, k requires 0 <= k < |r.states| => LimiterOf(r.states[k].sa, level));
    var parts := EventsEach(e, r, level);
    forall k | 0 <= k < |parts|
      ensures |parts[k]| <= 1 && limiters[k + 1] == ReactAll(e.sa.limits, limiters[k], parts[k])
    {
      LimiterAt(e, r, level, k);
    }
    ReactFlat(e.sa.limits, limiters, parts, n);
  }

  /** Every seed request that reaches the limiter gets the answer of the level's own fold. */
  lemma LimiterDecides(e: Env, r: Run, level: AccessLevel, n: nat)
    requires IsBehaviour(e, r) && n < |r.inputs|
    ensures Answers(e.sa.limits, ReactAll(e.sa.limits, OPEN, EventsBefore(e, r, level, n)),
                    EventsOf(e, r.inputs[n], r.responses[n], level), r.responses[n])
  {
    LevelsAreIndependent(e, r, level, n);
    LimiterAt(e, r, level, n);
  }

  /** The least time between the `k`-th and the next wrong key. */
  function Gap(p: LimitPolicy, k: nat): Time
    requires p.maxAttempts >= 1
  {
    if k % p.maxAttempts == 0 then p.lockoutDuration else p.requiredDelay
  }

  /** Consecutive wrong keys are at least their gap apart. */
  ghost predicate Spaced(p: LimitPolicy, fails: seq<Time>)
    requires p.maxAttempts >= 1
  {
    forall k | 0 < k < |fails| :: fails[k] - fails[k - 1] >= Gap(p, k)
  }

  /** The times of the wrong keys since the last right one. */
  function FailsAfter(fails: seq<Time>, evs: seq<LimitEvent>): seq<Time> {
    if |evs| == 1 && evs[0].Failed? then fails + [evs[0].at]
    else if |evs| == 1 && evs[0].Succeeded? then []
    else fails
  }

  /** The last wrong key allows another one at `now`. */
  predicate Waited(p: LimitPolicy, fails: seq<Time>, now: Time)
    requires p.maxAttempts >= 1
  {
    fails != [] ==> now >= fails[|fails| - 1] + Gap(p, |fails|)
  }

  /** How the limiter of a level relates to the wrong keys so far, at `now`. */
  ghost predicate RateOk(p: LimitPolicy, l: Limiter, fails: seq<Time>, now: Time)
    requires p.maxAttempts >= 1
  {
    && Spaced(p, fails)
    && l.count <= p.maxAttempts
    && |fails| % p.maxAttempts == (if l.count == p.maxAttempts then 0 else l.count)
    && (l.count == 0 ==> Waited(p, fails, now))
    && (l.count > 0 ==> fails != [] && l.lastFail == Some(fails[|fails| - 1]))
    && (l.lockout.Some? ==> l.count == p.maxAttempts && l.lockout.value >= fails[|fails| - 1] + p.lockoutDuration)
    && (l.lockout.None? ==> l.count < p.maxAttempts)
  }

  lemma ProductIsPositive(k: int, m: int)
    requires k >= 1 && m >= 1
    ensures k * m >= m
  {
    if k > 1 {
      ProductIsPositive(k - 1, m);
    }
  }

  lemma QuotientIsUnique(q: int, d: int, q': int, d': int, m: int)
    requires 0 <= d < m && 0 <= d' < m && q * m + d == q' * m + d'
    ensures q == q' && d == d'
  {
    if q < q' {
      assert (q' - q) * m == q' * m - q * m;
      ProductIsPositive(q' - q, m);
      assert false;
    } else if q' < q {
      assert (q - q') * m == q * m - q' * m;
      ProductIsPositive(q - q', m);
      assert false;
    }
  }

  /** Counting one further either stays in the block of `m` or starts the next one. */
  lemma Count(n: nat, m: nat)
    requires m >= 1
    ensures (n + 1) % m == (if n % m == m - 1 then 0 else n % m + 1)
    ensures (n + 1) / m == n / m + (if (n + 1) % m == 0 then 1 else 0)
  {
    var q, d := n / m, n % m;
    var q', d' := (n + 1) / m, (n + 1) % m;
    assert n == q * m + d && n + 1 == q' * m + d';
    if d == m - 1 {
      assert (q + 1) * m == q * m + m;
      QuotientIsUnique(q + 1, 0, q', d', m);
    } else {
      QuotientIsUnique(q, d + 1, q', d', m);
    }
  }

  /** Time passing keeps the relation. */
  lemma RateLater(p: LimitPolicy, l: Limiter, fails: seq<Time>, now: Time, later: Time)
    requires p.maxAttempts >= 1 && RateOk(p, l, fails, now) && now <= later
    ensures RateOk(p, l, fails, later)
  {
  }

  lemma SpacedAppend(p: LimitPolicy, fails: seq<Time>, at: Time)
    requires p.maxAttempts >= 1 && Spaced(p, fails) && Waited(p, fails, at)
    ensures Spaced(p, fails + [at])
  {
  }

  /** A passed seed request means the gap has elapsed; every event keeps the relation. */
  lemma RateStep(p: LimitPolicy, l: Limiter, fails: seq<Time>, now: Time, ev: LimitEvent, later: Time)
    requires p.maxAttempts >= 1 && RateOk(p, l, fails, now)
    requires match ev
             case Asked(t) => now <= t <= later
             case Failed(t, locked) => now <= t <= locked && locked <= later && l.lockout.None? && Waited(p, fails, now)
             case Succeeded => now <= later
    ensures RateOk(p, React(p, l, ev), FailsAfter(fails, [ev]), later)
    ensures ev.Asked? && Verdict(p, l, ev.now).None? ==> Waited(p, fails, ev.now)
  {
    if ev.Failed? {
      Count(|fails|, p.maxAttempts);
      SpacedAppend(p, fails, ev.at);
    }
  }
}
