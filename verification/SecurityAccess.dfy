/** Service 0x27: seeds, keys, and the per-level attempt counter, delay and lockout. */
module SecurityAccess {
  import opened Common
  import opened Session

  /** One seed/key pair of the policy file. */
  datatype LevelPair = LevelPair(
    requestSeed: int, sendKey: int, requiredSession: int, accessLevel: AccessLevel, secret: string)

  /** One row of the subfunction table built from the pairs. */
  datatype LevelConfig =
    | SeedLevel(requiredSession: int, accessLevel: AccessLevel, sendKey: int, secret: string)
    | KeyLevel(requiredSession: int, accessLevel: AccessLevel, requestSeed: int, secret: string)

  function Rows(table: map<int, LevelConfig>, p: LevelPair): map<int, LevelConfig> {
    table
      [p.requestSeed := SeedLevel(p.requiredSession, p.accessLevel, p.sendKey, p.secret)]
      [p.sendKey := KeyLevel(p.requiredSession, p.accessLevel, p.requestSeed, p.secret)]
  }

  /** The table the constructor builds: later pairs overwrite earlier ones. */
  function LevelTable(pairs: seq<LevelPair>): map<int, LevelConfig> {
    if pairs == [] then map[] else Rows(LevelTable(pairs[..|pairs| - 1]), pairs[|pairs| - 1])
  }

  /** No subfunction and no access level is used twice. */
  predicate DistinctPairs(pairs: seq<LevelPair>) {
    && (forall i | 0 <= i < |pairs| :: pairs[i].requestSeed != pairs[i].sendKey)
    && (forall i, j | 0 <= i < j < |pairs| ::
          && pairs[i].accessLevel != pairs[j].accessLevel
          && {pairs[i].requestSeed, pairs[i].sendKey} !! {pairs[j].requestSeed, pairs[j].sendKey})
  }

  /** The row of `sf` has its partner row in the table. */
  predicate Paired(levels: map<int, LevelConfig>, sf: int)
    requires sf in levels
  {
    var cfg := levels[sf];
    && (cfg.SeedLevel? ==>
          cfg.sendKey in levels && levels[cfg.sendKey] == KeyLevel(cfg.requiredSession, cfg.accessLevel, sf, cfg.secret))
    && (cfg.KeyLevel? ==>
          cfg.requestSeed in levels &&
          levels[cfg.requestSeed] == SeedLevel(cfg.requiredSession, cfg.accessLevel, sf, cfg.secret))
  }

  /** Seed and key rows are paired with each other, and each access level belongs to one pair. */
  predicate WellFormedTable(levels: map<int, LevelConfig>) {
    && (forall sf | sf in levels :: Paired(levels, sf))
    && (forall a, b | a in levels && b in levels && levels[a].accessLevel == levels[b].accessLevel
                      && levels[a].SeedLevel? == levels[b].SeedLevel? :: a == b)
  }

  /** The `i`-th pair uses subfunction `sf`, and no later pair does. */
  ghost predicate LastUse(pairs: seq<LevelPair>, i: int, sf: int) {
    && 0 <= i < |pairs|
    && sf in {pairs[i].requestSeed, pairs[i].sendKey}
    && forall k | i < k < |pairs| :: sf !in {pairs[k].requestSeed, pairs[k].sendKey}
  }

  /** What a pair makes of a subfunction it uses; a pair that uses one twice makes it a key row. */
  function RowOf(p: LevelPair, sf: int): LevelConfig {
    if sf == p.sendKey then KeyLevel(p.requiredSession, p.accessLevel, p.requestSeed, p.secret)
    else SeedLevel(p.requiredSession, p.accessLevel, p.sendKey, p.secret)
  }

  /** The table has a row for exactly the subfunctions in use, and it is that of the last pair to use it. */
  lemma {:induction false} TableRows(pairs: seq<LevelPair>, sf: int)
    ensures sf in LevelTable(pairs) <==> exists i :: LastUse(pairs, i, sf)
    ensures forall i | LastUse(pairs, i, sf) :: sf in LevelTable(pairs) && LevelTable(pairs)[sf] == RowOf(pairs[i], sf)
  {
    if pairs != [] {
      var n := |pairs| - 1;
      TableRows(pairs[..n], sf);
      if sf in {pairs[n].requestSeed, pairs[n].sendKey} {
        assert LastUse(pairs, n, sf);
      } else {
        forall i
          ensures LastUse(pairs, i, sf) <==> LastUse(pairs[..n], i, sf)
        {
        }
      }
    }
  }

  /** Pairs with distinct subfunctions and levels give a well-formed table. */
  lemma DistinctPairsAreWellFormed(pairs: seq<LevelPair>)
    requires DistinctPairs(pairs)
    ensures WellFormedTable(LevelTable(pairs))
  {
    var levels := LevelTable(pairs);
    forall sf | sf in levels
      ensures Paired(levels, sf)
    {
      TableRows(pairs, sf);
      var i :| LastUse(pairs, i, sf);
      var p := pairs[i];
      TableRows(pairs, p.requestSeed);
      TableRows(pairs, p.sendKey);
      assert LastUse(pairs, i, p.requestSeed) && LastUse(pairs, i, p.sendKey);
    }
    forall a, b | a in levels && b in levels && levels[a].accessLevel == levels[b].accessLevel
                  && levels[a].SeedLevel? == levels[b].SeedLevel?
      ensures a == b
    {
      TableRows(pairs, a);
      TableRows(pairs, b);
      var i :| LastUse(pairs, i, a);
      var j :| LastUse(pairs, j, b);
      assert i == j;
    }
  }

  datatype LimitPolicy = LimitPolicy(maxAttempts: int, requiredDelay: Time, lockoutDuration: Time)

  datatype SaPolicy = SaPolicy(levels: map<int, LevelConfig>, limits: LimitPolicy)

  datatype SaState = SaState(
    pendingSeeds: map<int, Bytes>,
    granted: Option<AccessLevel>,
    counters: map<AccessLevel, nat>,
    lockoutUntil: map<AccessLevel, Option<Time>>,
    lastFailAt: map<AccessLevel, Option<Time>>)
  {
    /** The accessors read a missing key as the source's `dict.get` does. */
    function Count(level: AccessLevel): nat {
      if level in counters then counters[level] else 0
    }

    function Lockout(level: AccessLevel): Option<Time> {
      if level in lockoutUntil then lockoutUntil[level] else None
    }

    function LastFail(level: AccessLevel): Option<Time> {
      if level in lastFailAt then lastFailAt[level] else None
    }
  }

  function AccessLevels(levels: map<int, LevelConfig>): set<AccessLevel> {
    set sf | sf in levels && levels[sf].KeyLevel? :: levels[sf].accessLevel
  }

  function InitialSa(p: SaPolicy): SaState {
    var names := AccessLevels(p.levels);
    SaState(map[], None, map l | l in names :: 0, map l | l in names :: None, map l | l in names :: None)
  }

  function ClearSa(s: SaState): SaState {
    s.(granted := None, pendingSeeds := map[])
  }

  /** The limiter state of one level set to its start value. */
  function ResetLimiter(s: SaState, level: AccessLevel): SaState {
    s.(counters := s.counters[level := 0],
       lockoutUntil := s.lockoutUntil[level := None],
       lastFailAt := s.lastFailAt[level := None])
  }

  datatype LimitResult = LimitResult(state: SaState, blocked: Option<nat>)

  function RateChecked(p: LimitPolicy, s: SaState, level: AccessLevel, now: Time): LimitResult {
    var until := s.Lockout(level);
    if until.Some? && now < until.value then
      LimitResult(s, Some(0x36))
    else
      var s1 := if until.Some? then ResetLimiter(s, level) else s;
      var last := s1.LastFail(level);
      if last.Some? && now - last.value < p.requiredDelay then LimitResult(s1, Some(0x37)) else LimitResult(s1, None)
  }

  /** A wrong key: the failure is stamped with `failed`, a lockout runs from `locked`. */
  function FailureRecorded(p: LimitPolicy, s: SaState, level: AccessLevel, failed: Time, locked: Time): SaState {
    var count := s.Count(level) + 1;
    s.(counters := s.counters[level := count],
       lastFailAt := s.lastFailAt[level := Some(failed)],
       lockoutUntil := if count >= p.maxAttempts then s.lockoutUntil[level := Some(locked + p.lockoutDuration)]
                       else s.lockoutUntil)
  }

  datatype SaResult<T> = SaResult(session: SessionState, sa: SaState, outcome: Outcome<T>)

  /** requestSeed; readings: the session check, the rate limit, the timer reset. */
  function SeedRequested(p: SaPolicy, timeout: Time, session: SessionState, s: SaState, sf: int, random: Bytes, c: Clock)
    : SaResult<Bytes>
  {
    if sf !in p.levels || !p.levels[sf].SeedLevel? then
      SaResult(session, s, Rejected(0x22))
    else
      var cfg := p.levels[sf];
      var session1 := Expired(timeout, session, c.t1);
      if session1.session != cfg.requiredSession then
        SaResult(session1, s, Rejected(0x22))
      else
        var limit := RateChecked(p.limits, s, cfg.accessLevel, c.t2);
        if limit.blocked.Some? then
          SaResult(session1, limit.state, Rejected(limit.blocked.value))
        else
          SaResult(Touched(session1, c.t3),
                   limit.state.(pendingSeeds := limit.state.pendingSeeds[sf := random]),
                   Accepted(random))
  }

  /** sendKey; readings: the session check, then the failure and lockout stamps or the timer reset. */
  function KeySent(p: SaPolicy, timeout: Time, hmac: (Bytes, string) -> Bytes,
                   session: SessionState, s: SaState, sf: int, key: Bytes, c: Clock)
    : SaResult<AccessLevel>
  {
    if sf !in p.levels || !p.levels[sf].KeyLevel? then
      SaResult(session, s, Rejected(0x22))
    else
      var cfg := p.levels[sf];
      var session1 := Expired(timeout, session, c.t1);
      if session1.session != cfg.requiredSession then
        SaResult(session1, s, Rejected(0x22))
      else if cfg.requestSeed !in s.pendingSeeds then
        SaResult(session1, s, Rejected(0x24))
      else
        var expected := hmac(s.pendingSeeds[cfg.requestSeed], cfg.secret);
        var s1 := s.(pendingSeeds := s.pendingSeeds - {cfg.requestSeed});
        if key != expected then
          SaResult(session1, FailureRecorded(p.limits, s1, cfg.accessLevel, c.t2, c.t3), Rejected(0x35))
        else
          SaResult(Touched(session1, c.t2),
                   ResetLimiter(s1, cfg.accessLevel).(granted := Some(cfg.accessLevel)),
                   Accepted(cfg.accessLevel))
  }

  class SecurityAccessHandler {
    const policy: SaPolicy
    const hmac: (Bytes, string) -> Bytes
    const sessionSm: SessionStateMachine
    var pendingSeeds: map<int, Bytes>
    var grantedLevel: Option<AccessLevel>
    var attemptCounters: map<AccessLevel, nat>
    var lockoutUntil: map<AccessLevel, Option<Time>>
    var lastFailAt: map<AccessLevel, Option<Time>>

    function State(): SaState
      reads this
    {
      SaState(pendingSeeds, grantedLevel, attemptCounters, lockoutUntil, lastFailAt)
    }

    /** Every level that a key can earn has a counter. */
    ghost predicate Valid()
      reads this
    {
      forall sf | sf in policy.levels && policy.levels[sf].KeyLevel? :: policy.levels[sf].accessLevel in attemptCounters
    }

    constructor (pairs: seq<LevelPair>, limits: LimitPolicy, hmac: (Bytes, string) -> Bytes, sessionSm: SessionStateMachine)
      ensures Valid()
      ensures policy == SaPolicy(LevelTable(pairs), limits) && this.hmac == hmac && this.sessionSm == sessionSm
      ensures State() == InitialSa(policy)
    {
      var levels := ParseLevels(pairs);
      var names := AccessLevels(levels);
      policy := SaPolicy(levels, limits);
      this.hmac := hmac;
      this.sessionSm := sessionSm;
      pendingSeeds := map[];
      grantedLevel := None;
      attemptCounters := map l | l in names :: 0;
      lockoutUntil := map l | l in names :: None;
      lastFailAt := map l | l in names :: None;
    }

    static method ParseLevels(pairs: seq<LevelPair>) returns (levels: map<int, LevelConfig>)
      ensures levels == LevelTable(pairs)
    {
      levels := map[];
      for i := 0 to |pairs|
        invariant levels == LevelTable(pairs[..i])
      {
        var p := pairs[i];
        assert pairs[..i + 1][..i] == pairs[..i];
        levels := levels[p.requestSeed := SeedLevel(p.requiredSession, p.accessLevel, p.sendKey, p.secret)];
        levels := levels[p.sendKey := KeyLevel(p.requiredSession, p.accessLevel, p.requestSeed, p.secret)];
      }
      assert pairs[..|pairs|] == pairs;
    }

    method AttemptCounter(level: AccessLevel) returns (count: nat)
      ensures count == State().Count(level)
    {
      count := if level in attemptCounters then attemptCounters[level] else 0;
    }

    method ClearAccess()
      requires Valid()
      modifies this
      ensures Valid() && State() == ClearSa(old(State()))
    {
      grantedLevel := None;
      pendingSeeds := map[];
    }

    method RequestSeed(sf: int, random: Bytes, c: Clock) returns (outcome: Outcome<Bytes>)
      requires Valid()
      modifies this, sessionSm
      ensures Valid()
      ensures SaResult(sessionSm.State(), State(), outcome)
           == SeedRequested(policy, sessionSm.policy.timeout, old(sessionSm.State()), old(State()), sf, random, c)
    {
      if sf !in policy.levels || !policy.levels[sf].SeedLevel? {
        return Rejected(0x22);
      }
      var cfg := policy.levels[sf];
      var current := sessionSm.Current(c.t1);
      if current != cfg.requiredSession {
        return Rejected(0x22);
      }
      var blocked := CheckRateLimit(cfg.accessLevel, c.t2);
      if blocked.Some? {
        return Rejected(blocked.value);
      }
      pendingSeeds := pendingSeeds[sf := random];
      sessionSm.Touch(c.t3);
      outcome := Accepted(random);
    }

    method SendKey(sf: int, key: Bytes, c: Clock) returns (outcome: Outcome<AccessLevel>)
      requires Valid()
      modifies this, sessionSm
      ensures Valid()
      ensures SaResult(sessionSm.State(), State(), outcome)
           == KeySent(policy, sessionSm.policy.timeout, hmac, old(sessionSm.State()), old(State()), sf, key, c)
    {
      if sf !in policy.levels || !policy.levels[sf].KeyLevel? {
        return Rejected(0x22);
      }
      var cfg := policy.levels[sf];
      var current := sessionSm.Current(c.t1);
      if current != cfg.requiredSession {
        return Rejected(0x22);
      }
      if cfg.requestSeed !in pendingSeeds {
        return Rejected(0x24);
      }
      var expected := hmac(pendingSeeds[cfg.requestSeed], cfg.secret);
      pendingSeeds := pendingSeeds - {cfg.requestSeed};
      if key != expected {
        var nrc := RecordFailure(cfg.accessLevel, c.t2, c.t3);
        return Rejected(nrc);
      }
      RecordSuccess(cfg.accessLevel);
      grantedLevel := Some(cfg.accessLevel);
      sessionSm.Touch(c.t2);
      outcome := Accepted(cfg.accessLevel);
    }

    method CheckRateLimit(level: AccessLevel, now: Time) returns (blocked: Option<nat>)
      requires Valid()
      modifies this
      ensures Valid()
      ensures LimitResult(State(), blocked) == RateChecked(policy.limits, old(State()), level, now)
    {
      var until := if level in lockoutUntil then lockoutUntil[level] else None;
      if until.Some? {
        if now < until.value {
          return Some(0x36);
        }
        lockoutUntil := lockoutUntil[level := None];
        attemptCounters := attemptCounters[level := 0];
        lastFailAt := lastFailAt[level := None];
      }
      var last := if level in lastFailAt then lastFailAt[level] else None;
      if last.Some? && now - last.value < policy.limits.requiredDelay {
        return Some(0x37);
      }
      blocked := None;
    }

    method RecordFailure(level: AccessLevel, failed: Time, locked: Time) returns (nrc: nat)
      requires Valid() && level in attemptCounters
      modifies this
      ensures Valid() && nrc == 0x35
      ensures State() == FailureRecorded(policy.limits, old(State()), level, failed, locked)
    {
      attemptCounters := attemptCounters[level := attemptCounters[level] + 1];
      lastFailAt := lastFailAt[level := Some(failed)];
      if attemptCounters[level] >= policy.limits.maxAttempts {
        lockoutUntil := lockoutUntil[level := Some(locked + policy.limits.lockoutDuration)];
      }
      nrc := 0x35;
    }

    method RecordSuccess(level: AccessLevel)
      requires Valid()
      modifies this
      ensures Valid() && State() == ResetLimiter(old(State()), level)
    {
      attemptCounters := attemptCounters[level := 0];
      lastFailAt := lastFailAt[level := None];
      lockoutUntil := lockoutUntil[level := None];
    }
  }
}
