/** The audit log is exactly what requests and responses say should be logged. */
module LogCompleteness {
  import opened Common
  import opened Session
  import opened AuditLog
  import opened Ecu
  import opened Runs
  import opened Sequences

  /** An event and the time stamp it is logged with. */
  datatype Stamped = Stamped(event: AuditEvent, stamp: string)

  /** What a request and its response call for in the log. */
  function Expected(i: Input, response: Response): seq<Stamped> {
    if response.SessionPositive? then
      var kind := if response.sessionId == DEFAULT then "SESSION_END" else "SESSION_START";
      [Stamped(AuditEvent(kind, Some(0x10), None, Some(i.conn), Some("success"), None), i.stamp)]
    else if i.request.InjectTamper? then
      [Stamped(AuditEvent("SESSION_TAMPER_RESET", Some(0x10), None, Some(i.conn), Some("tamper"), None), i.stamp)]
    else if response.KeyPositive? then
      var name := LevelName(response.keyLevel);
      [Stamped(AuditEvent("AUTH_SUCCESS", Some(0x27), Some(name), Some(i.conn), Some("success"), None), i.stamp)]
    else if i.request.SendKey? && response == Negative(0x35) then
      [Stamped(AuditEvent("AUTH_FAILURE", Some(0x27), None, Some(i.conn), Some("failure"), Some(0x35)), i.stamp)]
    else if response.ProofPositive? then
      var name := LevelName(response.proofLevel);
      [Stamped(AuditEvent("AUTH_SUCCESS", Some(0x29), Some(name), Some(i.conn), Some("success"), None), i.stamp)]
    else if i.request.VerifyProof? && response.Negative? && response.nrc != 0x22 then
      [Stamped(AuditEvent("AUTH_FAILURE", Some(0x29), None, Some(i.conn), Some("failure"), Some(response.nrc)), i.stamp)]
    else []
  }

  /** What is logged: an elevation that has already timed out when its event is chosen counts as an end. */
  function Logs(i: Input, out: StepResult): seq<Stamped> {
    if out.response.SessionPositive? && !out.state.session.Elevated() then
      [Stamped(AuditEvent("SESSION_END", Some(0x10), None, Some(i.conn), Some("success"), None), i.stamp)]
    else Expected(i, out.response)
  }

  /** An accepted elevation is still elevated when its event is chosen. */
  predicate Prompt(e: Env, i: Input, response: Response) {
    response.SessionPositive? && response.sessionId != DEFAULT ==> i.clock.t3 - i.clock.t2 < e.session.timeout
  }

  function EmitAll(hash: Hasher, log: LogState, evs: seq<Stamped>): LogState {
    if evs == [] then log
    else
      var last := evs[|evs| - 1];
      Emitted(hash, EmitAll(hash, log, evs[..|evs| - 1]), last.event, last.stamp)
  }

  lemma EmitOne(hash: Hasher, log: LogState, ev: AuditEvent, stamp: string)
    ensures EmitAll(hash, log, [Stamped(ev, stamp)]) == Emitted(hash, log, ev, stamp)
  {
    assert [Stamped(ev, stamp)][..0] == [];
  }

  lemma SessionControlLogs(e: Env, s: EcuState, i: Input, target: int)
    requires Decoded(i.request) == Some(SessionControl(target))
    ensures var out := OnSessionControl(e, s, i, target); out.state.log == EmitAll(e.hash, s.log, Logs(i, out))
  {
    EmitOne(e.hash, s.log, SessionEvent("SESSION_START", i.conn, "success"), i.stamp);
    EmitOne(e.hash, s.log, SessionEvent("SESSION_END", i.conn, "success"), i.stamp);
  }

  lemma SendKeyLogs(e: Env, s: EcuState, i: Input, sf: int, key: Bytes)
    requires i.request == SendKey(sf, key)
    ensures var out := OnSendKey(e, s, i, sf, key); out.state.log == EmitAll(e.hash, s.log, Logs(i, out))
  {
    var out := OnSendKey(e, s, i, sf, key);
    EmitOne(e.hash, s.log, FailureEvent(0x27, 0x35, i.conn), i.stamp);
    if out.response.KeyPositive? {
      EmitOne(e.hash, s.log, SuccessEvent(0x27, out.response.keyLevel, i.conn), i.stamp);
    }
  }

  lemma VerifyProofLogs(e: Env, s: EcuState, i: Input, proof: Bytes)
    requires i.request == VerifyProof(proof)
    ensures var out := OnVerifyProof(e, s, i, proof); out.state.log == EmitAll(e.hash, s.log, Logs(i, out))
  {
    var out := OnVerifyProof(e, s, i, proof);
    if out.response.ProofPositive? {
      EmitOne(e.hash, s.log, SuccessEvent(0x29, out.response.proofLevel, i.conn), i.stamp);
    } else {
      EmitOne(e.hash, s.log, FailureEvent(0x29, out.response.nrc, i.conn), i.stamp);
    }
  }

  lemma RequestSeedIsSilent(e: Env, s: EcuState, i: Input, sf: int)
    requires Decoded(i.request) == Some(RequestSeed(sf))
    ensures var out := OnRequestSeed(e, s, i, sf); out.state.log == s.log && Logs(i, out) == []
  {
  }

  lemma CertificateIsSilent(e: Env, s: EcuState, i: Input, pem: string)
    requires i.request == CommunicateCertificate(pem)
    ensures var out := OnCommunicateCertificate(e, s, i, pem); out.state.log == s.log && Logs(i, out) == []
  {
  }

  lemma TamperLogs(e: Env, s: EcuState, i: Input)
    requires i.request == InjectTamper
    ensures var out := OnInjectTamper(e, s, i); out.state.log == EmitAll(e.hash, s.log, Logs(i, out))
  {
    EmitOne(e.hash, s.log, SessionEvent("SESSION_TAMPER_RESET", i.conn, "tamper"), i.stamp);
  }

  lemma OthersAreSilent(e: Env, s: EcuState, i: Input)
    requires i.request.GetSessionState? || i.request.GetAccessLevel? || i.request.GetAttemptCounter?
          || i.request.Deauthenticate? || i.request.GetAuthAccessLevel? || i.request.GetAuditLog?
          || i.request.InjectReplayNonce? || i.request.CheckAccess?
    ensures var out := Step(e, s, i); out.state.log == s.log && Logs(i, out) == []
  {
  }

  lemma LogStep(e: Env, s: EcuState, i: Input)
    ensures var out := Step(e, s, i);
            out.state.log == EmitAll(e.hash, s.log, Logs(i, out))
  {
    match Decoded(i.request) {
      case None =>
      case Some(r) =>
        match r {
          case SessionControl(target) => SessionControlLogs(e, s, i, target);
          case SendKey(sf, key) => SendKeyLogs(e, s, i, sf, key);
          case VerifyProof(proof) => VerifyProofLogs(e, s, i, proof);
          case InjectTamper => TamperLogs(e, s, i);
          case RequestSeed(sf) => RequestSeedIsSilent(e, s, i, sf);
          case CommunicateCertificate(pem) => CertificateIsSilent(e, s, i, pem);
          case _ => OthersAreSilent(e, s, i);
        }
    }
  }

  lemma PromptStep(e: Env, s: EcuState, i: Input)
    ensures var out := Step(e, s, i);
            Logs(i, out) == Expected(i, out.response) <==> Prompt(e, i, out.response)
  {
  }

  function ExpectedEach(r: Run): seq<seq<Stamped>>
    requires Shaped(r)
  {
    seq(|r.inputs|, k requires 0 <= k < |r.inputs| => Expected(r.inputs[k], r.responses[k]))
  }

  function LoggedEach(r: Run): seq<seq<Stamped>>
    requires Shaped(r)
  {
    seq(|r.inputs|, k requires 0 <= k < |r.inputs| => Logs(r.inputs[k], Out(r, k)))
  }

  /** What should be in the log after `n` steps. */
  function Projection(r: Run, n: nat): seq<Stamped>
    requires Shaped(r) && n <= |r.inputs|
  {
    Flat(ExpectedEach(r), n)
  }

  lemma {:induction false} EmitAppend(hash: Hasher, log: LogState, a: seq<Stamped>, b: seq<Stamped>)
    requires |b| <= 1
    ensures EmitAll(hash, log, a + b) == EmitAll(hash, EmitAll(hash, log, a), b)
  {
    if b == [] {
      assert a + b == a;
    } else {
      assert (a + b)[..|a|] == a && b[..0] == [];
    }
  }

  lemma LogAt(e: Env, r: Run, n: nat)
    requires IsBehaviour(e, r) && n < |r.inputs|
    ensures r.states[n + 1].log == EmitAll(e.hash, r.states[n].log, Logs(r.inputs[n], Out(r, n)))
    ensures |Logs(r.inputs[n], Out(r, n))| <= 1
  {
    assert IsStep(e, r, n);
    LogStep(e, r.states[n], r.inputs[n]);
  }

  lemma {:induction false} EmitFlat(hash: Hasher, logs: seq<LogState>, parts: seq<seq<Stamped>>, n: nat)
    requires |logs| == |parts| + 1 && n <= |parts|
    requires forall k | 0 <= k < |parts| :: |parts[k]| <= 1 && logs[k + 1] == EmitAll(hash, logs[k], parts[k])
    ensures logs[n] == EmitAll(hash, logs[0], Flat(parts, n))
  {
    if n > 0 {
      EmitFlat(hash, logs, parts, n - 1);
      EmitAppend(hash, logs[0], Flat(parts, n - 1), parts[n - 1]);
    }
  }

  lemma LogIsFold(e: Env, r: Run, parts: seq<seq<Stamped>>, n: nat)
    requires IsBehaviour(e, r) && n <= |r.inputs| == |parts|
    requires forall k | 0 <= k < |parts| ::
               |parts[k]| <= 1 && r.states[k + 1].log == EmitAll(e.hash, r.states[k].log, parts[k])
    ensures r.states[n].log == EmitAll(e.hash, LogState([], e.genesis), Flat(parts, n))
  {
    var logs := seq(|r.states|, k requires 0 <= k < |r.states| => r.states[k].log);
    EmitFlat(e.hash, logs, parts, n);
  }

  lemma LogIsLogged(e: Env, r: Run, n: nat)
    requires IsBehaviour(e, r) && n <= |r.inputs|
    ensures r.states[n].log == EmitAll(e.hash, LogState([], e.genesis), Flat(LoggedEach(r), n))
  {
    forall k | 0 <= k < |r.inputs|
      ensures |LoggedEach(r)[k]| <= 1 && r.states[k + 1].log == EmitAll(e.hash, r.states[k].log, LoggedEach(r)[k])
    {
      LogAt(e, r, k);
    }
    LogIsFold(e, r, LoggedEach(r), n);
  }

  /** A log determines the events in it. */
  lemma {:induction false} EmitAllIsInjective(hash: Hasher, genesis: string, a: seq<Stamped>, b: seq<Stamped>)
    requires EmitAll(hash, LogState([], genesis), a) == EmitAll(hash, LogState([], genesis), b)
    ensures a == b
    decreases |a|
  {
    EmitAllLength(hash, genesis, a);
    EmitAllLength(hash, genesis, b);
    if a != [] {
      var a', b' := a[..|a| - 1], b[..|b| - 1];
      var x, y := a[|a| - 1], b[|b| - 1];
      var before, before' := EmitAll(hash, LogState([], genesis), a'), EmitAll(hash, LogState([], genesis), b');
      EmitAllLength(hash, genesis, a');
      EmitAllLength(hash, genesis, b');
      EmittedDetermines(hash, before, x, before', y);
      EmitAllIsInjective(hash, genesis, a', b');
      SplitLast(a);
      SplitLast(b);
    }
  }

  lemma {:induction false} EmitAllLength(hash: Hasher, genesis: string, a: seq<Stamped>)
    ensures |EmitAll(hash, LogState([], genesis), a).entries| == |a|
  {
    if a != [] {
      EmitAllLength(hash, genesis, a[..|a| - 1]);
    }
  }

  lemma EmittedDetermines(hash: Hasher, log: LogState, x: Stamped, log': LogState, y: Stamped)
    requires |log.entries| == |log'.entries|
    requires Emitted(hash, log, x.event, x.stamp) == Emitted(hash, log', y.event, y.stamp)
    ensures x == y && log == log'
  {
    var n := |log.entries|;
    var after := Emitted(hash, log, x.event, x.stamp).entries;
    var after' := Emitted(hash, log', y.event, y.stamp).entries;
    EmittedIsLink(hash, log, x.event, x.stamp);
    EmittedIsLink(hash, log', y.event, y.stamp);
    BodyDeterminesEvent(x.event, x.stamp, log.prevHash, y.event, y.stamp, log'.prevHash);
    assert log.entries == after[..n] && log'.entries == after'[..n];
  }

  lemma PromptAt(e: Env, r: Run, n: nat)
    requires IsBehaviour(e, r) && n < |r.inputs|
    ensures Logs(r.inputs[n], Out(r, n)) == Expected(r.inputs[n], r.responses[n]) <==> Prompt(e, r.inputs[n], r.responses[n])
    ensures |Logs(r.inputs[n], Out(r, n))| == |Expected(r.inputs[n], r.responses[n])|
  {
    assert IsStep(e, r, n);
    PromptStep(e, r.states[n], r.inputs[n]);
  }

  lemma ProjectionIsLogged(e: Env, r: Run, n: nat)
    requires IsBehaviour(e, r) && n <= |r.inputs|
    ensures Projection(r, n) == Flat(LoggedEach(r), n) <==> forall k | 0 <= k < n :: Prompt(e, r.inputs[k], r.responses[k])
  {
    forall k | 0 <= k < |r.inputs|
      ensures |ExpectedEach(r)[k]| == |LoggedEach(r)[k]|
      ensures ExpectedEach(r)[k] == LoggedEach(r)[k] <==> Prompt(e, r.inputs[k], r.responses[k])
    {
      PromptAt(e, r, k);
    }
    FlatEqual(ExpectedEach(r), LoggedEach(r), n);
  }

  /**
   * The log is the projection of requests and responses, each event once and in
   * order, if and only if no accepted elevation timed out before it was logged.
   */
  lemma LogIsComplete(e: Env, r: Run, n: nat)
    requires IsBehaviour(e, r) && n <= |r.inputs|
    ensures r.states[n].log == EmitAll(e.hash, LogState([], e.genesis), Projection(r, n))
       <==> forall k | 0 <= k < n :: Prompt(e, r.inputs[k], r.responses[k])
  {
    LogIsLogged(e, r, n);
    ProjectionIsLogged(e, r, n);
    if r.states[n].log == EmitAll(e.hash, LogState([], e.genesis), Projection(r, n)) {
      EmitAllIsInjective(e.hash, e.genesis, Projection(r, n), Flat(LoggedEach(r), n));
    }
  }

  /** With one reading per request and a positive timeout, every elevation is prompt. */
  lemma InstantIsPrompt(e: Env, i: Input, response: Response)
    requires i.clock == Instant(i.clock.t0) && e.session.timeout > 0.0
    ensures Prompt(e, i, response)
  {
  }

  /** A first request for Extended during which the timeout passes, after the timer reset and before the next reading. */
  predicate IsSlow(e: Env, i: Input) {
    && i.request == SessionControl(EXTENDED)
    && i.clock.t3 - i.clock.t2 >= e.session.timeout
    && DEFAULT in e.session.allowed && EXTENDED in e.session.allowed[DEFAULT]
  }

  lemma SlowStep(e: Env, s: EcuState, i: Input)
    requires IsSlow(e, i) && s.session.session == DEFAULT
    ensures var out := Step(e, s, i);
            && out.response == SessionPositive(EXTENDED)
            && out.state.log == Emitted(e.hash, s.log, SessionEvent("SESSION_END", i.conn, "success"), i.stamp)
  {
  }

  /** Such an elevation is answered positively and logged as an end, so the log is not the projection of the run. */
  lemma SlowElevationIsMislogged(e: Env, r: Run, i: Input)
    requires IsSlow(e, i) && IsRun(e, r) && r.inputs == [i]
    ensures r.responses[0] == SessionPositive(EXTENDED) && !Prompt(e, i, r.responses[0])
    ensures r.states[1].log ==
              Emitted(e.hash, LogState([], e.genesis),
                      AuditEvent("SESSION_END", Some(0x10), None, Some(i.conn), Some("success"), None), i.stamp)
    ensures r.states[1].log != EmitAll(e.hash, LogState([], e.genesis), Projection(r, 1))
  {
    assert IsStep(e, r, 0);
    SlowStep(e, r.states[0], i);
    MisloggedAfter(e, r);
  }

  lemma MisloggedAfter(e: Env, r: Run)
    requires IsBehaviour(e, r) && |r.inputs| == 1 && !Prompt(e, r.inputs[0], r.responses[0])
    ensures r.states[1].log != EmitAll(e.hash, LogState([], e.genesis), Projection(r, 1))
  {
    LogIsComplete(e, r, 1);
  }

  /** There is such a run under every policy that lets Default pass to Extended. */
  lemma SlowRunExists(e: Env, conn: nat, stamp: string)
    requires DEFAULT in e.session.allowed && EXTENDED in e.session.allowed[DEFAULT] && e.session.timeout >= 0.0
    ensures var slow := Clock(0.0, 0.0, 0.0, e.session.timeout);
            var i := Input(conn, SessionControl(EXTENDED), slow, [], 0.0, {}, stamp);
            IsSlow(e, i) && exists r :: IsRun(e, r) && r.inputs == [i]
  {
    var i := Input(conn, SessionControl(EXTENDED), Clock(0.0, 0.0, 0.0, e.session.timeout), [], 0.0, {}, stamp);
    ExecuteIsBehaviour(e, 0.0, [i]);
    assert IsRun(e, Execute(e, 0.0, [i]));
  }
}
