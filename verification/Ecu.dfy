/** The request handlers of the virtual ECU as functions of its state, and their dispatch. */
module Ecu {
  import opened Common
  import opened Session
  import opened SecurityAccess
  import opened Authentication
  import opened AuditLog

  /** The policy constants and the foreign primitives of one ECU. */
  datatype Env = Env(
    session: SessionPolicy,
    sa: SaPolicy,
    genesis: string,
    hmac: (Bytes, string) -> Bytes,
    certs: CertBackend,
    hash: Hasher)
  {
    /** At least one attempt is allowed, and the subfunction table pairs its rows. */
    predicate WellFormed() {
      sa.limits.maxAttempts >= 1 && WellFormedTable(sa.levels)
    }
  }

  /** The mechanism first used since the last clearing event. */
  datatype Mechanism = Unlocked | Mech27 | Mech29

  datatype EcuState = EcuState(
    session: SessionState,
    sa: SaState,
    auth: AuthState,
    log: LogState,
    owner: Option<nat>,
    mechanism: Mechanism)

  datatype Request =
    | SessionControl(sessionId: int)
    | GetSessionState
    | InjectTamper
    | RequestSeed(subfunction: int)
    | SendKey(keySubfunction: int, key: Bytes)
    | GetAccessLevel
    | GetAttemptCounter(counterOf: AccessLevel)
    | CommunicateCertificate(pem: string)
    | VerifyProof(proof: Bytes)
    | Deauthenticate
    | GetAuthAccessLevel
    | GetAuditLog
    | InjectReplayNonce(nonce: Bytes)
    | SendUdsPdu(serviceId: int, payload: seq<int>)
    | CheckAccess(level: AccessLevel)

  datatype Response =
    | Negative(nrc: nat)
    | SessionPositive(sessionId: int)
    | SessionInfo(current: int)
    | Done
    | SeedPositive(seed: Bytes)
    | KeyPositive(keyLevel: AccessLevel)
    | LevelInfo(granted: Option<AccessLevel>)
    | CountInfo(count: nat)
    | CertPositive(challenge: Challenge)
    | ProofPositive(proofLevel: AccessLevel)
    | DeauthPositive
    | LogInfo(entries: seq<Entry>)
    | AccessInfo(access: bool)

  /**
   * Everything one atomic step depends on: the connection and its request, the
   * clock readings, the random bytes a seed or nonce would take, and, for
   * certificates and the log, the wall clock, the revocation list and the time stamp.
   */
  datatype Input = Input(
    conn: nat, request: Request, clock: Clock, random: Bytes, utc: Time, revoked: set<string>, stamp: string)

  datatype StepResult = StepResult(state: EcuState, response: Response)

  /** `start`: every component fresh, the session timer started at `now`. */
  function Initial(e: Env, now: Time): EcuState {
    EcuState(SessionState(DEFAULT, now), InitialSa(e.sa), INITIAL_AUTH, LogState([], e.genesis), None, Unlocked)
  }

  function Cleared(s: EcuState): EcuState {
    s.(sa := ClearSa(s.sa), auth := ClearAuth(s.auth), owner := None, mechanism := Unlocked)
  }

  function Logged(e: Env, s: EcuState, ev: AuditEvent, stamp: string): EcuState {
    s.(log := Emitted(e.hash, s.log, ev, stamp))
  }

  /** The state with the inactivity check applied. */
  function Observed(e: Env, s: EcuState, now: Time): EcuState {
    s.(session := Expired(e.session.timeout, s.session, now))
  }

  /** An elevated session belongs to another connection. */
  predicate Foreign(s: EcuState, conn: nat) {
    s.session.session != DEFAULT && s.owner != Some(conn)
  }

  predicate AccessGranted(s: EcuState, level: AccessLevel, sessionId: int) {
    match level
    case READ_ONLY => true
    case CALIBRATION => sessionId == EXTENDED && s.sa.granted == Some(CALIBRATION)
    case ECU_PROGRAMMING => sessionId == PROGRAMMING && s.sa.granted == Some(ECU_PROGRAMMING)
    case ENGINEERING => sessionId == EXTENDED && s.auth.granted == Some(ENGINEERING)
    case FULL_ACCESS => sessionId == PROGRAMMING && s.auth.granted == Some(FULL_ACCESS)
    case Custom(_) => false
  }

  function SessionEvent(eventType: string, conn: nat, result: string): AuditEvent {
    AuditEvent(eventType, Some(0x10), None, Some(conn), Some(result), None)
  }

  function SuccessEvent(service: int, level: AccessLevel, conn: nat): AuditEvent {
    AuditEvent("AUTH_SUCCESS", Some(service), Some(LevelName(level)), Some(conn), Some("success"), None)
  }

  function FailureEvent(service: int, nrc: nat, conn: nat): AuditEvent {
    AuditEvent("AUTH_FAILURE", Some(service), None, Some(conn), Some("failure"), Some(nrc))
  }

  function OnSessionControl(e: Env, s: EcuState, i: Input, target: int): StepResult {
    var s0 := Observed(e, s, i.clock.t0);
    if Foreign(s0, i.conn) then
      StepResult(s0, Negative(0x22))
    else
      var t := Transited(e.session, s0.session, target, i.clock.t1, i.clock.t2);
      var s1 := s0.(session := t.state);
      if t.outcome.Rejected? then
        StepResult(s1, Negative(t.outcome.nrc))
      else
        var s2 := Observed(e, s1, i.clock.t3);
        if s2.session.session != DEFAULT then
          StepResult(Logged(e, s2.(owner := Some(i.conn)), SessionEvent("SESSION_START", i.conn, "success"), i.stamp),
                     SessionPositive(target))
        else
          StepResult(Logged(e, Cleared(s2), SessionEvent("SESSION_END", i.conn, "success"), i.stamp),
                     SessionPositive(target))
  }

  function OnGetSessionState(e: Env, s: EcuState, i: Input): StepResult {
    var s0 := Observed(e, s, i.clock.t0);
    if s0.session.session == DEFAULT then
      StepResult(s0.(owner := None), SessionInfo(s0.session.session))
    else if s0.owner == Some(i.conn) then
      StepResult(s0.(session := Touched(s0.session, i.clock.t1)), SessionInfo(s0.session.session))
    else
      StepResult(s0, SessionInfo(s0.session.session))
  }

  function OnInjectTamper(e: Env, s: EcuState, i: Input): StepResult {
    var s1 := Cleared(s.(session := SessionState(DEFAULT, i.clock.t0)));
    StepResult(Logged(e, s1, SessionEvent("SESSION_TAMPER_RESET", i.conn, "tamper"), i.stamp), Done)
  }

  function OnRequestSeed(e: Env, s: EcuState, i: Input, sf: int): StepResult {
    var s0 := Observed(e, s, i.clock.t0);
    if Foreign(s0, i.conn) then
      StepResult(s0, Negative(0x22))
    else if s0.mechanism == Mech29 then
      StepResult(s0, Negative(0x24))
    else
      var r := SeedRequested(e.sa, e.session.timeout, s0.session, s0.sa, sf, i.random, i.clock);
      var s1 := s0.(session := r.session, sa := r.sa);
      match r.outcome
      case Accepted(seed) => StepResult(s1.(mechanism := Mech27), SeedPositive(seed))
      case Rejected(nrc) => StepResult(s1, Negative(nrc))
  }

  function OnSendKey(e: Env, s: EcuState, i: Input, sf: int, key: Bytes): StepResult {
    var s0 := Observed(e, s, i.clock.t0);
    if Foreign(s0, i.conn) then
      StepResult(s0, Negative(0x22))
    else
      var r := KeySent(e.sa, e.session.timeout, e.hmac, s0.session, s0.sa, sf, key, i.clock);
      var s1 := s0.(session := r.session, sa := r.sa);
      match r.outcome
      case Accepted(level) => StepResult(Logged(e, s1, SuccessEvent(0x27, level, i.conn), i.stamp), KeyPositive(level))
      case Rejected(nrc) =>
        StepResult(if nrc == 0x35 then Logged(e, s1, FailureEvent(0x27, nrc, i.conn), i.stamp) else s1, Negative(nrc))
  }

  function OnCommunicateCertificate(e: Env, s: EcuState, i: Input, pem: string): StepResult {
    var s0 := Observed(e, s, i.clock.t0);
    if Foreign(s0, i.conn) || s0.session.session == DEFAULT then
      StepResult(s0, Negative(0x22))
    else if s0.mechanism == Mech27 then
      StepResult(s0, Negative(0x24))
    else
      var r := CertCommunicated(e.certs, s0.session, s0.auth, pem, s0.session.session, i.utc, i.revoked, i.random, i.clock.t1);
      var s1 := s0.(session := r.session, auth := r.auth);
      match r.outcome
      case Accepted(challenge) => StepResult(s1.(mechanism := Mech29), CertPositive(challenge))
      case Rejected(nrc) => StepResult(s1, Negative(nrc))
  }

  function OnVerifyProof(e: Env, s: EcuState, i: Input, proof: Bytes): StepResult {
    var s0 := Observed(e, s, i.clock.t0);
    if Foreign(s0, i.conn) || s0.session.session == DEFAULT then
      StepResult(s0, Negative(0x22))
    else
      var r := ProofVerified(e.certs, s0.session, s0.auth, proof, s0.session.session, i.clock.t1);
      var s1 := s0.(session := r.session, auth := r.auth);
      match r.outcome
      case Accepted(level) => StepResult(Logged(e, s1, SuccessEvent(0x29, level, i.conn), i.stamp), ProofPositive(level))
      case Rejected(nrc) =>
        StepResult(Logged(e, s1, FailureEvent(0x29, nrc, i.conn), i.stamp), Negative(nrc))
  }

  function OnDeauthenticate(e: Env, s: EcuState, i: Input): StepResult {
    var s0 := Observed(e, s, i.clock.t0);
    if Foreign(s0, i.conn) then
      StepResult(s0, Negative(0x22))
    else
      StepResult(s0.(auth := ClearAuth(s0.auth)), DeauthPositive)
  }

  function OnCheckAccess(e: Env, s: EcuState, i: Input, level: AccessLevel): StepResult {
    var s0 := Observed(e, s, i.clock.t0);
    var s1 := if s0.session.session == DEFAULT then Cleared(s0) else s0;
    StepResult(s1, AccessInfo(AccessGranted(s1, level, s0.session.session)))
  }

  /** The typed request a raw PDU is forwarded to, if its service and length are supported. */
  function Decoded(r: Request): Option<Request> {
    if !r.SendUdsPdu? then Some(r)
    else if r.serviceId == 0x10 && |r.payload| == 1 then Some(SessionControl(r.payload[0]))
    else if r.serviceId == 0x27 && |r.payload| >= 1 then Some(RequestSeed(r.payload[0]))
    else None
  }

  /** One request, handled atomically. */
  function Step(e: Env, s: EcuState, i: Input): StepResult {
    match Decoded(i.request)
    case None => StepResult(s, Negative(0x13))
    case Some(r) =>
      match r
      case SessionControl(target) => OnSessionControl(e, s, i, target)
      case GetSessionState => OnGetSessionState(e, s, i)
      case InjectTamper => OnInjectTamper(e, s, i)
      case RequestSeed(sf) => OnRequestSeed(e, s, i, sf)
      case SendKey(sf, key) => OnSendKey(e, s, i, sf, key)
      case GetAccessLevel => StepResult(s, LevelInfo(s.sa.granted))
      case GetAttemptCounter(level) => StepResult(s, CountInfo(s.sa.Count(level)))
      case CommunicateCertificate(pem) => OnCommunicateCertificate(e, s, i, pem)
      case VerifyProof(proof) => OnVerifyProof(e, s, i, proof)
      case Deauthenticate => OnDeauthenticate(e, s, i)
      case GetAuthAccessLevel => StepResult(s, LevelInfo(s.auth.granted))
      case GetAuditLog => StepResult(s, LogInfo(s.log.entries))
      case InjectReplayNonce(nonce) => StepResult(s.(auth := s.auth.(pendingChallenge := Some(nonce))), Done)
      case SendUdsPdu(_, _) => StepResult(s, Negative(0x13))
      case CheckAccess(level) => OnCheckAccess(e, s, i, level)
  }
}
