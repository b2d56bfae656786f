/** The virtual ECU as an object that drives its sub-handlers, refining the handler functions. */
module VirtualEcu {
  import opened Common
  import opened Session
  import opened SecurityAccess
  import opened Authentication
  import opened AuditLog
  import opened Ecu

  class VirtualECU {
    ghost const env: Env
    const sessionSm: SessionStateMachine
    const securityAccess: SecurityAccessHandler
    const authentication: AuthenticationHandler
    const audit: AuditLogger
    var owner: Option<nat>
    var mechanism: Mechanism

    ghost const Repr: set<object> := {this, sessionSm, securityAccess, authentication, audit}

    ghost function State(): EcuState
      reads Repr
    {
      EcuState(sessionSm.State(), securityAccess.State(), authentication.State(), audit.State(), owner, mechanism)
    }

    /** The sub-handlers share one session machine and the ECU's policy. */
    ghost predicate Valid()
      reads Repr
    {
      && securityAccess.sessionSm == authentication.sessionSm == sessionSm
      && sessionSm.policy == env.session
      && securityAccess.policy == env.sa && securityAccess.hmac == env.hmac && securityAccess.Valid()
      && authentication.backend == env.certs
      && audit.hash == env.hash
    }

    constructor Start(session: SessionPolicy, pairs: seq<LevelPair>, limits: LimitPolicy, genesis: string,
                      hmac: (Bytes, string) -> Bytes, certs: CertBackend, hash: Hasher, now: Time)
      ensures Valid() && fresh(Repr)
      ensures env == Env(session, SaPolicy(LevelTable(pairs), limits), genesis, hmac, certs, hash)
      ensures State() == Initial(env, now)
    {
      var sm := new SessionStateMachine(session, now);
      var sa := new SecurityAccessHandler(pairs, limits, hmac, sm);
      var auth := new AuthenticationHandler(certs, sm);
      var log := new AuditLogger(hash, genesis);
      env := Env(session, SaPolicy(LevelTable(pairs), limits), genesis, hmac, certs, hash);
      sessionSm, securityAccess, authentication, audit := sm, sa, auth, log;
      owner, mechanism := None, Unlocked;
    }

    method ClearAccessLevels()
      requires Valid()
      modifies this, securityAccess, authentication
      ensures Valid() && State() == Cleared(old(State()))
    {
      securityAccess.ClearAccess();
      authentication.ClearAccess();
      owner := None;
      mechanism := Unlocked;
    }

    method IsAccessGranted(level: AccessLevel, sessionId: int) returns (granted: bool)
      requires Valid()
      ensures granted <==> AccessGranted(State(), level, sessionId)
    {
      var sa := securityAccess.grantedLevel;
      var auth := authentication.grantedLevel;
      if level == READ_ONLY {
        return true;
      }
      if level == CALIBRATION {
        return sessionId == EXTENDED && sa == Some(CALIBRATION);
      }
      if level == ECU_PROGRAMMING {
        return sessionId == PROGRAMMING && sa == Some(ECU_PROGRAMMING);
      }
      if level == ENGINEERING {
        return sessionId == EXTENDED && auth == Some(ENGINEERING);
      }
      if level == FULL_ACCESS {
        return sessionId == PROGRAMMING && auth == Some(FULL_ACCESS);
      }
      granted := false;
    }

    method RpcSessionControl(i: Input, target: int) returns (r: Response)
      requires Valid()
      modifies Repr
      ensures Valid() && StepResult(State(), r) == OnSessionControl(env, old(State()), i, target)
    {
      var current := sessionSm.Current(i.clock.t0);
      if current != DEFAULT && owner != Some(i.conn) {
        return Negative(0x22);
      }
      var outcome := sessionSm.Transition(target, i.clock.t1, i.clock.t2);
      if outcome.Rejected? {
        return Negative(outcome.nrc);
      }
      var newSession := sessionSm.Current(i.clock.t3);
      if newSession != DEFAULT {
        owner := Some(i.conn);
        audit.Emit(SessionEvent("SESSION_START", i.conn, "success"), i.stamp);
      } else {
        ClearAccessLevels();
        audit.Emit(SessionEvent("SESSION_END", i.conn, "success"), i.stamp);
      }
      r := SessionPositive(target);
    }

    method RpcGetSessionState(i: Input) returns (r: Response)
      requires Valid()
      modifies Repr
      ensures Valid() && StepResult(State(), r) == OnGetSessionState(env, old(State()), i)
    {
      var current := sessionSm.Current(i.clock.t0);
      if current != DEFAULT && owner == Some(i.conn) {
        sessionSm.Touch(i.clock.t1);
      }
      if current == DEFAULT {
        owner := None;
      }
      r := SessionInfo(current);
    }

    method RpcInjectTamper(i: Input) returns (r: Response)
      requires Valid()
      modifies Repr
      ensures Valid() && StepResult(State(), r) == OnInjectTamper(env, old(State()), i)
    {
      sessionSm.Reset(i.clock.t0);
      ClearAccessLevels();
      audit.Emit(SessionEvent("SESSION_TAMPER_RESET", i.conn, "tamper"), i.stamp);
      r := Done;
    }

    method RpcRequestSeed(i: Input, sf: int) returns (r: Response)
      requires Valid()
      modifies Repr
      ensures Valid() && StepResult(State(), r) == OnRequestSeed(env, old(State()), i, sf)
    {
      var current := sessionSm.Current(i.clock.t0);
      if current != DEFAULT && owner != Some(i.conn) {
        return Negative(0x22);
      }
      if mechanism == Mech29 {
        return Negative(0x24);
      }
      var outcome := securityAccess.RequestSeed(sf, i.random, i.clock);
      match outcome {
        case Accepted(seed) =>
          mechanism := Mech27;
          r := SeedPositive(seed);
        case Rejected(nrc) =>
          r := Negative(nrc);
      }
    }

    method RpcSendKey(i: Input, sf: int, key: Bytes) returns (r: Response)
      requires Valid()
      modifies Repr
      ensures Valid() && StepResult(State(), r) == OnSendKey(env, old(State()), i, sf, key)
    {
      var current := sessionSm.Current(i.clock.t0);
      if current != DEFAULT && owner != Some(i.conn) {
        return Negative(0x22);
      }
      var outcome := securityAccess.SendKey(sf, key, i.clock);
      match outcome {
        case Accepted(level) =>
          audit.Emit(SuccessEvent(0x27, level, i.conn), i.stamp);
          r := KeyPositive(level);
        case Rejected(nrc) =>
          if nrc == 0x35 {
            audit.Emit(FailureEvent(0x27, nrc, i.conn), i.stamp);
          }
          r := Negative(nrc);
      }
    }

    method RpcCommunicateCertificate(i: Input, pem: string) returns (r: Response)
      requires Valid()
      modifies Repr
      ensures Valid() && StepResult(State(), r) == OnCommunicateCertificate(env, old(State()), i, pem)
    {
      var current := sessionSm.Current(i.clock.t0);
      if current != DEFAULT && owner != Some(i.conn) {
        return Negative(0x22);
      }
      if current == DEFAULT {
        return Negative(0x22);
      }
      if mechanism == Mech27 {
        return Negative(0x24);
      }
      var outcome := authentication.CommunicateCertificate(pem, current, i.utc, i.revoked, i.random, i.clock.t1);
      match outcome {
        case Accepted(challenge) =>
          mechanism := Mech29;
          r := CertPositive(challenge);
        case Rejected(nrc) =>
          r := Negative(nrc);
      }
    }

    method RpcVerifyProof(i: Input, proof: Bytes) returns (r: Response)
      requires Valid()
      modifies Repr
      ensures Valid() && StepResult(State(), r) == OnVerifyProof(env, old(State()), i, proof)
    {
      var current := sessionSm.Current(i.clock.t0);
      if current != DEFAULT && owner != Some(i.conn) {
        return Negative(0x22);
      }
      if current == DEFAULT {
        return Negative(0x22);
      }
      var outcome := authentication.VerifyProof(proof, current, i.clock.t1);
      match outcome {
        case Accepted(level) =>
          audit.Emit(SuccessEvent(0x29, level, i.conn), i.stamp);
          r := ProofPositive(level);
        case Rejected(nrc) =>
          audit.Emit(FailureEvent(0x29, nrc, i.conn), i.stamp);
          r := Negative(nrc);
      }
    }

    method RpcDeauthenticate(i: Input) returns (r: Response)
      requires Valid()
      modifies Repr
      ensures Valid() && StepResult(State(), r) == OnDeauthenticate(env, old(State()), i)
    {
      var current := sessionSm.Current(i.clock.t0);
      if current != DEFAULT && owner != Some(i.conn) {
        return Negative(0x22);
      }
      authentication.Deauthenticate();
      r := DeauthPositive;
    }

    method RpcCheckAccess(i: Input, level: AccessLevel) returns (r: Response)
      requires Valid()
      modifies Repr
      ensures Valid() && StepResult(State(), r) == OnCheckAccess(env, old(State()), i, level)
    {
      var current := sessionSm.Current(i.clock.t0);
      if current == DEFAULT {
        ClearAccessLevels();
      }
      var granted := IsAccessGranted(level, current);
      r := AccessInfo(granted);
    }

    /** The generic PDU entry point: checks service and length, then forwards. */
    method RpcSendUdsPdu(i: Input, serviceId: int, payload: seq<int>) returns (r: Response)
      requires Valid() && i.request == SendUdsPdu(serviceId, payload)
      modifies Repr
      ensures Valid() && StepResult(State(), r) == Step(env, old(State()), i)
    {
      if serviceId == 0x10 {
        if |payload| != 1 {
          return Negative(0x13);
        }
        r := RpcSessionControl(i, payload[0]);
      } else if serviceId == 0x27 {
        if |payload| < 1 {
          return Negative(0x13);
        }
        r := RpcRequestSeed(i, payload[0]);
      } else {
        r := Negative(0x13);
      }
    }

    /** Handles one request under the lock, whatever its method. */
    method Rpc(i: Input) returns (r: Response)
      requires Valid()
      modifies Repr
      ensures Valid() && StepResult(State(), r) == Step(env, old(State()), i)
    {
      match i.request {
        case SessionControl(target) => r := RpcSessionControl(i, target);
        case GetSessionState => r := RpcGetSessionState(i);
        case InjectTamper => r := RpcInjectTamper(i);
        case RequestSeed(sf) => r := RpcRequestSeed(i, sf);
        case SendKey(sf, key) => r := RpcSendKey(i, sf, key);
        case GetAccessLevel => r := LevelInfo(securityAccess.grantedLevel);
        case GetAttemptCounter(level) =>
          var count := securityAccess.AttemptCounter(level);
          r := CountInfo(count);
        case CommunicateCertificate(pem) => r := RpcCommunicateCertificate(i, pem);
        case VerifyProof(proof) => r := RpcVerifyProof(i, proof);
        case Deauthenticate => r := RpcDeauthenticate(i);
        case GetAuthAccessLevel => r := LevelInfo(authentication.grantedLevel);
        case GetAuditLog => r := LogInfo(audit.entries);
        case InjectReplayNonce(nonce) =>
          authentication.InjectPendingNonce(nonce);
          r := Done;
        case SendUdsPdu(serviceId, payload) => r := RpcSendUdsPdu(i, serviceId, payload);
        case CheckAccess(level) => r := RpcCheckAccess(i, level);
      }
    }
  }
}
