/** Service 0x29: certificate exchange, challenge, proof of possession, and the used-nonce history. */
module Authentication {
  import opened Common
  import opened Session

  /** A parsed certificate, identified by its encoding. */
  datatype Certificate = Certificate(der: Bytes)

  /** The X.509 and signature primitives the handler calls; nothing is assumed about them. */
  datatype CertBackend = CertBackend(
    parse: string -> Option<Certificate>,
    timeValid: (Certificate, Time) -> bool,
    issuerMatches: Certificate -> bool,
    signedByRoot: Certificate -> bool,
    fingerprint: Certificate -> string,
    proofVerifies: (Certificate, Bytes, Bytes) -> bool,
    ecuCertPem: string)

  datatype AuthState = AuthState(
    pendingChallenge: Option<Bytes>,
    pendingCert: Option<Certificate>,
    granted: Option<AccessLevel>,
    usedNonces: set<Bytes>)

  const INITIAL_AUTH := AuthState(None, None, None, {})

  function ClearAuth(s: AuthState): AuthState {
    s.(granted := None, pendingChallenge := None, pendingCert := None)
  }

  /** The text is a certificate that is in its validity period, chains to the root, is signed by it and not revoked. */
  predicate PassesAllChecks(b: CertBackend, pem: string, utc: Time, revoked: set<string>) {
    var cert := b.parse(pem);
    && cert.Some?
    && b.timeValid(cert.value, utc)
    && b.issuerMatches(cert.value)
    && b.signedByRoot(cert.value)
    && b.fingerprint(cert.value) !in revoked
  }

  /** The five checks, in order; the code tells which one failed first, and None that none did. */
  function ValidateCert(b: CertBackend, pem: string, utc: Time, revoked: set<string>): (nrc: Option<nat>)
    ensures nrc == Some(0x73) <==> b.parse(pem).None?
    ensures b.parse(pem).Some? ==>
              var cert := b.parse(pem).value;
              && (nrc == Some(0x75) <==> !b.timeValid(cert, utc))
              && (nrc == Some(0x78) <==> b.timeValid(cert, utc) && !b.issuerMatches(cert))
              && (nrc == Some(0x76) <==> b.timeValid(cert, utc) && b.issuerMatches(cert) && !b.signedByRoot(cert))
              && (nrc == Some(0x74) <==> b.timeValid(cert, utc) && b.issuerMatches(cert) && b.signedByRoot(cert)
                                         && b.fingerprint(cert) in revoked)
    ensures nrc.None? <==> PassesAllChecks(b, pem, utc, revoked)
  {
    match b.parse(pem)
    case None => Some(0x73)
    case Some(cert) =>
      if !b.timeValid(cert, utc) then Some(0x75)
      else if !b.issuerMatches(cert) then Some(0x78)
      else if !b.signedByRoot(cert) then Some(0x76)
      else if b.fingerprint(cert) in revoked then Some(0x74)
      else None
  }

  /** What a positive communicateCertificate carries. */
  datatype Challenge = Challenge(nonce: Bytes, ecuCert: Option<string>)

  datatype AuthResult<T> = AuthResult(session: SessionState, auth: AuthState, outcome: Outcome<T>)

  function CertCommunicated(b: CertBackend, session: SessionState, s: AuthState, pem: string, sessionId: int,
                            utc: Time, revoked: set<string>, random: Bytes, touched: Time)
    : AuthResult<Challenge>
  {
    var nrc := ValidateCert(b, pem, utc, revoked);
    if nrc.Some? then
      AuthResult(session, s, Rejected(nrc.value))
    else
      AuthResult(Touched(session, touched),
                 s.(pendingCert := b.parse(pem), pendingChallenge := Some(random)),
                 Accepted(Challenge(random, if sessionId == PROGRAMMING then Some(b.ecuCertPem) else None)))
  }

  function ProofVerified(b: CertBackend, session: SessionState, s: AuthState, proof: Bytes, sessionId: int, touched: Time)
    : AuthResult<AccessLevel>
  {
    if s.pendingChallenge.None? || s.pendingCert.None? then
      AuthResult(session, s, Rejected(0x24))
    else
      var challenge := s.pendingChallenge.value;
      var consumed := s.(pendingChallenge := None, pendingCert := None);
      if challenge in s.usedNonces then
        AuthResult(session, consumed, Rejected(0x24))
      else if !b.proofVerifies(s.pendingCert.value, proof, challenge) then
        AuthResult(session, consumed, Rejected(0x76))
      else
        var level := if sessionId == PROGRAMMING then FULL_ACCESS else ENGINEERING;
        AuthResult(Touched(session, touched),
                   consumed.(usedNonces := s.usedNonces + {challenge}, granted := Some(level)),
                   Accepted(level))
  }

  class AuthenticationHandler {
    const backend: CertBackend
    const sessionSm: SessionStateMachine
    var pendingChallenge: Option<Bytes>
    var pendingCert: Option<Certificate>
    var grantedLevel: Option<AccessLevel>
    var usedNonces: set<Bytes>

    function State(): AuthState
      reads this
    {
      AuthState(pendingChallenge, pendingCert, grantedLevel, usedNonces)
    }

    constructor (backend: CertBackend, sessionSm: SessionStateMachine)
      ensures this.backend == backend && this.sessionSm == sessionSm
      ensures State() == INITIAL_AUTH
    {
      this.backend := backend;
      this.sessionSm := sessionSm;
      pendingChallenge, pendingCert, grantedLevel := None, None, None;
      usedNonces := {};
    }

    method ClearAccess()
      modifies this
      ensures State() == ClearAuth(old(State()))
    {
      grantedLevel := None;
      pendingChallenge := None;
      pendingCert := None;
    }

    method CommunicateCertificate(pem: string, sessionId: int, utc: Time, revoked: set<string>, random: Bytes, touched: Time)
      returns (outcome: Outcome<Challenge>)
      modifies this, sessionSm
      ensures AuthResult(sessionSm.State(), State(), outcome)
           == CertCommunicated(backend, old(sessionSm.State()), old(State()), pem, sessionId, utc, revoked, random, touched)
    {
      var nrc := CheckCertificate(pem, utc, revoked);
      if nrc.Some? {
        return Rejected(nrc.value);
      }
      pendingCert := backend.parse(pem);
      pendingChallenge := Some(random);
      var ecuCert := if sessionId == PROGRAMMING then Some(backend.ecuCertPem) else None;
      sessionSm.Touch(touched);
      outcome := Accepted(Challenge(random, ecuCert));
    }

    /** Simulation only: replaces the pending challenge, whether or not an exchange is open. */
    method InjectPendingNonce(nonce: Bytes)
      modifies this
      ensures State() == old(State()).(pendingChallenge := Some(nonce))
    {
      pendingChallenge := Some(nonce);
    }

    method VerifyProof(proof: Bytes, sessionId: int, touched: Time) returns (outcome: Outcome<AccessLevel>)
      modifies this, sessionSm
      ensures AuthResult(sessionSm.State(), State(), outcome)
           == ProofVerified(backend, old(sessionSm.State()), old(State()), proof, sessionId, touched)
    {
      if pendingChallenge.None? || pendingCert.None? {
        return Rejected(0x24);
      }
      var challenge := pendingChallenge.value;
      var testerCert := pendingCert.value;
      if challenge in usedNonces {
        pendingChallenge, pendingCert := None, None;
        return Rejected(0x24);
      }
      pendingChallenge, pendingCert := None, None;
      if !backend.proofVerifies(testerCert, proof, challenge) {
        return Rejected(0x76);
      }
      usedNonces := usedNonces + {challenge};
      var level := if sessionId == PROGRAMMING then FULL_ACCESS else ENGINEERING;
      grantedLevel := Some(level);
      sessionSm.Touch(touched);
      outcome := Accepted(level);
    }

    method Deauthenticate()
      modifies this
      ensures State() == ClearAuth(old(State()))
    {
      grantedLevel := None;
      pendingChallenge := None;
      pendingCert := None;
    }

    method CheckCertificate(pem: string, utc: Time, revoked: set<string>) returns (nrc: Option<nat>)
      ensures nrc == ValidateCert(backend, pem, utc, revoked)
    {
      var parsed := backend.parse(pem);
      if parsed.None? {
        return Some(0x73);
      }
      var cert := parsed.value;
      if !backend.timeValid(cert, utc) {
        return Some(0x75);
      }
      if !backend.issuerMatches(cert) {
        return Some(0x78);
      }
      if !backend.signedByRoot(cert) {
        return Some(0x76);
      }
      if backend.fingerprint(cert) in revoked {
        return Some(0x74);
      }
      nrc := None;
    }
  }
}
