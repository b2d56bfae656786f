/** Which requests set and clear what the ECU remembers, told from requests, responses and what a request finds. */
module History {
  import opened Common
  import opened Session
  import opened Authentication
  import opened Ecu
  import opened Register

  /**
   * The step revokes everything: a 0x10 that ends in Default, at once or because
   * the timeout passes within the request, tampering, or an access check that finds Default.
   */
  predicate Clears(e: Env, s: EcuState, i: Input, response: Response) {
    || (response.SessionPositive? && (response.sessionId == DEFAULT || i.clock.t3 - i.clock.t2 >= e.session.timeout))
    || i.request.InjectTamper?
    || (i.request.CheckAccess? && !Observed(e, s, i.clock.t0).session.Elevated())
  }

  function Grant27Write(e: Env, s: EcuState, i: Input, response: Response): Write<Option<AccessLevel>> {
    if response.KeyPositive? then Put(Some(response.keyLevel))
    else if Clears(e, s, i, response) then Put(None)
    else Keep
  }

  function Grant29Write(e: Env, s: EcuState, i: Input, response: Response): Write<Option<AccessLevel>> {
    if response.ProofPositive? then Put(Some(response.proofLevel))
    else if response.DeauthPositive? || Clears(e, s, i, response) then Put(None)
    else Keep
  }

  /** The request is a key for the pair whose seed subfunction is `sf`. */
  predicate KeyFor(e: Env, i: Input, sf: int) {
    && i.request.SendKey?
    && i.request.keySubfunction in e.sa.levels
    && e.sa.levels[i.request.keySubfunction].KeyLevel?
    && e.sa.levels[i.request.keySubfunction].requestSeed == sf
  }

  /** A key for the seed of `sf` was compared, whatever the outcome. */
  predicate Compares(e: Env, i: Input, response: Response, sf: int) {
    KeyFor(e, i, sf) && (response.KeyPositive? || response == Negative(0x35))
  }

  function SeedWrite(e: Env, s: EcuState, i: Input, response: Response, sf: int): Write<Option<Bytes>> {
    if response.SeedPositive? && Decoded(i.request) == Some(RequestSeed(sf)) then Put(Some(response.seed))
    else if Compares(e, i, response, sf) || Clears(e, s, i, response) then Put(None)
    else Keep
  }

  function PendingSeed(s: EcuState, sf: int): Option<Bytes> {
    if sf in s.sa.pendingSeeds then Some(s.sa.pendingSeeds[sf]) else None
  }

  /** A proof reached the handler, which closes an open certificate exchange. */
  predicate Closes(i: Input, response: Response) {
    i.request.VerifyProof? && response != Negative(0x22)
  }

  function CertWrite(e: Env, s: EcuState, i: Input, response: Response): Write<Option<Certificate>> {
    if response.CertPositive? && i.request.CommunicateCertificate? then Put(e.certs.parse(i.request.pem))
    else if response.DeauthPositive? || Closes(i, response) || Clears(e, s, i, response) then Put(None)
    else Keep
  }

  function ChallengeWrite(e: Env, s: EcuState, i: Input, response: Response): Write<Option<Bytes>> {
    if response.CertPositive? then Put(Some(response.challenge.nonce))
    else if i.request.InjectReplayNonce? then Put(Some(i.request.nonce))
    else if response.DeauthPositive? || Clears(e, s, i, response) then Put(None)
    else if s.auth.pendingCert.Some? && Closes(i, response) then Put(None)
    else Keep
  }

  function MechanismWrite(e: Env, s: EcuState, i: Input, response: Response): Write<Mechanism> {
    if response.SeedPositive? then Put(Mech27)
    else if response.CertPositive? then Put(Mech29)
    else if Clears(e, s, i, response) then Put(Unlocked)
    else Keep
  }

  function OwnerWrite(e: Env, s: EcuState, i: Input, response: Response): Write<Option<nat>> {
    if Clears(e, s, i, response) || response == SessionInfo(DEFAULT) then Put(None)
    else if response.SessionPositive? then Put(Some(i.conn))
    else Keep
  }

  /** The clock reading to which the inactivity timer is reset. */
  function ActivityWrite(s: EcuState, i: Input, response: Response): Write<Time> {
    match response
    case SessionPositive(_) => Put(i.clock.t2)
    case SeedPositive(_) => Put(i.clock.t3)
    case KeyPositive(_) => Put(i.clock.t2)
    case CertPositive(_) => Put(i.clock.t1)
    case ProofPositive(_) => Put(i.clock.t1)
    case SessionInfo(current) => if current != DEFAULT && s.owner == Some(i.conn) then Put(i.clock.t1) else Keep
    case _ => if i.request.InjectTamper? then Put(i.clock.t0) else Keep
  }

  /** An open certificate exchange has a challenge. */
  predicate ExchangeOk(s: EcuState) {
    s.auth.pendingCert.Some? ==> s.auth.pendingChallenge.Some?
  }

  /** `after` is what a write makes of `before`. */
  predicate Applies<V(==)>(before: V, w: Write<V>, after: V) {
    after == if w.Put? then w.value else before
  }

  /** The step changes every register exactly as its request and response say. */
  ghost predicate Tracks(e: Env, s: EcuState, i: Input, out: StepResult) {
    && Applies(s.sa.granted, Grant27Write(e, s, i, out.response), out.state.sa.granted)
    && Applies(s.auth.granted, Grant29Write(e, s, i, out.response), out.state.auth.granted)
    && (forall sf :: Applies(PendingSeed(s, sf), SeedWrite(e, s, i, out.response, sf), PendingSeed(out.state, sf)))
    && Applies(s.mechanism, MechanismWrite(e, s, i, out.response), out.state.mechanism)
    && Applies(s.owner, OwnerWrite(e, s, i, out.response), out.state.owner)
    && Applies(s.session.lastActivity, ActivityWrite(s, i, out.response), out.state.session.lastActivity)
    && (ExchangeOk(s) ==>
          && ExchangeOk(out.state)
          && Applies(s.auth.pendingCert, CertWrite(e, s, i, out.response), out.state.auth.pendingCert)
          && Applies(s.auth.pendingChallenge, ChallengeWrite(e, s, i, out.response), out.state.auth.pendingChallenge))
  }

  lemma SessionControlTracks(e: Env, s: EcuState, i: Input, target: int)
    requires Decoded(i.request) == Some(SessionControl(target))
    ensures Tracks(e, s, i, OnSessionControl(e, s, i, target))
  {
  }

  lemma TamperTracks(e: Env, s: EcuState, i: Input)
    requires i.request == InjectTamper
    ensures Tracks(e, s, i, OnInjectTamper(e, s, i))
  {
  }

  lemma RequestSeedTracks(e: Env, s: EcuState, i: Input, sf: int)
    requires Decoded(i.request) == Some(RequestSeed(sf))
    ensures Tracks(e, s, i, OnRequestSeed(e, s, i, sf))
  {
  }

  lemma SendKeySeeds(e: Env, s: EcuState, i: Input, sf: int, key: Bytes, x: int)
    requires i.request == SendKey(sf, key)
    ensures var out := OnSendKey(e, s, i, sf, key);
            Applies(PendingSeed(s, x), SeedWrite(e, s, i, out.response, x), PendingSeed(out.state, x))
  {
  }

  lemma SendKeyTracks(e: Env, s: EcuState, i: Input, sf: int, key: Bytes)
    requires i.request == SendKey(sf, key)
    ensures Tracks(e, s, i, OnSendKey(e, s, i, sf, key))
  {
    forall x {
      SendKeySeeds(e, s, i, sf, key, x);
    }
  }

  lemma CommunicateCertificateTracks(e: Env, s: EcuState, i: Input, pem: string)
    requires i.request == CommunicateCertificate(pem)
    ensures Tracks(e, s, i, OnCommunicateCertificate(e, s, i, pem))
  {
  }

  lemma VerifyProofTracks(e: Env, s: EcuState, i: Input, proof: Bytes)
    requires i.request == VerifyProof(proof)
    ensures Tracks(e, s, i, OnVerifyProof(e, s, i, proof))
  {
  }

  lemma CheckAccessTracks(e: Env, s: EcuState, i: Input, level: AccessLevel)
    requires i.request == CheckAccess(level)
    ensures Tracks(e, s, i, OnCheckAccess(e, s, i, level))
  {
  }

  lemma GetSessionStateTracks(e: Env, s: EcuState, i: Input)
    requires i.request == GetSessionState
    ensures Tracks(e, s, i, OnGetSessionState(e, s, i))
  {
  }

  lemma DeauthenticateTracks(e: Env, s: EcuState, i: Input)
    requires i.request == Deauthenticate
    ensures Tracks(e, s, i, OnDeauthenticate(e, s, i))
  {
  }

  lemma OthersTrack(e: Env, s: EcuState, i: Input)
    requires i.request.InjectReplayNonce? || i.request.GetAccessLevel? || i.request.GetAttemptCounter?
          || i.request.GetAuthAccessLevel? || i.request.GetAuditLog?
    ensures Tracks(e, s, i, Step(e, s, i))
  {
  }

  /** Every step tracks. */
  lemma StepTracks(e: Env, s: EcuState, i: Input)
    ensures Tracks(e, s, i, Step(e, s, i))
  {
    match Decoded(i.request) {
      case None =>
      case Some(r) =>
        match r {
          case SessionControl(target) => SessionControlTracks(e, s, i, target);
          case InjectTamper => TamperTracks(e, s, i);
          case RequestSeed(sf) => RequestSeedTracks(e, s, i, sf);
          case SendKey(sf, key) => SendKeyTracks(e, s, i, sf, key);
          case CommunicateCertificate(pem) => CommunicateCertificateTracks(e, s, i, pem);
          case VerifyProof(proof) => VerifyProofTracks(e, s, i, proof);
          case CheckAccess(level) => CheckAccessTracks(e, s, i, level);
          case GetSessionState => GetSessionStateTracks(e, s, i);
          case Deauthenticate => DeauthenticateTracks(e, s, i);
          case _ => OthersTrack(e, s, i);
        }
    }
  }
}
