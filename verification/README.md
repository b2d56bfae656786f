# SecureAccess: a verified model of the virtual ECU's access control

This Dafny project models the access-control core of a simulated ECU that speaks
UDS (ISO 14229-1:2020): DiagnosticSessionControl (0x10, section 10.2), SecurityAccess
(0x27, section 10.4) and Authentication (0x29, section 10.6), together with its audit
log and the newline framing of its RPC connections. It proves properties of every run
of that core, over any number of connections and any clock that does not go backwards.

Verify everything with `dafny verify dfyconfig.toml`.

## How the model is built

- **Objects.** `SessionStateMachine`, `SecurityAccessHandler`, `AuthenticationHandler`,
  `AuditLogger` and `VirtualECU` are classes with the source's fields; the two handlers
  share the ECU's session machine by reference, as in the source. Each method is proved
  to do to its object what one function does to a state value (`Transited`,
  `SeedRequested`, `KeySent`, `CertCommunicated`, `ProofVerified`, `Emitted`, and in
  `Ecu.dfy` one `On...` function per RPC handler). `Ecu.Step` is one request, handled
  under the lock; `VirtualECU.Rpc` refines it.
- **Runs.** `Runs.IsRun` relates a sequence of inputs to all states and responses.
  Theorems quantify over all runs and steps of a run.
- **History.** `Register.dfy` proves once that a register holds the value of its last
  write; `History.dfy` says which step writes what, from the request, the response and the
  session, owner and exchange that the request finds; the theorems then read the state off
  the history. `Answers` closes the circle: what a request finds, which steps clear, and
  the answer to every request of the three services follow from the earlier requests,
  responses and clock readings alone.
- **Time.** A request carries four ordered clock readings, one for each place where a
  handler reads the monotonic clock; different requests do not overlap in time. No theorem
  on all runs assumes that one request sees one reading; only `InstantIsPrompt` is about
  that case, and the example runs of `Sessions`, `Tightness` and `Bidirectional` use it.
- **Policy and primitives.** Attempt limit, delay, lockout duration, timeout, level table
  and transition table are symbolic. The invariants of the limiters and what rests on them
  (`SaInvStep`, `SaInvAlways`, `GuessingRate`) assume M >= 1 and a level table that pairs
  its rows and uses no access level twice, without which the bound fails
  (`SharedLevelBeatsBound`). `AccessWasEarned` assumes that gate and table ask for a level
  in the same session, and the example runs assume what they need to exist; all other
  theorems on runs hold under every policy. `ShippedPolicy` proves that the shipped policy
  file satisfies everything assumed by a theorem on all runs, by `BoundIsAttained` and by
  the example runs of `Sessions` and `Bidirectional`. HMAC, hash, parsing and signature
  checks are arbitrary functions. Seeds and nonces are arbitrary inputs and may repeat.
  Access level names are a datatype with the five names the gate knows; every other name
  is `Custom`, which does not stand for any of the five.
- **Requests.** Connection id, random bytes, wall clock, revocation list and the log's time
  stamp are inputs of a step.

## Main results

1. `check_access` answers exactly what the history justifies, in both directions;
   access beyond READ_ONLY was earned by the then owner, who still owns the session unless
   Default was seen since (`AccessIsHistory`, `AccessWasEarned`, `EarnerStillOwns`).
2. The k-th wrong key for a level comes at least ((k-1) div M) lockouts plus the remaining
   delays after the first, in every run without a right key in between
   (`GuessingRateBound`); and for every k, all seeds and all wrong keys, some run is exactly
   that fast, for levels of every session (`BoundIsAttained`).
3. No key is judged before a lockout's time is up, although the code that compares keys
   never looks at lockouts (`NoKeyDuringLockout`), and 0x27 and 0x29 exclude each other
   between clearing events, although neither sendKey nor verifyProof looks at the
   mechanism lock (`OneLevelAtATime`, `MechanismsExcludeEachOther`).
4. Each level's limiter is a fold over its own events only, under every policy
   (`LevelsAreIndependent`).
5. While a session is held, deleting all requests of other connections changes nothing
   (`OthersAreInvisible`).
6. The lazily checked timer is indistinguishable from one that fires on time, also when the
   clock moves within a request (`LazyIsEager`, `PollingIsInvisible`).
7. The answer to every request is the one that the history of the run determines: 0x10, 0x27
   and 0x29 (`SessionControlAnswers`, `SeedAnswers`, `KeyAnswers`, `CertificateAnswers` down
   to the code of the first failing check, `ProofAnswers`, `DeauthenticateAnswers`), raw PDUs
   (`PduAnswers`) and the queries (`GetSessionStateAnswers`, `GetAttemptCounterAnswers` with
   `CounterCountsWrongKeys`, `GetAccessLevelAnswers`, `GetAuthAccessLevelAnswers`).
8. Every key comparison uses its own issued seed, every signature check its own validated
   certificate exchange, and no challenge is accepted twice (`SeedsAreUsedOnce`,
   `OneCheckPerExchange`, `NoReplay`).
9. Owners, hand-over and Programming-through-Extended over whole runs (`Ownership`).
10. The log is a chain in every reachable state, a forged log yields a hash collision or a
    preimage of the genesis hash, and the log's events are exactly the projection of the
    requests and responses (`LogCannotBeForged`, `LogIsComplete`). Each logged step appends
    one entry whose nine fields are fixed by the request and its answer, and no other step
    touches the log (`LogEntries`).
11. The receive loop dispatches exactly the lines that hold a byte other than white space,
    in order and each once, however the stream is cut (`Handle`, `ChunkingInvariance`).

## Where the code differs from its documentation

The model follows the code. Where a promise of the documentation holds only under a
condition, that condition is proved exactly:

- A new session is to start without access (REQ-042 to REQ-044 in
  `docs/traceability_matrix.md`; `tests/test_TC10_session_binding.py`). A session that
  merely times out clears nothing, so the next session, of any connection, inherits its
  grant, pending seeds and mechanism lock unless a clearing event comes between
  (a `check_access` in Default, a 0x10 ending in Default, or a tamper event).
  `TimedOutGrantPassesToStranger` is the run, for every seed drawn;
  `NewSessionInheritsUnclearedGrants` is the exact condition, and
  `ClearedSessionsStartClean` a way for a caller to meet it.
- FULL_ACCESS is to need a bidirectional exchange (REQ-034 in the same matrix;
  `README.md:166`). The level depends on the session in which the proof arrives, the ECU's
  certificate on the session in which the exchange was opened. An exchange opened in
  Extended and proved in Programming gives FULL_ACCESS without the ECU's certificate
  (`OneWayExchangeGivesFullAccess`); the exchange was bidirectional if and only if it was
  opened in Programming (`FullAccessIsBidirectional`).
- Every accepted elevation is to be logged as SESSION_START (REQ-053). If the timeout
  passes between the timer reset and the next clock reading of the same request, it is
  logged as SESSION_END. `SlowElevationIsMislogged` is the run; `LogIsComplete` proves that
  the log is complete if and only if this never happens.
- Modifying any log entry is to break verification (`tests/test_TC13_audit_log_integrity.py`).
  `SingleEdit` proves exactly when it does. The last entry can be rewritten to any other
  event (`LastEntryCanBeRewritten`), and a truncated log verifies too (`PrefixChained`);
  only the remembered head hash pins them.
- The policy file's comment says that Default to Programming is not in the transition list,
  but it is; the code bars it. `ShippedGraph` is the resulting graph.

The repository's own section numbers for 0x10 and 0x27 (`README.md:177-179`) differ from
the standard's.

## Model

| member | source | states |
|---|---|---|
| `Session.SessionStateMachine.constructor` | sim/core/session.py:29-38 | starts in Default with the timer at the start reading |
| `Session.SessionStateMachine.Current` | sim/core/session.py:44-46 | applies the lazy expiry and returns the session left by it |
| `Session.SessionStateMachine.Transition` | sim/core/session.py:48-70 | new session, timer and answer of a 0x10 request, for every target and table |
| `Session.SessionStateMachine.Touch` | sim/core/session.py:72-74 | moves the inactivity timer and nothing else |
| `Session.SessionStateMachine.Reset` | sim/core/session.py:76-79 | unconditional Default with a fresh timer |
| `Session.SessionStateMachine.CheckTimeout` | sim/core/session.py:85-88 | an elevated session idle for the timeout becomes Default; nothing else changes |
| `SecurityAccess.SecurityAccessHandler.constructor` | sim/core/security_access.py:29-61 | parses the level table and starts every level unlocked with no attempts |
| `SecurityAccess.SecurityAccessHandler.ParseLevels` | sim/core/security_access.py:157-180 | the parsing loop builds the table in which later pairs overwrite earlier ones |
| `SecurityAccess.TableRows` | sim/core/security_access.py:157-180 | for every list of pairs the table has a row for exactly the subfunctions in use, and it is that of the last pair to use it |
| `SecurityAccess.DistinctPairsAreWellFormed` | sim/core/security_access.py:157-180 | distinct pairs give a table whose rows are partnered and whose levels belong to one pair each |
| `SecurityAccess.SecurityAccessHandler.AttemptCounter` | sim/core/security_access.py:70-71 | the level's counter, 0 for a level without one |
| `SecurityAccess.SecurityAccessHandler.ClearAccess` | sim/core/security_access.py:73-77 | drops grant and seeds, keeps counters, delays and lockouts |
| `SecurityAccess.SecurityAccessHandler.RequestSeed` | sim/core/security_access.py:79-95 | session, limiter, pending seed, timer and answer of requestSeed |
| `SecurityAccess.SecurityAccessHandler.SendKey` | sim/core/security_access.py:97-120 | seed consumption, limiter, grant, timer and answer of sendKey |
| `SecurityAccess.SecurityAccessHandler.CheckRateLimit` | sim/core/security_access.py:126-142 | verdict of the limiter, with the reset of an expired lockout |
| `SecurityAccess.SecurityAccessHandler.RecordFailure` | sim/core/security_access.py:144-150 | counts the failure, stamps it and locks the level at the limit |
| `SecurityAccess.SecurityAccessHandler.RecordSuccess` | sim/core/security_access.py:152-155 | resets the level's limiter |
| `Authentication.ValidateCert` | sim/core/authentication.py:122-143 | each code exactly when its check is the first to fail, and none exactly when all five pass |
| `Authentication.AuthenticationHandler.constructor` | sim/core/authentication.py:18-28 | nothing pending, granted or used |
| `Authentication.AuthenticationHandler.ClearAccess` | sim/core/authentication.py:37-41 | drops grant and open exchange, keeps the used nonces |
| `Authentication.AuthenticationHandler.CommunicateCertificate` | sim/core/authentication.py:43-69 | pending certificate and challenge, timer and answer |
| `Authentication.AuthenticationHandler.InjectPendingNonce` | sim/core/authentication.py:71-73 | replaces the pending challenge only |
| `Authentication.AuthenticationHandler.VerifyProof` | sim/core/authentication.py:75-109 | consumption of the exchange, used nonces, grant by session, and answer |
| `Authentication.AuthenticationHandler.Deauthenticate` | sim/core/authentication.py:111-116 | drops grant and open exchange |
| `Authentication.AuthenticationHandler.CheckCertificate` | sim/core/authentication.py:122-143 | the handler runs these checks and returns that code |
| `AuditLog.AuditLogger.constructor` | sim/core/audit_logger.py:23-25 | empty log that remembers the genesis hash |
| `AuditLog.AuditLogger.Emit` | sim/core/audit_logger.py:31-53 | appends one linked entry and remembers its hash |
| `AuditLog.AuditLogger.VerifyChain` | sim/core/audit_logger.py:62-73 | the verifying loop accepts exactly the lists in which every entry carries its own hash and repeats that of its predecessor, for arbitrary and tampered entries |
| `AuditLog.ChainedIsChain` | sim/core/audit_logger.py:62-73 | these are exactly the lists built up link by link |
| `AuditLog.PrefixChained` | sim/core/audit_logger.py:62-73 | every prefix of a chain verifies, so truncation alone is not noticed |
| `AuditLog.EmitKeepsLogOk` | sim/core/audit_logger.py:31-53 | appending keeps the log a chain with its head remembered |
| `AuditLog.SingleEdit` | sim/core/audit_logger.py:62-73 | exactly when replacing one entry goes unnoticed |
| `AuditLog.LastEntryCanBeRewritten` | sim/core/audit_logger.py:62-73 | replacing the last entry by that of any other event gives a different log that verifies |
| `AuditLog.TamperEvidence` | sim/core/audit_logger.py:62-73 | two chains with one head are equal or comparing them yields a collision or a genesis preimage |
| `AuditLog.DigitsRoundTrip` | sim/core/audit_logger.py:45-47 | number texts in an entry can be read back |
| `AuditLog.BodyDeterminesEvent` | sim/core/audit_logger.py:40-49 | an entry determines its event, time stamp and predecessor |
| `VirtualEcu.VirtualECU.Start` | sim/core/ecu.py:59-71 | a fresh ECU whose handlers share one session machine |
| `VirtualEcu.VirtualECU.ClearAccessLevels` | sim/core/ecu.py:103-110 | drops grants, seeds, exchange, owner and mechanism lock, keeps limiters, nonces and log |
| `VirtualEcu.VirtualECU.IsAccessGranted` | sim/core/ecu.py:112-125 | the gate: level, session and granting mechanism |
| `VirtualEcu.VirtualECU.RpcSessionControl` | sim/core/ecu.py:127-148 | refines the 0x10 handler on whole ECU states |
| `VirtualEcu.VirtualECU.RpcGetSessionState` | sim/core/ecu.py:150-160 | refines the session query with its owner-only timer reset |
| `VirtualEcu.VirtualECU.RpcInjectTamper` | sim/core/ecu.py:162-170 | refines the tamper reset |
| `VirtualEcu.VirtualECU.RpcRequestSeed` | sim/core/ecu.py:172-185 | refines the requestSeed handler with ownership and mechanism checks |
| `VirtualEcu.VirtualECU.RpcSendKey` | sim/core/ecu.py:187-201 | refines the sendKey handler with its log entries |
| `VirtualEcu.VirtualECU.RpcCommunicateCertificate` | sim/core/ecu.py:211-226 | refines the certificate handler with ownership and mechanism checks |
| `VirtualEcu.VirtualECU.RpcVerifyProof` | sim/core/ecu.py:228-243 | refines the proof handler with its log entries |
| `VirtualEcu.VirtualECU.RpcDeauthenticate` | sim/core/ecu.py:245-251 | refines deAuthenticate |
| `VirtualEcu.VirtualECU.RpcCheckAccess` | sim/core/ecu.py:288-293 | refines the access check with its clearing in Default |
| `VirtualEcu.VirtualECU.RpcSendUdsPdu` | sim/core/ecu.py:267-286 | forwards well-formed PDUs to the typed handlers and answers 0x13 otherwise |
| `VirtualEcu.VirtualECU.Rpc` | sim/core/ecu.py:73-87 | every registered method is one atomic step of the state machine |
| `Runs.ExecuteIsBehaviour` | sim/core/ecu.py:127-293 | every sequence of requests has a behaviour |
| `Invariants.InvStep` | sim/core/ecu.py:127-293 | every request keeps the mechanism, owner and log invariants, under every policy |
| `Invariants.InvAlways` | sim/core/ecu.py:103-125 | in every reachable state everything in flight or granted is covered by the mechanism lock, elevated implies owned, and the log is a chain with its head remembered |
| `Invariants.SaInvStep` | sim/core/security_access.py:79-155 | every request keeps the invariant on limiters and pending seeds |
| `Invariants.SaInvAlways` | sim/core/security_access.py:89-155 | in every reachable state counter <= M, counter = M iff locked, counter > 0 iff a failure is stamped, and no seed is pending under lockout |
| `Invariants.OneLevelAtATime` | sim/core/ecu.py:112-125 | in every reachable state at most one level beyond READ_ONLY passes the gate |
| `Invariants.LogAlwaysVerifies` | sim/core/audit_logger.py:22-53 | in every reachable state the log and all its prefixes are what the verifying loop accepts, and the remembered hash is the head |
| `Invariants.LogCannotBeForged` | sim/core/audit_logger.py:62-73 | any list that verifies up to the ECU's remembered hash is its log, or breaks the hash |
| `History.StepTracks` | sim/core/ecu.py:103-293 | grants, seeds, exchange, mechanism, owner and timer change exactly as request, response and the session, owner and exchange found say |
| `Provenance.Grant27IsHistory` | sim/core/ecu.py:187-201 | the 0x27 grant is the latest accepted key's level that nothing cleared, and conversely |
| `Provenance.Grant29IsHistory` | sim/core/ecu.py:228-251 | the 0x29 grant is the latest accepted proof's level that nothing cleared or deauthenticated, and conversely |
| `Provenance.AccessIsHistory` | sim/core/ecu.py:288-293 | check_access is true exactly when session and history justify the level |
| `Provenance.AcceptedKey` | sim/core/security_access.py:97-120 | an accepted key is for the row's level, in the row's session, and the owner's if that session is elevated |
| `Provenance.AcceptedProof` | sim/core/authentication.py:104-109 | an accepted proof is the owner's and its level is fixed by the session at verification |
| `Provenance.AccessWasEarned` | sim/core/ecu.py:103-125 | access beyond READ_ONLY was earned by the then owner for that level in a session of the same kind, with no clearing event since |
| `Seeds.SeedIsHistory` | sim/core/security_access.py:79-107 | a pending seed is the latest issued one that was neither compared nor cleared, and conversely |
| `Seeds.KeyIsComparedWithSeed` | sim/core/security_access.py:106-120 | every comparison is with the HMAC of that seed, which decides the answer |
| `Seeds.VerdictMeansCompared` | sim/core/security_access.py:97-120 | an accepted key and a 0x35 both mean that a key was compared |
| `Seeds.SeedsAreUsedOnce` | sim/core/security_access.py:111-112 | any two comparisons, of one level or two, have different issued seeds |
| `Exchange.OpeningIsValidated` | sim/core/authentication.py:43-69 | a positive certificate answer is the owner's, passed all checks in that call and sends its nonce; the ECU certificate goes out exactly in Programming |
| `Exchange.CertIsHistory` | sim/core/authentication.py:43-109 | a certificate is pending exactly while an exchange is open, and is the one that opened it |
| `Exchange.ChallengeIsHistory` | sim/core/authentication.py:58-73 | an exchange is open with challenge c exactly if c is the nonce of its opening or the last one injected since |
| `Exchange.EvaluationHasExchange` | sim/core/authentication.py:82-99 | every signature check uses the certificate and the challenge of its own validated exchange, and they decide the answer |
| `Exchange.OneCheckPerExchange` | sim/core/authentication.py:94-99 | between two signature checks a new exchange is opened |
| `Exchange.UsedNoncesAreProved` | sim/core/authentication.py:101-102 | the used nonces are exactly the challenges of accepted proofs |
| `Exchange.NoReplay` | sim/core/authentication.py:88-102 | any two accepted proofs of a run have different challenges |
| `Bidirectional.FullAccessIsBidirectional` | sim/core/authentication.py:62-69 | the exchange behind a grant of FULL_ACCESS included the ECU's certificate if and only if it was opened in Programming |
| `Bidirectional.OneWayExchangeGivesFullAccess` | sim/core/authentication.py:104-109 | a run in which FULL_ACCESS is granted although the ECU's certificate was never sent |
| `Bidirectional.OneWayRunExists` | sim/core/ecu.py:211-243 | that run exists for every certificate that passes and every proof that verifies |
| `Ownership.OwnerIsHistory` | sim/core/ecu.py:127-170 | the owner sent the last accepted elevating 0x10 that nothing released, and conversely |
| `Ownership.ElevatedIsOwned` | sim/core/ecu.py:127-148 | an elevated session has an owner, who elevated it |
| `Ownership.HandoverThroughDefault` | sim/core/ecu.py:130-146 | ownership passes between connections only through an observed Default |
| `Ownership.EarnerStillOwns` | sim/core/ecu.py:127-160 | unless Default was seen in between, the connection that earned access still owns the session in which it is used |
| `Ownership.ProgrammingThroughExtended` | sim/core/session.py:60-70 | no Programming without Extended since the last Default, counting expiries, for every table |
| `Ownership.ElevatedWasTouched` | sim/core/session.py:72-74 | the timer of an elevated session shows a reading of its owner's request |
| `Ownership.SeenElevatedIsFresh` | sim/core/session.py:85-88 | a session seen elevated was touched by its owner less than the timeout ago |
| `MechanismLock.MechanismIsHistory` | sim/core/ecu.py:172-226 | a mechanism holds the lock exactly while it handed out the last seed or challenge and nothing has cleared it |
| `Sessions.MechanismsExcludeEachOther` | sim/core/ecu.py:178-184 | a seed and a challenge in one run have a clearing event between them |
| `Sessions.SeedLocksOutCertificates` | sim/core/ecu.py:219-221 | after a seed and until a clearing event certificates are answered 0x24 to the owner and 0x22 to others |
| `Sessions.CertificateLocksOutSeeds` | sim/core/ecu.py:178-180 | after a challenge and until a clearing event seeds are answered 0x22 to strangers and 0x24 otherwise |
| `Sessions.NewSessionInheritsUnclearedGrants` | sim/core/ecu.py:136-146 | a new session starts without access if and only if every earlier grant was cleared |
| `Sessions.ClearedSessionsStartClean` | sim/core/ecu.py:288-293 | a session opened right after a clearing event, such as an access check in Default, starts without access |
| `Sessions.TimedOutGrantPassesToStranger` | sim/core/session.py:85-88 | for every seed, a run in which a connection that sent no key is granted another one's CALIBRATION |
| `Sessions.StaleRunExists` | sim/core/ecu.py:127-148 | that run exists for every seed and every policy with the CALIBRATION pair |
| `RateLimit.LimiterStep` | sim/core/security_access.py:126-155 | a step moves a level's limiter by the level's own event only, and its answer is the limiter's |
| `RateLimit.LevelsAreIndependent` | sim/core/security_access.py:51-61 | under every policy a level's state is the fold of a one-level limiter over its own events, in every run |
| `RateLimit.LimiterDecides` | sim/core/security_access.py:126-142 | 0x36, 0x37 or a seed is answered exactly as that fold decides |
| `GuessingRate.RateAlways` | sim/core/security_access.py:126-155 | wrong keys since the last right one are spaced by delay or lockout, in every run |
| `GuessingRate.GuessingRateBound` | sim/core/security_access.py:79-155 | the least time from the first to the k-th wrong key |
| `GuessingRate.CounterCountsWrongKeys` | sim/core/security_access.py:70-71 | the reported counter is the number of wrong keys since the last right one within a block of M; a full block counts M until a seed request passes |
| `GuessingRate.CounterAtLimit` | sim/core/security_access.py:144-150 | it is M exactly from the M-th wrong key of a block until a seed request passes or a right key is sent |
| `GuessingRate.LockoutLasts` | sim/core/security_access.py:73-77 | a lockout outlasts every session reset, tamper and owner change until its time is up |
| `GuessingRate.NoKeyDuringLockout` | sim/core/security_access.py:144-150 | once locked until a time, no key of the level is judged before it |
| `Tightness.BoundIsAttained` | sim/core/security_access.py:126-155 | for a level of any of the three sessions, any seeds, any wrong keys and any number of them, a run attains the bound at each |
| `Tightness.SharedLevelBeatsBound` | sim/core/security_access.py:51-61 | when two pairs grant one level, two wrong keys for it can come at once, so the bound needs one pair per level |
| `Isolation.ForeignRequestIsInert` | sim/core/ecu.py:133-134 | a foreign request to a held session changes nothing and is refused with 0x22 |
| `Isolation.OthersAreInvisible` | sim/core/ecu.py:127-293 | deleting the requests of other connections to a held session changes no kept response and no final state |
| `LazyExpiry.LazyIsEager` | sim/core/session.py:44-88 | at every moment the session a check would see, and its owner, are those of a machine that drops to Default exactly at last activity plus timeout |
| `LazyExpiry.PollingIsInvisible` | sim/core/session.py:85-88 | checking the timer any number of times before each request changes no response |
| `Answers.FoundIsHistory` | sim/core/session.py:44-88 | session and ownership that a request finds are those of the eager session of the history |
| `Answers.ClearsAreHistory` | sim/core/ecu.py:103-110 | which steps clear everything, from requests, responses and the eager session |
| `Answers.SessionControlAnswers` | sim/core/ecu.py:127-148 | the answer to every 0x10 request of a run |
| `Answers.GetSessionStateAnswers` | sim/core/ecu.py:150-160 | the session query reports the session that the history leaves open |
| `Answers.SeedAnswers` | sim/core/ecu.py:172-185 | the answer to every requestSeed of a run, down to the limiter's 0x36, 0x37 or seed |
| `Answers.PduAnswers` | sim/core/ecu.py:267-286 | the answer to every raw PDU, from service, length and first byte; 0x13 comes without any effect |
| `Answers.KeyAnswers` | sim/core/ecu.py:187-201 | the answer to every sendKey of a run: refused, out of sequence, or the verdict on the outstanding seed |
| `Answers.CertificateAnswers` | sim/core/ecu.py:211-226 | the answer to every certificate of a run, down to the code of the first of the five primitives that fails |
| `Answers.DeauthenticateAnswers` | sim/core/ecu.py:245-251 | deAuthenticate is refused to strangers only |
| `Answers.ProofAnswers` | sim/core/ecu.py:228-243 | the answer to every proof of a run: refused, out of sequence, replayed, or the verdict of the signature |
| `Answers.InjectionAnswers` | sim/core/ecu.py:261-265 | the simulation hooks are always confirmed |
| `Answers.GetAccessLevelAnswers` | sim/core/ecu.py:203-205 | the 0x27 level query names the latest accepted key's level that nothing cleared, or none |
| `Answers.GetAuthAccessLevelAnswers` | sim/core/ecu.py:253-255 | the 0x29 level query names the latest accepted proof's level that nothing cleared or deauthenticated, or none |
| `Answers.GetAttemptCounterAnswers` | sim/core/ecu.py:207-209 | under every policy the counter query reports the count of the level's own limiter |
| `LogCompleteness.LogIsComplete` | sim/core/ecu.py:127-243 | the log is the projection of requests and responses if and only if every accepted elevation was prompt |
| `LogCompleteness.SlowElevationIsMislogged` | sim/core/ecu.py:136-147 | any first elevation during which the timeout passes is answered positively and logged as an end, so the log is not the projection |
| `LogCompleteness.SlowRunExists` | sim/core/ecu.py:127-148 | such a run exists |
| `LogCompleteness.EmitAllIsInjective` | sim/core/audit_logger.py:31-53 | a log determines the events logged |
| `LogCompleteness.InstantIsPrompt` | sim/core/session.py:85-88 | with one reading per request and a positive timeout every elevation is prompt |
| `LogEntries.SessionEntries` | sim/core/ecu.py:136-146 | the fields of the entry of every accepted 0x10 request, and its link to the entry before |
| `LogEntries.TamperEntries` | sim/core/ecu.py:162-170 | the fields of the entry of every tamper event |
| `LogEntries.AcceptedKeyEntries` | sim/core/ecu.py:194-197 | the fields of the entry of every accepted key, with the name of its level |
| `LogEntries.WrongKeyEntries` | sim/core/ecu.py:198-200 | the fields of the entry of every wrong key, with its code |
| `LogEntries.AcceptedProofEntries` | sim/core/ecu.py:237-240 | the fields of the entry of every accepted proof, with the name of its level |
| `LogEntries.FailedProofEntries` | sim/core/ecu.py:241-243 | the fields of the entry of every failed proof, with its code, which is 0x24 or 0x76 |
| `LogEntries.OtherStepsLogNothing` | sim/core/ecu.py:127-293 | every other request leaves the log alone |
| `LogEntries.GetAuditLogAnswers` | sim/core/ecu.py:257-259 | the log query reports the log, which is the projection of the run exactly if every elevation was prompt |
| `LogEntries.DecimalIsDecimal` | sim/core/audit_logger.py:45 | connection numbers are written in decimal without leading zeros |
| `Framing.Handle` | sim/protocol/rpc.py:26-40 | the receive loop terminates, dispatches exactly the lines that hold a byte other than white space, in order and each once, and keeps the unfinished rest |
| `Framing.FirstNewline` | sim/protocol/rpc.py:36 | the cut is at the first newline |
| `Framing.LinesAreFraming` | sim/protocol/rpc.py:35-36 | lines and rest, written back with newlines, are the stream |
| `Framing.FramingIsUnique` | sim/protocol/rpc.py:35-36 | there is no other way to cut the stream into newline-free lines and rest |
| `Framing.LinesAppend` | sim/protocol/rpc.py:34-36 | a later chunk only extends the unfinished line |
| `Framing.SelectionIsUnique` | sim/protocol/rpc.py:37-39 | what is to be dispatched from given lines is determined |
| `Framing.ChunkingInvariance` | sim/protocol/rpc.py:26-40 | however the stream is cut into non-empty chunks, and whatever follows the closing of the connection, the loop selects from the same lines and keeps the same rest |
| `ShippedPolicy.ShippedPolicyIsCovered` | sim/config/ecu_policy.json:5-40 | the shipped policy satisfies every assumption on policies, for both of its levels |
| `ShippedPolicy.ShippedGraph` | sim/config/ecu_policy.json:10-15 | under the shipped table every session change is accepted except Default to Programming |

## Left out

- JSON-RPC decoding, sockets, threads, the client and the dispatch table of `sim/protocol/rpc.py`: thin wrappers; the lock is modelled as the atomicity of a step, a connection id as an opaque number.
- `sim/protocol/uds_server.py`, `gui/`, `docs/index.html` and the launch scripts: presentation.
- `sim/hal/crypto_backend.py` and `sim/hal/cert_store_sim.py`: foreign primitives, modelled as arbitrary functions; the timing of the key comparison is not modelled.
- Quality and uniqueness of random bytes and the configured seed and nonce sizes: seeds and nonces are arbitrary byte strings.
- Exceptions (badly typed arguments, a missing certificate store, errors raised inside primitives) and the policy file loader.
- Floating-point rounding of clock readings: time is a real number.
- Other JSON value types inside tampered log entries are held as text, and the shallow copy that `entries` returns is modelled as a value.
- Event types that the policy lists but no code emits, such as SESSION_TIMEOUT and LOCKOUT_TRIGGERED.
- Replies on the socket: the receive loop is modelled up to the lines it dispatches, not the replies it writes back.
