/** Certificate exchanges: one signature check each, on a challenge that is never accepted twice. */
module Exchange {
  import opened Common
  import opened Session
  import opened Authentication
  import opened Ecu
  import opened Runs
  import opened Register
  import opened History
  import opened Provenance

  predicate OpensAt(r: Run, k: int)
    requires Shaped(r) && 0 <= k < |r.inputs|
  {
    r.inputs[k].request.CommunicateCertificate? && r.responses[k].CertPositive?
  }

  predicate InjectsAt(r: Run, k: int)
    requires Shaped(r) && 0 <= k < |r.inputs|
  {
    r.inputs[k].request.InjectReplayNonce?
  }

  /** The step ends an exchange: a proof was presented, or the state was cleared or deauthenticated. */
  predicate EndsAt(e: Env, r: Run, k: int)
    requires Shaped(r) && 0 <= k < |r.inputs|
  {
    r.responses[k].DeauthPositive? || Closes(r.inputs[k], r.responses[k]) || ClearsAt(e, r, k)
  }

  /** Step `j` opened the exchange that is still open before step `n`. */
  ghost predicate OpenSince(e: Env, r: Run, j: int, n: int)
    requires Shaped(r)
  {
    && 0 <= j < n <= |r.inputs|
    && OpensAt(r, j)
    && forall k | j < k < n :: !OpensAt(r, k) && !EndsAt(e, r, k)
  }

  function WriteCert(e: Env, r: Run, k: int): Write<Option<Certificate>>
    requires Shaped(r) && 0 <= k < |r.inputs|
  {
    CertWrite(e, r.states[k], r.inputs[k], r.responses[k])
  }

  function WriteChallenge(e: Env, r: Run, k: int): Write<Option<Bytes>>
    requires Shaped(r) && 0 <= k < |r.inputs|
  {
    ChallengeWrite(e, r.states[k], r.inputs[k], r.responses[k])
  }

  lemma {:induction false} ExchangeAlwaysOk(e: Env, r: Run, n: nat)
    requires IsBehaviour(e, r) && n <= |r.inputs|
    ensures ExchangeOk(r.states[n])
  {
    if n > 0 {
      ExchangeAlwaysOk(e, r, n - 1);
      TracksAt(e, r, n - 1);
    }
  }

  lemma CertStep(e: Env, s: EcuState, i: Input)
    requires Step(e, s, i).response.CertPositive?
    ensures i.request.CommunicateCertificate?
    ensures PassesAllChecks(e.certs, i.request.pem, i.utc, i.revoked)
    ensures var sent := Step(e, s, i).response.challenge;
            && sent.nonce == i.random
            && sent.ecuCert ==
                 (if Observed(e, s, i.clock.t0).session.session == PROGRAMMING then Some(e.certs.ecuCertPem) else None)
    ensures s.owner == Some(i.conn) && Observed(e, s, i.clock.t0).session.Elevated()
  {
  }

  /**
   * A positive communicateCertificate is the owner's, passed all five checks in
   * that call, and sends that call's nonce, with the ECU's own certificate
   * exactly in Programming.
   */
  lemma OpeningIsValidated(e: Env, r: Run, k: nat)
    requires IsBehaviour(e, r) && k < |r.inputs| && r.responses[k].CertPositive?
    ensures OpensAt(r, k) && r.states[k].owner == Some(r.inputs[k].conn)
    ensures var i := r.inputs[k]; PassesAllChecks(e.certs, i.request.pem, i.utc, i.revoked)
    ensures r.responses[k].challenge.nonce == r.inputs[k].random
    ensures r.responses[k].challenge.ecuCert ==
              (if SessionSeen(e, r, k) == PROGRAMMING then Some(e.certs.ecuCertPem) else None)
  {
    assert IsStep(e, r, k);
    CertStep(e, r.states[k], r.inputs[k]);
  }

  /** A certificate is pending exactly while an exchange is open, and it is the one that opened it. */
  lemma CertIsHistory(e: Env, r: Run, n: nat)
    requires IsBehaviour(e, r) && n <= |r.inputs|
    ensures r.states[n].auth.pendingCert.Some? ==> exists j :: OpenSince(e, r, j, n)
    ensures forall j | OpenSince(e, r, j, n) ::
              r.states[n].auth.pendingCert.Some? && r.states[n].auth.pendingCert == e.certs.parse(r.inputs[j].request.pem)
  {
    var vals := seq(|r.states|, k requires 0 <= k < |r.states| => r.states[k].auth.pendingCert);
    var evs := seq(|r.inputs|, k requires 0 <= k < |r.inputs| => WriteCert(e, r, k));
    assert Follows(vals, evs) by {
      forall k | 0 <= k < |evs|
        ensures vals[k + 1] == if evs[k].Put? then evs[k].value else vals[k]
      {
        ExchangeAlwaysOk(e, r, k);
        TracksAt(e, r, k);
      }
    }
    Holds(vals, evs, n);
    assert forall k | 0 <= k < |evs| :: evs[k].Keep? <==> !OpensAt(r, k) && !EndsAt(e, r, k);
    if r.states[n].auth.pendingCert.Some? {
      var j :| LastWrite(evs, j, n);
      assert OpenSince(e, r, j, n);
    }
    forall j | OpenSince(e, r, j, n)
      ensures r.states[n].auth.pendingCert == e.certs.parse(r.inputs[j].request.pem)
      ensures r.states[n].auth.pendingCert.Some?
    {
      assert LastWrite(evs, j, n);
      OpeningIsValidated(e, r, j);
    }
  }

  /** Step `m` set the challenge of the exchange open since step `j`: the opening itself, or the last injection since. */
  ghost predicate Challenges(e: Env, r: Run, j: int, m: int, n: int)
    requires Shaped(r)
  {
    && OpenSince(e, r, j, n)
    && j <= m < n && (m == j || InjectsAt(r, m))
    && forall k | m < k < n :: !InjectsAt(r, k)
  }

  /** The nonce that step `m` sent or injected. */
  function NonceOf(r: Run, m: int): Bytes
    requires Shaped(r) && 0 <= m < |r.inputs|
  {
    if r.responses[m].CertPositive? then r.responses[m].challenge.nonce
    else if InjectsAt(r, m) then r.inputs[m].request.nonce
    else []
  }

  /** An exchange is open before step `n`, and its challenge is `c`. */
  ghost predicate ChallengeIs(e: Env, r: Run, n: int, c: Bytes)
    requires Shaped(r)
  {
    exists j, m :: Challenges(e, r, j, m, n) && NonceOf(r, m) == c
  }

  lemma OpenExchangeHasChallenge(e: Env, r: Run, j: int, n: int)
    requires IsBehaviour(e, r) && n <= |r.inputs| && OpenSince(e, r, j, n)
    ensures exists m :: Challenges(e, r, j, m, n)
    ensures forall m | Challenges(e, r, j, m, n) :: r.states[n].auth.pendingChallenge == Some(NonceOf(r, m))
  {
    var vals := seq(|r.states|, k requires 0 <= k < |r.states| => r.states[k].auth.pendingChallenge);
    var evs := seq(|r.inputs|, k requires 0 <= k < |r.inputs| => WriteChallenge(e, r, k));
    assert Follows(vals, evs) by {
      forall k | 0 <= k < |evs|
        ensures vals[k + 1] == if evs[k].Put? then evs[k].value else vals[k]
      {
        ExchangeAlwaysOk(e, r, k);
        TracksAt(e, r, k);
      }
    }
    Holds(vals, evs, n);
    forall k | j <= k < n
      ensures evs[k] == if k == j || InjectsAt(r, k) then Put(Some(NonceOf(r, k))) else Keep
    {
      WriteWhileOpen(e, r, j, k, n);
    }
    assert evs[j].Put? && !Unwritten(evs, n);
    forall m
      ensures LastWrite(evs, m, n) <==> Challenges(e, r, j, m, n)
    {
      ChallengesIsLastWrite(e, r, evs, j, m, n);
    }
  }

  lemma ChallengesIsLastWrite(e: Env, r: Run, evs: seq<Write<Option<Bytes>>>, j: int, m: int, n: int)
    requires Shaped(r) && |evs| == |r.inputs| && OpenSince(e, r, j, n)
    requires forall k | j <= k < n :: evs[k] == if k == j || InjectsAt(r, k) then Put(Some(NonceOf(r, k))) else Keep
    ensures LastWrite(evs, m, n) <==> Challenges(e, r, j, m, n)
  {
    assert evs[j].Put?;
  }

  lemma WriteWhileOpen(e: Env, r: Run, j: int, k: int, n: int)
    requires IsBehaviour(e, r) && n <= |r.inputs| && OpenSince(e, r, j, n) && j <= k < n
    ensures WriteChallenge(e, r, k) == if k == j || InjectsAt(r, k) then Put(Some(NonceOf(r, k))) else Keep
  {
    assert k > j ==> !OpensAt(r, k) && !EndsAt(e, r, k);
    if r.responses[k].CertPositive? {
      OpeningIsValidated(e, r, k);
    }
  }

  /** The challenge of an open exchange is the nonce sent at its opening, or the last one injected since. */
  lemma ChallengeIsHistory(e: Env, r: Run, n: nat, c: Bytes)
    requires IsBehaviour(e, r) && n <= |r.inputs|
    ensures r.states[n].auth.pendingCert.Some? && r.states[n].auth.pendingChallenge == Some(c) <==> ChallengeIs(e, r, n, c)
  {
    CertIsHistory(e, r, n);
    if r.states[n].auth.pendingCert.Some? {
      var j :| OpenSince(e, r, j, n);
      OpenExchangeHasChallenge(e, r, j, n);
    }
    forall j, m | Challenges(e, r, j, m, n)
      ensures r.states[n].auth.pendingCert.Some? && r.states[n].auth.pendingChallenge == Some(NonceOf(r, m))
    {
      OpenExchangeHasChallenge(e, r, j, n);
    }
  }

  /** The step evaluated a signature. */
  predicate Evaluates(i: Input, response: Response) {
    i.request.VerifyProof? && (response.ProofPositive? || response == Negative(0x76))
  }

  lemma EvaluationStep(e: Env, s: EcuState, i: Input)
    requires Evaluates(i, Step(e, s, i).response)
    ensures s.auth.pendingCert.Some? && s.auth.pendingChallenge.Some?
    ensures Closes(i, Step(e, s, i).response)
    ensures Step(e, s, i).response.ProofPositive? <==>
              e.certs.proofVerifies(s.auth.pendingCert.value, i.request.proof, s.auth.pendingChallenge.value)
  {
  }

  /**
   * The proof of step `n` was checked with the certificate that opened its
   * exchange at step `j`, which passed all five checks, against the challenge
   * that step `m` sent or injected.
   */
  ghost predicate ProofOf(e: Env, r: Run, j: int, m: int, n: int)
    requires Shaped(r) && 0 <= n < |r.inputs| && r.inputs[n].request.VerifyProof?
  {
    && Challenges(e, r, j, m, n)
    && var opening := r.inputs[j];
       var cert := e.certs.parse(opening.request.pem);
       && PassesAllChecks(e.certs, opening.request.pem, opening.utc, opening.revoked)
       && r.responses[j].challenge.nonce == opening.random
       && cert.Some?
       && (r.responses[n].ProofPositive? <==>
             e.certs.proofVerifies(cert.value, r.inputs[n].request.proof, NonceOf(r, m)))
  }

  /** Every signature evaluation belongs to one validated exchange and uses its certificate and its challenge. */
  lemma EvaluationHasExchange(e: Env, r: Run, n: nat)
    requires IsBehaviour(e, r) && n < |r.inputs| && Evaluates(r.inputs[n], r.responses[n])
    ensures exists j, m :: ProofOf(e, r, j, m, n)
  {
    assert IsStep(e, r, n);
    EvaluationStep(e, r.states[n], r.inputs[n]);
    CertIsHistory(e, r, n);
    var j :| OpenSince(e, r, j, n);
    OpeningIsValidated(e, r, j);
    OpenExchangeHasChallenge(e, r, j, n);
    var m :| Challenges(e, r, j, m, n);
    assert ProofOf(e, r, j, m, n);
  }

  /** Between two signature evaluations a certificate exchange is opened. */
  lemma OneCheckPerExchange(e: Env, r: Run, m: nat, n: nat)
    requires IsBehaviour(e, r) && m < n < |r.inputs|
    requires Evaluates(r.inputs[m], r.responses[m]) && Evaluates(r.inputs[n], r.responses[n])
    ensures exists k :: m < k < n && OpensAt(r, k)
  {
    EvaluationHasExchange(e, r, n);
    var j, m' :| ProofOf(e, r, j, m', n);
    assert IsStep(e, r, m);
    EvaluationStep(e, r.states[m], r.inputs[m]);
    assert EndsAt(e, r, m);
    assert m < j < n && OpensAt(r, j);
  }

  /** Step `n` accepted a proof for the challenge `c`. */
  ghost predicate ProvedWith(e: Env, r: Run, n: int, c: Bytes)
    requires Shaped(r) && 0 <= n < |r.inputs|
  {
    r.responses[n].ProofPositive? && ChallengeIs(e, r, n, c)
  }

  lemma NonceStep(e: Env, s: EcuState, i: Input)
    ensures var out := Step(e, s, i);
            if out.response.ProofPositive? then
              && s.auth.pendingCert.Some?
              && s.auth.pendingChallenge.Some? && s.auth.pendingChallenge.value !in s.auth.usedNonces
              && out.state.auth.usedNonces == s.auth.usedNonces + {s.auth.pendingChallenge.value}
            else out.state.auth.usedNonces == s.auth.usedNonces
  {
  }

  /** What step `n` adds to the used nonces: the challenge of the proof it accepts, which was not among them. */
  lemma NonceAt(e: Env, r: Run, n: nat, c: Bytes)
    requires IsBehaviour(e, r) && n < |r.inputs|
    ensures c in r.states[n + 1].auth.usedNonces <==> c in r.states[n].auth.usedNonces || ProvedWith(e, r, n, c)
    ensures ProvedWith(e, r, n, c) ==> c !in r.states[n].auth.usedNonces
    ensures r.responses[n].ProofPositive? ==> exists c' :: ProvedWith(e, r, n, c')
  {
    assert IsStep(e, r, n);
    NonceStep(e, r.states[n], r.inputs[n]);
    ChallengeIsHistory(e, r, n, c);
    if r.responses[n].ProofPositive? {
      ChallengeIsHistory(e, r, n, r.states[n].auth.pendingChallenge.value);
      assert ProvedWith(e, r, n, r.states[n].auth.pendingChallenge.value);
    }
  }

  /** The used nonces are exactly the challenges of the accepted proofs. */
  lemma {:induction false} UsedNoncesAreProved(e: Env, r: Run, n: nat, c: Bytes)
    requires IsBehaviour(e, r) && n <= |r.inputs|
    ensures c in r.states[n].auth.usedNonces <==> exists k :: 0 <= k < n && ProvedWith(e, r, k, c)
  {
    if n > 0 {
      UsedNoncesAreProved(e, r, n - 1, c);
      NonceAt(e, r, n - 1, c);
    }
  }

  /** No challenge is accepted twice in a run, whatever the nonce source repeats or a simulation injects. */
  lemma NoReplay(e: Env, r: Run, m: nat, n: nat)
    requires IsBehaviour(e, r) && m < n < |r.inputs| && r.responses[m].ProofPositive? && r.responses[n].ProofPositive?
    ensures exists c, c' :: ProvedWith(e, r, m, c) && ProvedWith(e, r, n, c')
    ensures forall c, c' | ProvedWith(e, r, m, c) && ProvedWith(e, r, n, c') :: c != c'
  {
    NonceAt(e, r, m, []);
    NonceAt(e, r, n, []);
    forall c | ProvedWith(e, r, m, c)
      ensures !ProvedWith(e, r, n, c)
    {
      UsedNoncesAreProved(e, r, n, c);
      NonceAt(e, r, n, c);
    }
  }
}
