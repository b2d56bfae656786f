/** What the entries of the audit log say, field by field. */
module LogEntries {
  import opened Common
  import opened Session
  import opened AuditLog
  import opened Ecu
  import opened Runs
  import opened Invariants
  import opened LogCompleteness

  /** `text` is the decimal writing of `n`, without a leading zero. */
  predicate IsDecimal(text: string, n: nat) {
    && text != []
    && (forall i | 0 <= i < |text| :: '0' <= text[i] <= '9')
    && (|text| > 1 ==> text[0] != '0')
    && Number(text, 10) == n
  }

  lemma {:induction false} DecimalDigits(n: nat)
    ensures Decimal(n) != []
    ensures forall i | 0 <= i < |Decimal(n)| :: '0' <= Decimal(n)[i] <= '9'
    ensures n > 0 ==> Decimal(n)[0] != '0'
    ensures n < 10 ==> |Decimal(n)| == 1
  {
    if n >= 10 {
      var q, d := SplitDigit(n, 10);
      assert q > 0;
      DecimalDigits(q);
    }
  }

  /** `str` of a connection number is its decimal writing. */
  lemma DecimalIsDecimal(n: nat)
    ensures IsDecimal(Decimal(n), n)
  {
    DecimalDigits(n);
    DigitsRoundTrip(n, 10);
  }

  lemma HexCodes()
    ensures Hex(0x24) == "0x24" && Hex(0x35) == "0x35" && Hex(0x76) == "0x76"
  {
    assert Digits(0x2, 16) == "2" && Digits(0x3, 16) == "3" && Digits(0x7, 16) == "7";
    assert Digits(0x24, 16) == "24" && Digits(0x35, 16) == "35" && Digits(0x76, 16) == "76";
  }

  /** The level field holds the level's own name, or null when there is no level. */
  predicate NamesLevel(field: Json, level: Option<AccessLevel>) {
    match level
    case None => field == JsonNull
    case Some(READ_ONLY) => field == JsonString("READ_ONLY")
    case Some(CALIBRATION) => field == JsonString("CALIBRATION")
    case Some(ECU_PROGRAMMING) => field == JsonString("ECU_PROGRAMMING")
    case Some(ENGINEERING) => field == JsonString("ENGINEERING")
    case Some(FULL_ACCESS) => field == JsonString("FULL_ACCESS")
    case Some(Custom(name)) => field == JsonString(name)
  }

  /** The nine fields of an entry for connection `conn`, but for those that link it to its predecessor. */
  predicate Says(x: Entry, stamp: string, conn: nat,
                 event: string, service: int, level: Option<AccessLevel>, result: string, nrc: Json)
  {
    && x.Keys == {Timestamp, Event, ServiceId, AccessLevelField, ClientId, ResultField, NrcCode, PrevHash, EntryHash}
    && x[Timestamp] == JsonString(stamp)
    && x[Event] == JsonString(event)
    && x[ServiceId] == JsonInt(service)
    && NamesLevel(x[AccessLevelField], level)
    && x[ClientId].JsonString? && IsDecimal(x[ClientId].s, conn)
    && x[ResultField] == JsonString(result)
    && x[NrcCode] == nrc
  }

  /** The entry points back to the hash field of the last of `before`, or to the genesis hash, and carries its own hash. */
  predicate Linked(e: Env, before: seq<Entry>, x: Entry) {
    && PrevHash in x && EntryHash in x
    && x[PrevHash] == (if before == [] then JsonString(e.genesis) else Get(before[|before| - 1], EntryHash))
    && x[EntryHash] == JsonString(e.hash(x - {EntryHash}))
  }

  /** Step `n` appends one linked entry with these fields, and changes no other. */
  predicate Appends(e: Env, r: Run, n: nat,
                    event: string, service: int, level: Option<AccessLevel>, result: string, nrc: Json)
    requires Shaped(r) && n < |r.inputs|
  {
    var before, after := r.states[n].log.entries, r.states[n + 1].log.entries;
    && |after| == |before| + 1
    && after[..|before|] == before
    && Says(after[|before|], r.inputs[n].stamp, r.inputs[n].conn, event, service, level, result, nrc)
    && Linked(e, before, after[|before|])
  }

  lemma LevelIsNamed(level: AccessLevel)
    ensures NamesLevel(JsonString(LevelName(level)), Some(level))
  {
  }

  function EventOf(conn: nat, event: string, service: int, level: Option<AccessLevel>, result: string, nrc: Option<nat>)
    : AuditEvent
  {
    AuditEvent(event, Some(service), if level.Some? then Some(LevelName(level.value)) else None, Some(conn), Some(result), nrc)
  }

  lemma EmittedSays(hash: Hasher, log: LogState, stamp: string, conn: nat,
                    event: string, service: int, level: Option<AccessLevel>, result: string, nrc: Option<nat>)
    ensures var after := Emitted(hash, log, EventOf(conn, event, service, level, result, nrc), stamp).entries;
            && |after| == |log.entries| + 1 && after[..|log.entries|] == log.entries
            && Says(after[|log.entries|], stamp, conn, event, service, level, result,
                    if nrc.Some? then JsonString(Hex(nrc.value)) else JsonNull)
  {
    DecimalIsDecimal(conn);
    if level.Some? {
      LevelIsNamed(level.value);
    }
  }

  /** The one event that a step logs, turned into the entry it appends. */
  lemma EntryAt(e: Env, r: Run, n: nat,
                event: string, service: int, level: Option<AccessLevel>, result: string, nrc: Option<nat>)
    requires IsBehaviour(e, r) && n < |r.inputs|
    requires Logs(r.inputs[n], Out(r, n))
          == [Stamped(EventOf(r.inputs[n].conn, event, service, level, result, nrc), r.inputs[n].stamp)]
    ensures Appends(e, r, n, event, service, level, result, if nrc.Some? then JsonString(Hex(nrc.value)) else JsonNull)
  {
    var i, log := r.inputs[n], r.states[n].log;
    var ev := EventOf(i.conn, event, service, level, result, nrc);
    LogAt(e, r, n);
    EmitOne(e.hash, log, ev, i.stamp);
    EmittedSays(e.hash, log, i.stamp, i.conn, event, service, level, result, nrc);
    EmittedIsLink(e.hash, log, ev, i.stamp);
    InvAlways(e, r, n);
  }

  /** An accepted elevation is still elevated when its step ends. */
  predicate Starts(e: Env, i: Input, response: Response) {
    response.SessionPositive? && response.sessionId != DEFAULT && i.clock.t3 - i.clock.t2 < e.session.timeout
  }

  lemma StartsStep(e: Env, s: EcuState, i: Input)
    requires Step(e, s, i).response.SessionPositive?
    ensures Step(e, s, i).state.session.Elevated() <==> Starts(e, i, Step(e, s, i).response)
  {
  }

  /** Every accepted 0x10 request is logged as the start of a session, or as an end if it leaves Default. */
  lemma SessionEntries(e: Env, r: Run, n: nat)
    requires IsBehaviour(e, r) && n < |r.inputs| && r.responses[n].SessionPositive?
    ensures Appends(e, r, n, if Starts(e, r.inputs[n], r.responses[n]) then "SESSION_START" else "SESSION_END",
                    0x10, None, "success", JsonNull)
  {
    assert IsStep(e, r, n);
    StartsStep(e, r.states[n], r.inputs[n]);
    EntryAt(e, r, n, if Starts(e, r.inputs[n], r.responses[n]) then "SESSION_START" else "SESSION_END",
            0x10, None, "success", None);
  }

  /** Every tamper event is logged as one. */
  lemma TamperEntries(e: Env, r: Run, n: nat)
    requires IsBehaviour(e, r) && n < |r.inputs| && r.inputs[n].request == InjectTamper
    ensures Appends(e, r, n, "SESSION_TAMPER_RESET", 0x10, None, "tamper", JsonNull)
  {
    assert IsStep(e, r, n);
    EntryAt(e, r, n, "SESSION_TAMPER_RESET", 0x10, None, "tamper", None);
  }

  /** Every accepted key is logged with the level it earned. */
  lemma AcceptedKeyEntries(e: Env, r: Run, n: nat, level: AccessLevel)
    requires IsBehaviour(e, r) && n < |r.inputs| && r.responses[n] == KeyPositive(level)
    ensures Appends(e, r, n, "AUTH_SUCCESS", 0x27, Some(level), "success", JsonNull)
  {
    KeyRequest(e, r, n);
    EntryAt(e, r, n, "AUTH_SUCCESS", 0x27, Some(level), "success", None);
  }

  lemma KeyRequest(e: Env, r: Run, n: nat)
    requires IsBehaviour(e, r) && n < |r.inputs|
    ensures r.responses[n].KeyPositive? ==> r.inputs[n].request.SendKey?
    ensures r.responses[n].ProofPositive? ==> r.inputs[n].request.VerifyProof?
    ensures r.inputs[n].request.VerifyProof? && r.responses[n].Negative? ==> r.responses[n].nrc in {0x22, 0x24, 0x76}
  {
    assert IsStep(e, r, n);
    VerdictStep(e, r.states[n], r.inputs[n]);
  }

  lemma VerdictStep(e: Env, s: EcuState, i: Input)
    ensures Step(e, s, i).response.KeyPositive? ==> i.request.SendKey?
    ensures Step(e, s, i).response.ProofPositive? ==> i.request.VerifyProof?
    ensures i.request.VerifyProof? && Step(e, s, i).response.Negative? ==> Step(e, s, i).response.nrc in {0x22, 0x24, 0x76}
  {
  }

  /** Every wrong key is logged with its code. */
  lemma WrongKeyEntries(e: Env, r: Run, n: nat)
    requires IsBehaviour(e, r) && n < |r.inputs| && r.inputs[n].request.SendKey? && r.responses[n] == Negative(0x35)
    ensures Appends(e, r, n, "AUTH_FAILURE", 0x27, None, "failure", JsonString("0x35"))
  {
    EntryAt(e, r, n, "AUTH_FAILURE", 0x27, None, "failure", Some(0x35));
    HexCodes();
  }

  /** Every accepted proof is logged with the level it earned. */
  lemma AcceptedProofEntries(e: Env, r: Run, n: nat, level: AccessLevel)
    requires IsBehaviour(e, r) && n < |r.inputs| && r.responses[n] == ProofPositive(level)
    ensures Appends(e, r, n, "AUTH_SUCCESS", 0x29, Some(level), "success", JsonNull)
  {
    KeyRequest(e, r, n);
    EntryAt(e, r, n, "AUTH_SUCCESS", 0x29, Some(level), "success", None);
  }

  /** Every proof that fails beyond ownership and session is logged with its code, which is one of two. */
  lemma FailedProofEntries(e: Env, r: Run, n: nat)
    requires IsBehaviour(e, r) && n < |r.inputs| && r.inputs[n].request.VerifyProof?
    requires r.responses[n].Negative? && r.responses[n] != Negative(0x22)
    ensures r.responses[n].nrc in {0x24, 0x76}
    ensures Appends(e, r, n, "AUTH_FAILURE", 0x29, None, "failure",
                    JsonString(if r.responses[n].nrc == 0x24 then "0x24" else "0x76"))
  {
    KeyRequest(e, r, n);
    EntryAt(e, r, n, "AUTH_FAILURE", 0x29, None, "failure", Some(r.responses[n].nrc));
    HexCodes();
  }

  /** The step is one of the six kinds that are logged. */
  predicate IsLogged(i: Input, response: Response) {
    || response.SessionPositive? || i.request.InjectTamper?
    || response.KeyPositive? || (i.request.SendKey? && response == Negative(0x35))
    || response.ProofPositive? || (i.request.VerifyProof? && response.Negative? && response != Negative(0x22))
  }

  /** Nothing else is logged, and no entry is ever changed. */
  lemma OtherStepsLogNothing(e: Env, r: Run, n: nat)
    requires IsBehaviour(e, r) && n < |r.inputs| && !IsLogged(r.inputs[n], r.responses[n])
    ensures r.states[n + 1].log == r.states[n].log
  {
    LogAt(e, r, n);
  }

  lemma {:induction false} EmitAllKeepsLogOk(hash: Hasher, genesis: string, evs: seq<Stamped>)
    ensures LogOk(hash, genesis, EmitAll(hash, LogState([], genesis), evs))
  {
    if evs != [] {
      var before, last := evs[..|evs| - 1], evs[|evs| - 1];
      EmitAllKeepsLogOk(hash, genesis, before);
      EmitKeepsLogOk(hash, genesis, EmitAll(hash, LogState([], genesis), before), last.event, last.stamp);
    }
  }

  lemma AuditLogStep(e: Env, s: EcuState, i: Input)
    requires i.request == GetAuditLog
    ensures Step(e, s, i).response == LogInfo(s.log.entries)
  {
  }

  /** The log query reports the log that these entries make up. */
  lemma GetAuditLogAnswers(e: Env, r: Run, n: nat)
    requires IsBehaviour(e, r) && n < |r.inputs| && r.inputs[n].request == GetAuditLog
    ensures r.responses[n] == LogInfo(r.states[n].log.entries)
    ensures r.responses[n] == LogInfo(EmitAll(e.hash, LogState([], e.genesis), Projection(r, n)).entries)
       <==> forall k | 0 <= k < n :: Prompt(e, r.inputs[k], r.responses[k])
  {
    assert IsStep(e, r, n);
    AuditLogStep(e, r.states[n], r.inputs[n]);
    LogIsComplete(e, r, n);
    InvAlways(e, r, n);
    EmitAllKeepsLogOk(e.hash, e.genesis, Projection(r, n));
  }
}
