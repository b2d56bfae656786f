/** The append-only audit log and its hash chain. */
module AuditLog {
  import opened Common
  import opened Sequences

  /** A JSON value; `JsonOther` stands for the text of anything the logger itself never writes. */
  datatype Json = JsonNull | JsonInt(i: int) | JsonString(s: string) | JsonOther(text: string)

  /** The keys of an entry; a tampered entry may have other keys or lack some. */
  datatype Field =
    | Timestamp | Event | ServiceId | AccessLevelField | ClientId | ResultField | NrcCode | PrevHash | EntryHash
    | Extra(name: string)

  type Entry = map<Field, Json>

  /** The hash of an entry without its own hash: SHA-256 after JSON serialisation, about which nothing is assumed. */
  type Hasher = Entry -> string

  /** The arguments of one `emit`. */
  datatype AuditEvent = AuditEvent(
    eventType: string,
    serviceId: Option<int>,
    accessLevel: Option<string>,
    clientId: Option<nat>,
    result: Option<string>,
    nrc: Option<nat>)

  datatype LogState = LogState(entries: seq<Entry>, prevHash: string)

  function Digit(d: nat): char
    requires d < 16
  {
    if d < 10 then '0' + d as char else 'a' + (d - 10) as char
  }

  /** The digits of `n`, most significant first. */
  function Digits(n: nat, base: nat): string
    requires base in {10, 16}
  {
    var (rest, last) := if base == 10 then (n / 10, n % 10) else (n / 16, n % 16);
    if n < base then [Digit(n)] else Digits(rest, base) + [Digit(last)]
  }

  /** Decimal text, as `str` writes it. */
  function Decimal(n: nat): string {
    Digits(n, 10)
  }

  /** Prefixed hexadecimal text, as `hex` writes it. */
  function Hex(n: nat): string {
    "0x" + Digits(n, 16)
  }

  function TextOrNull(text: Option<string>): Json {
    if text.Some? then JsonString(text.value) else JsonNull
  }

  /** The entry of an event before its hash is added. */
  function Body(ev: AuditEvent, stamp: string, prevHash: string): Entry {
    map[
      Timestamp := JsonString(stamp),
      Event := JsonString(ev.eventType),
      ServiceId := if ev.serviceId.Some? then JsonInt(ev.serviceId.value) else JsonNull,
      AccessLevelField := TextOrNull(ev.accessLevel),
      ClientId := if ev.clientId.Some? then JsonString(Decimal(ev.clientId.value)) else JsonNull,
      ResultField := TextOrNull(ev.result),
      NrcCode := if ev.nrc.Some? then JsonString(Hex(ev.nrc.value)) else JsonNull,
      PrevHash := JsonString(prevHash)
    ]
  }

  function Emitted(hash: Hasher, log: LogState, ev: AuditEvent, stamp: string): LogState {
    var body := Body(ev, stamp, log.prevHash);
    LogState(log.entries + [body[EntryHash := JsonString(hash(body))]], hash(body))
  }

  /** What the hash of an entry covers. */
  function Unhashed(e: Entry): Entry {
    e - {EntryHash}
  }

  function Get(e: Entry, f: Field): Json {
    if f in e then e[f] else JsonNull
  }

  /** One entry is a link from `prev`: it points back to `prev` and carries its own hash. */
  predicate Link(hash: Hasher, prev: string, e: Entry) {
    && Get(e, PrevHash) == JsonString(prev)
    && Get(e, EntryHash) == JsonString(hash(Unhashed(e)))
  }

  /** The hash a following entry has to point back to. */
  function Head(hash: Hasher, genesis: string, entries: seq<Entry>): string {
    if entries == [] then genesis else hash(Unhashed(entries[|entries| - 1]))
  }

  /** Every entry is a link from the head of the entries before it. */
  predicate Chained(hash: Hasher, genesis: string, entries: seq<Entry>) {
    entries == [] ||
    var before := entries[..|entries| - 1];
    Chained(hash, genesis, before) && Link(hash, Head(hash, genesis, before), entries[|entries| - 1])
  }

  /**
   * Entry `k` has both hash fields; its own covers all its other fields, and the
   * other repeats the hash field of the entry before it, or the genesis hash.
   */
  predicate FitsAt(hash: Hasher, genesis: string, entries: seq<Entry>, k: int)
    requires 0 <= k < |entries|
  {
    && PrevHash in entries[k] && EntryHash in entries[k]
    && entries[k][EntryHash] == JsonString(hash(entries[k] - {EntryHash}))
    && (if k == 0 then entries[k][PrevHash] == JsonString(genesis)
        else EntryHash in entries[k - 1] && entries[k][PrevHash] == entries[k - 1][EntryHash])
  }

  /** Every entry fits. */
  predicate IsChain(hash: Hasher, genesis: string, entries: seq<Entry>) {
    forall k | 0 <= k < |entries| :: FitsAt(hash, genesis, entries, k)
  }

  /** Building a log up link by link gives exactly the lists in which every entry fits. */
  lemma {:induction false} ChainedIsChain(hash: Hasher, genesis: string, entries: seq<Entry>)
    ensures Chained(hash, genesis, entries) <==> IsChain(hash, genesis, entries)
    decreases |entries|
  {
    if entries != [] {
      var n := |entries| - 1;
      var before := entries[..n];
      ChainedIsChain(hash, genesis, before);
      assert forall k | 0 <= k < n :: FitsAt(hash, genesis, entries, k) <==> FitsAt(hash, genesis, before, k);
      if IsChain(hash, genesis, before) {
        LastFits(hash, genesis, entries);
      }
    }
  }

  lemma LastFits(hash: Hasher, genesis: string, entries: seq<Entry>)
    requires entries != [] && IsChain(hash, genesis, entries[..|entries| - 1])
    ensures var n := |entries| - 1;
            FitsAt(hash, genesis, entries, n) <==> Link(hash, Head(hash, genesis, entries[..n]), entries[n])
  {
    var n := |entries| - 1;
    if n > 0 {
      assert FitsAt(hash, genesis, entries[..n], n - 1);
    }
  }

  class AuditLogger {
    const hash: Hasher
    var entries: seq<Entry>
    var prevHash: string

    function State(): LogState
      reads this
    {
      LogState(entries, prevHash)
    }

    constructor (hash: Hasher, genesis: string)
      ensures this.hash == hash && State() == LogState([], genesis)
    {
      this.hash := hash;
      entries := [];
      prevHash := genesis;
    }

    method Emit(ev: AuditEvent, stamp: string)
      modifies this
      ensures State() == Emitted(hash, old(State()), ev, stamp)
    {
      var entry := Body(ev, stamp, prevHash);
      var entryHash := hash(entry);
      entry := entry[EntryHash := JsonString(entryHash)];
      prevHash := entryHash;
      entries := entries + [entry];
    }

    static method VerifyChain(hash: Hasher, entries: seq<Entry>, genesis: string) returns (ok: bool)
      ensures ok <==> IsChain(hash, genesis, entries)
    {
      ChainedIsChain(hash, genesis, entries);
      var prev := genesis;
      for i := 0 to |entries|
        invariant prev == Head(hash, genesis, entries[..i])
        invariant Chained(hash, genesis, entries[..i])
      {
        var e := entries[i];
        assert entries[..i + 1][..i] == entries[..i];
        if Get(e, PrevHash) != JsonString(prev) {
          NotAPrefix(hash, genesis, entries, i + 1);
          return false;
        }
        var body := e - {EntryHash};
        if JsonString(hash(body)) != Get(e, EntryHash) {
          NotAPrefix(hash, genesis, entries, i + 1);
          return false;
        }
        prev := e[EntryHash].s;
      }
      assert entries[..|entries|] == entries;
      ok := true;
    }
  }

  /** Every prefix of a chain is a chain. */
  lemma {:induction false} PrefixChained(hash: Hasher, genesis: string, entries: seq<Entry>, n: nat)
    requires Chained(hash, genesis, entries) && n <= |entries|
    ensures Chained(hash, genesis, entries[..n])
    decreases |entries|
  {
    if n == |entries| {
      assert entries[..n] == entries;
    } else {
      var before := entries[..|entries| - 1];
      PrefixChained(hash, genesis, before, n);
      assert before[..n] == entries[..n];
    }
  }

  lemma NotAPrefix(hash: Hasher, genesis: string, entries: seq<Entry>, n: nat)
    requires n <= |entries| && !Chained(hash, genesis, entries[..n])
    ensures !Chained(hash, genesis, entries)
  {
    if Chained(hash, genesis, entries) {
      PrefixChained(hash, genesis, entries, n);
    }
  }

  /** The log is a chain from the genesis hash, and the logger remembers its head. */
  ghost predicate LogOk(hash: Hasher, genesis: string, log: LogState) {
    && Chained(hash, genesis, log.entries)
    && log.prevHash == Head(hash, genesis, log.entries)
  }

  lemma EmittedIsLink(hash: Hasher, log: LogState, ev: AuditEvent, stamp: string)
    ensures var e := Emitted(hash, log, ev, stamp).entries[|log.entries|];
            && Link(hash, log.prevHash, e)
            && Unhashed(e) == Body(ev, stamp, log.prevHash)
  {
    var body := Body(ev, stamp, log.prevHash);
    assert body[EntryHash := JsonString(hash(body))] - {EntryHash} == body;
  }

  /** Appending an event keeps the chain and its head. */
  lemma EmitKeepsLogOk(hash: Hasher, genesis: string, log: LogState, ev: AuditEvent, stamp: string)
    requires LogOk(hash, genesis, log)
    ensures LogOk(hash, genesis, Emitted(hash, log, ev, stamp))
  {
    EmittedIsLink(hash, log, ev, stamp);
    var after := Emitted(hash, log, ev, stamp).entries;
    assert after[..|after| - 1] == log.entries;
  }

  /**
   * Replacing one entry of a chain goes unnoticed exactly when the new entry
   * links to the same predecessor and either is the last one or hashes like the
   * entry it replaces.
   */
  lemma SingleEdit(hash: Hasher, genesis: string, entries: seq<Entry>, i: nat, x: Entry)
    requires Chained(hash, genesis, entries) && i < |entries|
    ensures Chained(hash, genesis, entries[i := x]) <==>
              && Link(hash, Head(hash, genesis, entries[..i]), x)
              && (i == |entries| - 1 || hash(Unhashed(x)) == hash(Unhashed(entries[i])))
  {
    var edited := entries[i := x];
    ChainedIsChain(hash, genesis, entries);
    ChainedIsChain(hash, genesis, edited);
    forall k | 0 <= k < |entries| && k != i && k != i + 1
      ensures FitsAt(hash, genesis, edited, k)
    {
      assert FitsAt(hash, genesis, entries, k);
    }
    EditedFits(hash, genesis, entries, i, x);
    if i < |entries| - 1 {
      assert FitsAt(hash, genesis, entries, i) && FitsAt(hash, genesis, entries, i + 1);
      NextFits(hash, genesis, entries, i, x);
    }
  }

  lemma EditedFits(hash: Hasher, genesis: string, entries: seq<Entry>, i: nat, x: Entry)
    requires IsChain(hash, genesis, entries) && i < |entries|
    ensures FitsAt(hash, genesis, entries[i := x], i) <==> Link(hash, Head(hash, genesis, entries[..i]), x)
  {
    if i > 0 {
      assert FitsAt(hash, genesis, entries, i - 1);
    }
  }

  lemma NextFits(hash: Hasher, genesis: string, entries: seq<Entry>, i: nat, x: Entry)
    requires i < |entries| - 1
    requires FitsAt(hash, genesis, entries, i) && FitsAt(hash, genesis, entries, i + 1)
    ensures FitsAt(hash, genesis, entries[i := x], i) ==>
              (FitsAt(hash, genesis, entries[i := x], i + 1) <==> hash(Unhashed(x)) == hash(Unhashed(entries[i])))
  {
  }

  /** The last entry can be rewritten: any other event, linked in its place, gives a different log that verifies. */
  lemma LastEntryCanBeRewritten(hash: Hasher, genesis: string, log: LogState,
                                ev: AuditEvent, stamp: string, ev': AuditEvent, stamp': string)
    requires LogOk(hash, genesis, log) && (ev != ev' || stamp != stamp')
    ensures var entries := Emitted(hash, log, ev, stamp).entries;
            var edited := entries[|entries| - 1 := Emitted(hash, log, ev', stamp').entries[|entries| - 1]];
            edited != entries && Chained(hash, genesis, entries) && Chained(hash, genesis, edited)
  {
    var n := |log.entries|;
    var entries, others := Emitted(hash, log, ev, stamp).entries, Emitted(hash, log, ev', stamp').entries;
    EmitKeepsLogOk(hash, genesis, log, ev, stamp);
    EmitKeepsLogOk(hash, genesis, log, ev', stamp');
    EmittedIsLink(hash, log, ev, stamp);
    EmittedIsLink(hash, log, ev', stamp');
    assert entries[n := others[n]] == others;
    if others[n] == entries[n] {
      BodyDeterminesEvent(ev, stamp, log.prevHash, ev', stamp', log.prevHash);
    }
  }

  /** What two different chains with one head give away about the hash. */
  datatype Evidence =
    | NoEvidence
    | Collision(a: Entry, b: Entry)
    | GenesisPreimage(body: Entry)

  ghost predicate Proves(hash: Hasher, genesis: string, ev: Evidence) {
    match ev
    case NoEvidence => false
    case Collision(a, b) => a != b && hash(a) == hash(b)
    case GenesisPreimage(body) => hash(body) == genesis
  }

  /** Walks two logs backwards from their last entries to the first disagreement. */
  function Compare(a: seq<Entry>, b: seq<Entry>): Evidence
    decreases |a|
  {
    if a == [] && b == [] then NoEvidence
    else if a == [] then GenesisPreimage(Unhashed(b[|b| - 1]))
    else if b == [] then GenesisPreimage(Unhashed(a[|a| - 1]))
    else
      var x, y := Unhashed(a[|a| - 1]), Unhashed(b[|b| - 1]);
      if x != y then Collision(x, y) else Compare(a[..|a| - 1], b[..|b| - 1])
  }

  /** Links that hash the same content are the same entry with the same predecessor. */
  lemma SameLink(hash: Hasher, p: string, x: Entry, q: string, y: Entry)
    requires Link(hash, p, x) && Link(hash, q, y) && Unhashed(x) == Unhashed(y)
    ensures x == y && p == q
  {
    assert Get(Unhashed(x), PrevHash) == Get(x, PrevHash) && Get(Unhashed(y), PrevHash) == Get(y, PrevHash);
    assert x == Unhashed(x)[EntryHash := x[EntryHash]] && y == Unhashed(y)[EntryHash := y[EntryHash]];
  }

  /** Two chains with the same head are equal, or comparing them breaks the hash function. */
  lemma {:induction false} TamperEvidence(hash: Hasher, genesis: string, a: seq<Entry>, b: seq<Entry>)
    requires Chained(hash, genesis, a) && Chained(hash, genesis, b)
    requires Head(hash, genesis, a) == Head(hash, genesis, b)
    ensures a == b || Proves(hash, genesis, Compare(a, b))
    decreases |a|
  {
    if a != [] && b != [] && Unhashed(a[|a| - 1]) == Unhashed(b[|b| - 1]) {
      var m, n := |a| - 1, |b| - 1;
      SameLink(hash, Head(hash, genesis, a[..m]), a[m], Head(hash, genesis, b[..n]), b[n]);
      TamperEvidence(hash, genesis, a[..m], b[..n]);
      SplitLast(a);
      SplitLast(b);
    }
  }

  function DigitValue(c: char): nat {
    if '0' <= c <= '9' then (c as int) - ('0' as int) else if 'a' <= c then (c as int) - ('a' as int) + 10 else 0
  }

  /** Reads a digit string; the inverse of `Digits`. */
  function Number(text: string, base: nat): nat {
    if text == [] then 0 else Number(text[..|text| - 1], base) * base + DigitValue(text[|text| - 1])
  }

  lemma NumberAppend(text: string, d: nat, base: nat)
    requires d < 16
    ensures Number(text + [Digit(d)], base) == Number(text, base) * base + d
  {
    assert (text + [Digit(d)])[..|text|] == text;
    assert DigitValue(Digit(d)) == d;
  }

  lemma SplitDigit(n: nat, base: nat) returns (q: nat, d: nat)
    requires base in {10, 16} && n >= base
    ensures d < base && q < n && q * base + d == n
    ensures Digits(n, base) == Digits(q, base) + [Digit(d)]
  {
    if base == 10 {
      q, d := n / 10, n % 10;
    } else {
      q, d := n / 16, n % 16;
    }
  }

  /** Reading back the digits gives the number. */
  lemma {:induction false} DigitsRoundTrip(n: nat, base: nat)
    requires base in {10, 16}
    ensures Number(Digits(n, base), base) == n
  {
    if n < base {
      NumberAppend([], n, base);
      assert [] + [Digit(n)] == [Digit(n)];
    } else {
      var q, d := SplitDigit(n, base);
      DigitsRoundTrip(q, base);
      NumberAppend(Digits(q, base), d, base);
    }
  }

  /** An entry determines the event, its time stamp and its predecessor's hash. */
  lemma BodyDeterminesEvent(ev: AuditEvent, stamp: string, prev: string, ev': AuditEvent, stamp': string, prev': string)
    requires Body(ev, stamp, prev) == Body(ev', stamp', prev')
    ensures ev == ev' && stamp == stamp' && prev == prev'
  {
    var x, y := Body(ev, stamp, prev), Body(ev', stamp', prev');
    assert x[Timestamp] == y[Timestamp] && x[Event] == y[Event] && x[ServiceId] == y[ServiceId];
    assert x[AccessLevelField] == y[AccessLevelField] && x[ClientId] == y[ClientId];
    assert x[ResultField] == y[ResultField] && x[NrcCode] == y[NrcCode] && x[PrevHash] == y[PrevHash];
    if ev.clientId.Some? {
      DigitsRoundTrip(ev.clientId.value, 10);
      DigitsRoundTrip(ev'.clientId.value, 10);
    }
    if ev.nrc.Some? {
      assert Hex(ev.nrc.value)[2..] == Digits(ev.nrc.value, 16) && Hex(ev'.nrc.value)[2..] == Digits(ev'.nrc.value, 16);
      DigitsRoundTrip(ev.nrc.value, 16);
      DigitsRoundTrip(ev'.nrc.value, 16);
    }
  }
}
