/** The audit hash chain: internal/audit/recorder.go over AppendAuditLog of internal/store/postgres/store.go.

    Recorders read the chain tip without a lock, hash an entry against it, and append it under the row
    lock only if the tip has not moved.  The hash and the signature are parameters. */
module AuditChain {
  function Zeros(n: nat): (s: string)
    ensures |s| == n
  {
    if n == 0 then "" else "0" + Zeros(n - 1)
  }

  /** genesisHash: 64 zeros. */
  const GENESIS := Zeros(64)

  /** What a recorder puts into an entry, apart from its place in the chain. */
  datatype Body = Body(id: string, actorId: string, actionType: string, entityType: string, entityId: string,
                       beforeState: string, afterState: string, requestId: string,
                       ipAddress: string, userAgent: string, createdAt: string)

  /** The canonical payload: what is hashed. */
  datatype Payload = Payload(body: Body, seqNo: int, prevHash: string)

  datatype AuditLog = AuditLog(body: Body, seqNo: int, prevHash: string, entryHash: string, signature: string)

  /** hashCanonical and signHMAC. */
  datatype Crypto = Crypto(hash: Payload -> string, sign: string -> string)

  datatype Chain = Chain(lastHash: string, lastSeq: int, log: seq<AuditLog>)

  const EMPTY := Chain(GENESIS, 0, [])

  function Canonical(e: AuditLog): Payload { Payload(e.body, e.seqNo, e.prevHash) }

  /** A hash in hexadecimal is neither empty nor the genesis mark. */
  ghost predicate HexHash(c: Crypto) {
    forall p :: c.hash(p) != "" && c.hash(p) != GENESIS
  }

  ghost predicate CollisionFree(c: Crypto) {
    forall p, q :: c.hash(p) == c.hash(q) ==> p == q
  }

  // --------------------------------------------------------------------------- well-formed chains

  /** The hash an entry at position k must point to. */
  function HashBefore(log: seq<AuditLog>, k: nat): string
    requires k <= |log|
  {
    if k == 0 then GENESIS else log[k - 1].entryHash
  }

  ghost predicate LinkedAt(log: seq<AuditLog>, k: nat)
    requires k < |log|
  {
    log[k].seqNo == k + 1 && log[k].prevHash == HashBefore(log, k)
  }

  ghost predicate Linked(log: seq<AuditLog>) {
    forall k {:trigger LinkedAt(log, k)} :: 0 <= k < |log| ==> LinkedAt(log, k)
  }

  ghost predicate HashedAt(c: Crypto, log: seq<AuditLog>, k: nat)
    requires k < |log|
  {
    log[k].entryHash == c.hash(Canonical(log[k])) && log[k].signature == c.sign(log[k].entryHash)
  }

  ghost predicate Hashed(c: Crypto, log: seq<AuditLog>) {
    forall k {:trigger HashedAt(c, log, k)} :: 0 <= k < |log| ==> HashedAt(c, log, k)
  }

  ghost predicate WellFormed(c: Crypto, chain: Chain) {
    && Linked(chain.log) && Hashed(c, chain.log)
    && chain.lastSeq == |chain.log| && chain.lastHash == HashBefore(chain.log, |chain.log|)
  }

  /** With a collision-free hash the tip pins the whole log: two well-formed chains have the same tip
      hash exactly when they are equal entry for entry. */
  lemma TipDeterminesChain(c: Crypto, a: Chain, b: Chain)
    requires CollisionFree(c) && HexHash(c) && WellFormed(c, a) && WellFormed(c, b)
    ensures a.lastHash == b.lastHash <==> a == b
  {
    if a.lastHash == b.lastHash {
      TipIsHash(c, a);
      TipIsHash(c, b);
      if a.log != [] && b.log != [] {
        var i, j: nat := |a.log| - 1, |b.log| - 1;
        assert LinkedAt(a.log, i) && LinkedAt(b.log, j);
        assert Canonical(a.log[i]) == Canonical(b.log[j]);
        EqualHashesEqualPrefixes(c, a.log, b.log, i);
      }
    }
  }

  lemma TipIsHash(c: Crypto, a: Chain)
    requires HexHash(c) && WellFormed(c, a)
    ensures a.lastHash == GENESIS <==> a.log == []
    ensures a.log != [] ==> a.lastHash == c.hash(Canonical(a.log[|a.log| - 1]))
  {
    if a.log != [] {
      assert HashedAt(c, a.log, |a.log| - 1);
    }
  }

  lemma {:induction false} EqualHashesEqualPrefixes(c: Crypto, a: seq<AuditLog>, b: seq<AuditLog>, i: nat)
    requires CollisionFree(c) && Linked(a) && Linked(b) && Hashed(c, a) && Hashed(c, b)
    requires i < |a| && i < |b| && a[i].entryHash == b[i].entryHash
    ensures forall j :: 0 <= j <= i ==> a[j] == b[j]
  {
    assert HashedAt(c, a, i) && HashedAt(c, b, i);
    assert Canonical(a[i]) == Canonical(b[i]);
    if i > 0 {
      assert LinkedAt(a, i) && LinkedAt(b, i);
      EqualHashesEqualPrefixes(c, a, b, i - 1);
    }
  }

  /** Changing any payload changes every later hash: logs that differ at k have no equal hash after k. */
  lemma TamperingShowsInEveryLaterHash(c: Crypto, a: seq<AuditLog>, b: seq<AuditLog>, k: nat, i: nat)
    requires CollisionFree(c) && Linked(a) && Linked(b) && Hashed(c, a) && Hashed(c, b)
    requires k <= i < |a| && i < |b| && Canonical(a[k]) != Canonical(b[k])
    ensures a[i].entryHash != b[i].entryHash
  {
    if a[i].entryHash == b[i].entryHash {
      EqualHashesEqualPrefixes(c, a, b, i);
      assert false;
    }
  }

  // -------------------------------------------------------------------------- one guarded append

  /** AppendAuditLog fills in a missing place. */
  function Filled(chain: Chain, e: AuditLog): AuditLog {
    e.(prevHash := if e.prevHash == "" then chain.lastHash else e.prevHash,
       seqNo := if e.seqNo == 0 then chain.lastSeq + 1 else e.seqNo)
  }

  predicate Matches(chain: Chain, e: AuditLog) {
    e.prevHash == chain.lastHash && e.seqNo == chain.lastSeq + 1
  }

  /** The committed transaction; a mismatch or a database error rolls back. */
  function Append(chain: Chain, e: AuditLog): Chain {
    var f := Filled(chain, e);
    if Matches(chain, f) then Chain(f.entryHash, f.seqNo, chain.log + [f]) else chain
  }

  /** appendOnce up to the store call: an entry built on a tip that was read. */
  function Prepare(c: Crypto, body: Body, tipHash: string, tipSeq: int): AuditLog {
    var prev := if tipHash == "" then GENESIS else tipHash;
    var payload := Payload(body, tipSeq + 1, prev);
    AuditLog(body, tipSeq + 1, prev, c.hash(payload), c.sign(c.hash(payload)))
  }

  /** An entry prepared on the chain as it was at length k. */
  ghost predicate PreparedAt(c: Crypto, log: seq<AuditLog>, k: nat, e: AuditLog) {
    && k <= |log|
    && e == AuditLog(e.body, k + 1, HashBefore(log, k), c.hash(Canonical(e)), c.sign(c.hash(Canonical(e))))
  }

  ghost predicate PreparedSince(c: Crypto, log: seq<AuditLog>, low: nat, e: AuditLog) {
    exists k :: low <= k <= |log| && PreparedAt(c, log, k, e)
  }

  lemma PrepareOnTip(c: Crypto, chain: Chain, body: Body)
    requires HexHash(c) && WellFormed(c, chain)
    ensures PreparedAt(c, chain.log, |chain.log|, Prepare(c, body, chain.lastHash, chain.lastSeq))
  {
    TipIsHash(c, chain);
    assert chain.lastHash != "";
  }

  /** The lock-free read is safe: the append goes through exactly when nothing was committed since. */
  lemma AppendIffUnmoved(c: Crypto, chain: Chain, k: nat, e: AuditLog)
    requires HexHash(c) && WellFormed(c, chain) && PreparedAt(c, chain.log, k, e)
    ensures Filled(chain, e) == e
    ensures Matches(chain, e) <==> |chain.log| == k
    ensures WellFormed(c, Append(chain, e))
    ensures Append(chain, e).log == if |chain.log| == k then chain.log + [e] else chain.log
  {
    if k > 0 {
      assert HashedAt(c, chain.log, k - 1);
    }
    assert e.prevHash != "";
    if |chain.log| == k {
      ExtendKeepsWellFormed(c, chain.log, e);
    }
  }

  /** An entry without a place is given the next one: it always goes through, at the end, pointing to the tip. */
  lemma MissingPlaceIsFilled(chain: Chain, e: AuditLog)
    requires e.prevHash == "" && e.seqNo == 0
    ensures Append(chain, e).log == chain.log + [e.(prevHash := chain.lastHash, seqNo := chain.lastSeq + 1)]
    ensures Append(chain, e).lastHash == e.entryHash && Append(chain, e).lastSeq == chain.lastSeq + 1
  {
  }

  lemma ExtendKeepsWellFormed(c: Crypto, log: seq<AuditLog>, e: AuditLog)
    requires Linked(log) && Hashed(c, log) && PreparedAt(c, log, |log|, e)
    ensures Linked(log + [e]) && Hashed(c, log + [e])
  {
    var next := log + [e];
    forall j | 0 <= j < |next| ensures LinkedAt(next, j) && HashedAt(c, next, j) {
      if j < |log| {
        assert LinkedAt(log, j) && HashedAt(c, log, j);
        assert next[j] == log[j] && HashBefore(next, j) == HashBefore(log, j);
      } else {
        assert next[j] == e && HashBefore(next, j) == HashBefore(log, j);
      }
    }
  }

  // ----------------------------------------------------------------- many recorders, interleaved

  datatype Outcome = Committed | ChainMismatch | StoreError

  /** Where one call of Record stands; `start` is the length of the log when it began. */
  datatype Call =
    | Reading(attempt: nat, start: nat)
    | Prepared(attempt: nat, start: nat, entry: AuditLog)
    | Returned(outcome: Outcome, start: nat, end: nat)

  /** `owners[k]` is the call that committed entry k (a history variable). */
  datatype System = System(chain: Chain, owners: seq<nat>, calls: map<nat, Call>)

  datatype Event =
    | Begin(call: nat)
    | ReadTip(call: nat, body: Body)
    | TryAppend(call: nat, databaseFails: bool)

  function Next(c: Crypto, s: System, ev: Event): System {
    match ev
    case Begin(call) =>
      if call in s.calls then s else s.(calls := s.calls[call := Reading(0, |s.chain.log|)])
    case ReadTip(call, body) =>
      if call in s.calls && s.calls[call].Reading? then
        var r := s.calls[call];
        s.(calls := s.calls[call := Prepared(r.attempt, r.start, Prepare(c, body, s.chain.lastHash, s.chain.lastSeq))])
      else s
    case TryAppend(call, databaseFails) =>
      if call in s.calls && s.calls[call].Prepared? then
        var r := s.calls[call];
        var now := |s.chain.log|;
        if databaseFails then
          s.(calls := s.calls[call := Returned(StoreError, r.start, now)])
        else if Matches(s.chain, Filled(s.chain, r.entry)) then
          System(Append(s.chain, r.entry), s.owners + [call], s.calls[call := Returned(Committed, r.start, now + 1)])
        else if r.attempt + 1 < 3 then
          s.(calls := s.calls[call := Reading(r.attempt + 1, r.start)])
        else
          s.(calls := s.calls[call := Returned(ChainMismatch, r.start, now)])
      else s
  }

  function Run(c: Crypto, s: System, events: seq<Event>): System
    decreases |events|
  {
    if events == [] then s else Run(c, Next(c, s, events[0]), events[1..])
  }

  const INITIAL := System(EMPTY, [], map[])

  function Commits(owners: seq<nat>, call: nat): nat {
    if owners == [] then 0 else (if owners[0] == call then 1 else 0) + Commits(owners[1..], call)
  }

  lemma {:induction false} CommitsAppend(owners: seq<nat>, owner: nat, call: nat)
    ensures Commits(owners + [owner], call) == Commits(owners, call) + (if owner == call then 1 else 0)
  {
    if owners != [] {
      CommitsAppend(owners[1..], owner, call);
      assert (owners + [owner])[1..] == owners[1..] + [owner];
    }
  }

  /** What is known of a call in progress, or finished. */
  ghost predicate CallOk(c: Crypto, log: seq<AuditLog>, owners: seq<nat>, id: nat, call: Call) {
    match call
    case Reading(attempt, start) =>
      attempt < 3 && start + attempt <= |log| && Commits(owners, id) == 0
    case Prepared(attempt, start, e) =>
      && attempt < 3 && Commits(owners, id) == 0
      && PreparedSince(c, log, start + attempt, e)
    case Returned(outcome, start, end) =>
      && start <= end <= |log| <= |owners|
      && (outcome == Committed ==> Commits(owners, id) == 1 && start < end && owners[end - 1] == id)
      && (outcome != Committed ==> Commits(owners, id) == 0)
      && (outcome == ChainMismatch ==> start + 3 <= end)
  }

  ghost predicate Inv(c: Crypto, s: System) {
    && WellFormed(c, s.chain) && |s.owners| == |s.chain.log|
    && (forall id :: id in s.calls ==> CallOk(c, s.chain.log, s.owners, id, s.calls[id]))
    && (forall id: nat :: id !in s.calls ==> Commits(s.owners, id) == 0)
  }

  /** Other calls are not disturbed when the log grows by somebody else's entry. */
  lemma CallOkGrows(c: Crypto, log: seq<AuditLog>, owners: seq<nat>, e: AuditLog, owner: nat, id: nat, call: Call)
    requires CallOk(c, log, owners, id, call) && owner != id && |owners| == |log|
    ensures CallOk(c, log + [e], owners + [owner], id, call)
  {
    CommitsAppend(owners, owner, id);
    if call.Prepared? {
      var k :| call.start + call.attempt <= k <= |log| && PreparedAt(c, log, k, call.entry);
      assert HashBefore(log + [e], k) == HashBefore(log, k);
      assert PreparedAt(c, log + [e], k, call.entry);
    }
  }

  lemma AppendKeepsInv(c: Crypto, s: System, call: nat, databaseFails: bool)
    requires HexHash(c) && Inv(c, s) && call in s.calls && s.calls[call].Prepared?
    ensures Inv(c, Next(c, s, TryAppend(call, databaseFails)))
    ensures s.chain.log <= Next(c, s, TryAppend(call, databaseFails)).chain.log
  {
    hide HexHash, WellFormed, PreparedAt, Matches, Append, Commits;
    var r := s.calls[call];
    var log := s.chain.log;
    assert CallOk(c, log, s.owners, call, r);
    var k :| r.start + r.attempt <= k <= |log| && PreparedAt(c, log, k, r.entry);
    AppendIffUnmoved(c, s.chain, k, r.entry);
    if !databaseFails && |log| == k {
      CommitKeepsInv(c, s, call);
    }
  }

  lemma CommitKeepsInv(c: Crypto, s: System, call: nat)
    requires Inv(c, s) && call in s.calls && s.calls[call].Prepared?
    requires var e := s.calls[call].entry;
             Matches(s.chain, Filled(s.chain, e)) && WellFormed(c, Append(s.chain, e)) &&
               Append(s.chain, e).log == s.chain.log + [e]
    ensures Inv(c, Next(c, s, TryAppend(call, false)))
  {
    hide WellFormed, PreparedAt, Matches, Append, Commits;
    var e := s.calls[call].entry;
    var t := Next(c, s, TryAppend(call, false));
    assert CallOk(c, s.chain.log, s.owners, call, s.calls[call]);
    forall id: nat ensures Commits(t.owners, id) == Commits(s.owners, id) + (if id == call then 1 else 0) {
      CommitsAppend(s.owners, call, id);
    }
    forall id | id in t.calls ensures CallOk(c, t.chain.log, t.owners, id, t.calls[id]) {
      if id != call {
        CallOkGrows(c, s.chain.log, s.owners, e, call, id, s.calls[id]);
      }
    }
  }

  lemma NextKeepsInv(c: Crypto, s: System, ev: Event)
    requires HexHash(c) && Inv(c, s)
    ensures Inv(c, Next(c, s, ev))
    ensures s.chain.log <= Next(c, s, ev).chain.log
  {
    match ev
    case Begin(call) =>
    case ReadTip(call, body) =>
      if call in s.calls && s.calls[call].Reading? {
        PrepareOnTip(c, s.chain, body);
        assert CallOk(c, s.chain.log, s.owners, call, s.calls[call]);
        assert CallOk(c, s.chain.log, s.owners, call, Next(c, s, ev).calls[call]);
      }
    case TryAppend(call, databaseFails) =>
      if call in s.calls && s.calls[call].Prepared? {
        AppendKeepsInv(c, s, call, databaseFails);
      }
  }

  /** Reading the tip builds an entry with the caller's body on the log as it is, and disturbs nothing. */
  lemma ReadBuildsOnTip(c: Crypto, s: System, call: nat, body: Body)
    requires HexHash(c) && Inv(c, s) && call in s.calls && s.calls[call].Reading?
    ensures var t := Next(c, s, ReadTip(call, body));
            && call in t.calls && t.calls[call].Prepared? && t == s.(calls := s.calls[call := t.calls[call]])
            && t.calls[call].attempt == s.calls[call].attempt && t.calls[call].start == s.calls[call].start
            && t.calls[call].entry.body == body && PreparedAt(c, s.chain.log, |s.chain.log|, t.calls[call].entry)
  {
    PrepareOnTip(c, s.chain, body);
  }

  /** An append with a working database commits exactly when nothing was committed since the tip was read, at
      length k; otherwise the call reads again, or gives up after the third time.  It never touches anything but
      the end of the log and its own call. */
  lemma AppendCommitsExactly(c: Crypto, s: System, call: nat, databaseFails: bool, k: nat)
    requires HexHash(c) && Inv(c, s) && call in s.calls && s.calls[call].Prepared?
    requires PreparedAt(c, s.chain.log, k, s.calls[call].entry)
    ensures var t, r, now := Next(c, s, TryAppend(call, databaseFails)), s.calls[call], |s.chain.log|;
            var commits := !databaseFails && now == k;
            && t.chain.log == (if commits then s.chain.log + [r.entry] else s.chain.log)
            && t.owners == (if commits then s.owners + [call] else s.owners)
            && t.calls == s.calls[call :=
                 if commits then Returned(Committed, r.start, now + 1)
                 else if databaseFails then Returned(StoreError, r.start, now)
                 else if r.attempt < 2 then Reading(r.attempt + 1, r.start)
                 else Returned(ChainMismatch, r.start, now)]
  {
    hide HexHash, WellFormed, PreparedAt, Matches, Append, Commits;
    AppendIffUnmoved(c, s.chain, k, s.calls[call].entry);
  }

  /** So a call that nobody comes between commits its entry at the first attempt. */
  lemma UndisturbedCallCommits(c: Crypto, s: System, call: nat, body: Body)
    requires HexHash(c) && Inv(c, s) && call !in s.calls
    ensures var t := Run(c, s, [Begin(call), ReadTip(call, body), TryAppend(call, false)]);
            && call in t.calls && t.calls[call] == Returned(Committed, |s.chain.log|, |s.chain.log| + 1)
            && |t.chain.log| == |s.chain.log| + 1 && s.chain.log < t.chain.log
            && t.chain.log[|s.chain.log|].body == body && t.owners == s.owners + [call]
  {
    var events := [Begin(call), ReadTip(call, body), TryAppend(call, false)];
    var begun := Next(c, s, Begin(call));
    var read := Next(c, begun, ReadTip(call, body));
    NextKeepsInv(c, s, Begin(call));
    NextKeepsInv(c, begun, ReadTip(call, body));
    ReadBuildsOnTip(c, begun, call, body);
    AppendCommitsExactly(c, read, call, false, |s.chain.log|);
    RunThree(c, s, events);
  }

  lemma RunThree(c: Crypto, s: System, events: seq<Event>)
    requires |events| == 3
    ensures Run(c, s, events) == Next(c, Next(c, Next(c, s, events[0]), events[1]), events[2])
  {
    hide Next;
    var one := Next(c, s, events[0]);
    var two := Next(c, one, events[1]);
    assert events[1..][1..] == [events[2]];
    assert Run(c, one, events[1..]) == Run(c, two, [events[2]]);
    assert [events[2]][1..] == [];
  }

  /** Over every interleaving the log is one unforked chain that only grows: entry k has number k + 1
      and points to its predecessor's hash, and the tip is the last entry. */
  lemma {:induction false} EveryRunKeepsTheChain(c: Crypto, s: System, events: seq<Event>)
    requires HexHash(c) && Inv(c, s)
    ensures Inv(c, Run(c, s, events)) && WellFormed(c, Run(c, s, events).chain)
    ensures s.chain.log <= Run(c, s, events).chain.log
    decreases |events|
  {
    if events != [] {
      NextKeepsInv(c, s, events[0]);
      EveryRunKeepsTheChain(c, Next(c, s, events[0]), events[1..]);
    }
  }

  lemma InitialInv(c: Crypto)
    ensures Inv(c, INITIAL)
  {
  }

  lemma {:induction false} NoCommitsBetween(owners: seq<nat>, call: nat, k: nat)
    requires Commits(owners, call) == 0 && k < |owners|
    ensures owners[k] != call
  {
    if k > 0 {
      NoCommitsBetween(owners[1..], call, k - 1);
    }
  }

  /** What a finished Record call means, over every run from the empty chain: success is exactly one
      committed entry of its own; giving up on a mismatch means none, and at least three entries of
      other calls committed while it ran. */
  lemma RecordOutcome(c: Crypto, events: seq<Event>, call: nat)
    requires HexHash(c)
    requires var s := Run(c, INITIAL, events); call in s.calls && s.calls[call].Returned?
    ensures var s := Run(c, INITIAL, events);
            var r := s.calls[call];
            && r.start <= r.end <= |s.owners| == |s.chain.log|
            && (r.outcome == Committed <==> Commits(s.owners, call) == 1)
            && (r.outcome != Committed <==> Commits(s.owners, call) == 0)
            && (r.outcome == ChainMismatch ==>
                  r.end - r.start >= 3 && forall k :: r.start <= k < r.end ==> s.owners[k] != call)
  {
    InitialInv(c);
    EveryRunKeepsTheChain(c, INITIAL, events);
    var s := Run(c, INITIAL, events);
    var r := s.calls[call];
    assert CallOk(c, s.chain.log, s.owners, call, r);
    if r.outcome == ChainMismatch {
      forall k | r.start <= k < r.end ensures s.owners[k] != call {
        NoCommitsBetween(s.owners, call, k);
      }
    }
  }
}
