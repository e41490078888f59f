/** The stateful side of the audit chain: the store's tip and log, and the recorder's retry loop.  What
    other recorders commit between this one's tip read and its append is a parameter of each attempt. */
module AuditRecorder {
  import opened Results
  import opened AuditChain

  class ChainStore {
    var lastHash: string
    var lastSeq: int
    var log: seq<AuditLog>

    function State(): Chain
      reads this
    {
      Chain(lastHash, lastSeq, log)
    }

    constructor ()
      ensures State() == EMPTY
    {
      lastHash, lastSeq, log := GENESIS, 0, [];
    }

    method GetAuditChainTip() returns (hash: string, seqNo: int)
      ensures hash == lastHash && seqNo == lastSeq
    {
      hash, seqNo := lastHash, lastSeq;
    }

    /** The transaction under the row lock; any error leaves tip and log as they were. */
    method AppendAuditLog(entry: AuditLog, databaseFails: bool) returns (r: Result<AuditLog>)
      modifies this
      ensures databaseFails ==> r == Err("database") && State() == old(State())
      ensures !databaseFails ==> State() == Append(old(State()), entry)
      ensures !databaseFails ==>
        r == if Matches(old(State()), Filled(old(State()), entry)) then Ok(Filled(old(State()), entry))
             else Err("audit_chain_mismatch")
    {
      if databaseFails {
        return Err("database");
      }
      var e := entry;
      if e.prevHash == "" {
        e := e.(prevHash := lastHash);
      }
      if e.seqNo == 0 {
        e := e.(seqNo := lastSeq + 1);
      }
      if e.prevHash != lastHash || e.seqNo != lastSeq + 1 {
        return Err("audit_chain_mismatch");
      }
      log := log + [e];
      lastHash, lastSeq := e.entryHash, e.seqNo;
      r := Ok(e);
    }
  }

  /** One attempt: the body stamped with a new id and time, what others commit meanwhile, and whether
      the database refuses the transaction. */
  datatype Window = Window(body: Body, rivals: seq<Body>, databaseFails: bool)

  function Commit(c: Crypto, chain: Chain, body: Body): Chain {
    Append(chain, Prepare(c, body, chain.lastHash, chain.lastSeq))
  }

  function AfterRivals(c: Crypto, chain: Chain, rivals: seq<Body>): Chain
    decreases |rivals|
  {
    if rivals == [] then chain else AfterRivals(c, Commit(c, chain, rivals[0]), rivals[1..])
  }

  /** What Record does, attempt by attempt. */
  function Recorded(c: Crypto, chain: Chain, windows: seq<Window>): (Chain, Outcome)
    decreases |windows|
  {
    if windows == [] then (chain, ChainMismatch)
    else
      var w := windows[0];
      var e := Prepare(c, w.body, chain.lastHash, chain.lastSeq);
      var met := AfterRivals(c, chain, w.rivals);
      if w.databaseFails then (met, StoreError)
      else if Matches(met, Filled(met, e)) then (Append(met, e), Committed)
      else Recorded(c, met, windows[1..])
  }

  class Recorder {
    const st: ChainStore
    const crypto: Crypto

    constructor (st: ChainStore, crypto: Crypto)
      ensures this.st == st && this.crypto == crypto
    {
      this.st, this.crypto := st, crypto;
    }

    /** Other recorders, each reading the tip and appending on it. */
    method LetRivalsCommit(rivals: seq<Body>)
      modifies st
      ensures st.State() == AfterRivals(crypto, old(st.State()), rivals)
    {
      for i := 0 to |rivals|
        invariant AfterRivals(crypto, st.State(), rivals[i..]) == AfterRivals(crypto, old(st.State()), rivals)
      {
        var hash, seqNo := st.GetAuditChainTip();
        var _ := st.AppendAuditLog(Prepare(crypto, rivals[i], hash, seqNo), false);
        assert rivals[i..][1..] == rivals[i + 1..];
      }
    }

    method AppendOnce(w: Window) returns (r: Result<AuditLog>)
      modifies st
      ensures var met := AfterRivals(crypto, old(st.State()), w.rivals);
              var e := Prepare(crypto, w.body, old(st.lastHash), old(st.lastSeq));
              && st.State() == (if w.databaseFails then met else Append(met, e))
              && (r.Ok? <==> !w.databaseFails && Matches(met, Filled(met, e)))
              && (r.Err? ==> (r.error == "audit_chain_mismatch" <==> !w.databaseFails))
    {
      var prevHash, prevSeq := st.GetAuditChainTip();
      if prevHash == "" {
        prevHash := GENESIS;
      }
      var seqNo := prevSeq + 1;
      var entryHash := crypto.hash(Payload(w.body, seqNo, prevHash));
      var sig := crypto.sign(entryHash);
      LetRivalsCommit(w.rivals);
      r := st.AppendAuditLog(AuditLog(w.body, seqNo, prevHash, entryHash, sig), w.databaseFails);
    }

    method Record(windows: seq<Window>) returns (outcome: Outcome)
      requires |windows| == 3
      modifies st
      ensures (st.State(), outcome) == Recorded(crypto, old(st.State()), windows)
    {
      var attempt := 0;
      while attempt < 3
        invariant 0 <= attempt <= 3
        invariant Recorded(crypto, st.State(), windows[attempt..]) == Recorded(crypto, old(st.State()), windows)
      {
        var r := AppendOnce(windows[attempt]);
        if r.Ok? {
          return Committed;
        }
        if r.error != "audit_chain_mismatch" {
          return StoreError;
        }
        assert windows[attempt..][1..] == windows[attempt + 1..];
        attempt := attempt + 1;
      }
      return ChainMismatch;
    }
  }

  // --------------------------------------------------------------------------- what it comes to

  lemma CommitExtends(c: Crypto, chain: Chain, body: Body)
    requires HexHash(c) && WellFormed(c, chain)
    ensures WellFormed(c, Commit(c, chain, body))
    ensures Commit(c, chain, body).log == chain.log + [Prepare(c, body, chain.lastHash, chain.lastSeq)]
  {
    PrepareOnTip(c, chain, body);
    AppendIffUnmoved(c, chain, |chain.log|, Prepare(c, body, chain.lastHash, chain.lastSeq));
  }

  lemma {:induction false} RivalsExtend(c: Crypto, chain: Chain, rivals: seq<Body>)
    requires HexHash(c) && WellFormed(c, chain)
    ensures WellFormed(c, AfterRivals(c, chain, rivals))
    ensures chain.log <= AfterRivals(c, chain, rivals).log
    ensures |AfterRivals(c, chain, rivals).log| == |chain.log| + |rivals|
    decreases |rivals|
  {
    if rivals != [] {
      CommitExtends(c, chain, rivals[0]);
      RivalsExtend(c, Commit(c, chain, rivals[0]), rivals[1..]);
    }
  }

  /** Entries that others commit during the first k attempts. */
  function RivalCommits(windows: seq<Window>, k: nat): nat
    requires k <= |windows|
  {
    if k == 0 then 0 else |windows[0].rivals| + RivalCommits(windows[1..], k - 1)
  }

  /** Somebody else committed between this attempt's read and its append. */
  predicate Crowded(w: Window) { !w.databaseFails && w.rivals != [] }

  /** The first attempt that is not crowded out, or the number of attempts. */
  function FirstFree(windows: seq<Window>): (k: nat)
    ensures k <= |windows|
    ensures forall i :: 0 <= i < k ==> Crowded(windows[i])
    ensures k < |windows| ==> !Crowded(windows[k])
  {
    if windows == [] || !Crowded(windows[0]) then 0 else 1 + FirstFree(windows[1..])
  }

  /** The retry loop, exactly.  Record gives up on a mismatch if and only if others committed in each of
      its attempts; otherwise the first attempt that is not crowded out decides: it commits, unless the
      database refuses.  The log grows by the others' entries and, on success only, by one entry that
      carries this call's body and comes last. */
  lemma {:induction false} RecordedExactly(c: Crypto, chain: Chain, windows: seq<Window>)
    requires HexHash(c) && WellFormed(c, chain)
    ensures WellFormed(c, Recorded(c, chain, windows).0)
    ensures chain.log <= Recorded(c, chain, windows).0.log
    ensures var k, (end, outcome) := FirstFree(windows), Recorded(c, chain, windows);
            && outcome == (if k == |windows| then ChainMismatch
                           else if windows[k].databaseFails then StoreError else Committed)
            && |end.log| == |chain.log| + RivalCommits(windows, if k < |windows| then k + 1 else k) +
                            (if outcome == Committed then 1 else 0)
            && (outcome == Committed ==> end.log[|end.log| - 1].body == windows[k].body)
    decreases |windows|
  {
    hide HexHash, WellFormed, PreparedAt, Matches, Prepare, AfterRivals;
    if windows != [] {
      var w, rest := windows[0], windows[1..];
      var e := Prepare(c, w.body, chain.lastHash, chain.lastSeq);
      var met := AfterRivals(c, chain, w.rivals);
      RivalsExtend(c, chain, w.rivals);
      PreparedStays(c, chain, met, w.body);
      AppendIffUnmoved(c, met, |chain.log|, e);
      PreparedBody(c, chain, w.body);
      if Crowded(w) {
        RecordedExactly(c, met, rest);
      } else {
        assert RivalCommits(rest, 0) == 0;
      }
    }
  }

  lemma PreparedBody(c: Crypto, chain: Chain, body: Body)
    ensures Prepare(c, body, chain.lastHash, chain.lastSeq).body == body
  {
  }

  lemma PreparedStays(c: Crypto, chain: Chain, met: Chain, body: Body)
    requires HexHash(c) && WellFormed(c, chain) && chain.log <= met.log
    ensures PreparedAt(c, met.log, |chain.log|, Prepare(c, body, chain.lastHash, chain.lastSeq))
  {
    PrepareOnTip(c, chain, body);
    assert HashBefore(met.log, |chain.log|) == HashBefore(chain.log, |chain.log|);
  }
}
