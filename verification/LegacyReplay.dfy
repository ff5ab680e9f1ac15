/**
 What a checkpoint batch leaves behind, and that importing it again writes
 nothing: an address that answered keeps its answer, any other answers with the
 batch's first checkpoint for it, and each ledger is what importing the batch's
 writes for it, in their order, makes of it.
 */
module LegacyReplay {
  import opened Common
  import opened Json
  import opened PendingWrites
  import opened CheckpointStore
  import opened LegacyRecords
  import opened LegacyCheckpoints
  import LedgerHistory

  // ---------------------------------------------------------------- Checkpoints

  function Answer(s: Store, at: LedgerKey): Result<Option<Checkpoint>> {
    GetScoped(s, at.thread, Some(at.checkpointId), at.namespace)
  }

  function FirstAt(cs: seq<Checkpoint>, at: LedgerKey): Option<Checkpoint> {
    if cs == [] then None
    else
      var before := FirstAt(cs[..|cs| - 1], at);
      if before.None? && AddressOf(cs[|cs| - 1]) == at then Some(cs[|cs| - 1]) else before
  }

  lemma {:induction false} NewestUnchanged(s: Store, t: Store, thread: string, f: Filter, n: nat)
    requires forall k | 0 <= k < n ::
               && (RecordKey(thread, k) in s.records <==> RecordKey(thread, k) in t.records)
               && (RecordKey(thread, k) in s.records ==>
                     s.records[RecordKey(thread, k)] == t.records[RecordKey(thread, k)])
    ensures NewestBelow(s, thread, f, n) == NewestBelow(t, thread, f, n)
  {
    if n > 0 {
      NewestUnchanged(s, t, thread, f, n - 1);
    }
  }

  lemma PutAnswers(s: Store, c: Checkpoint, at: LedgerKey)
    requires s.Valid()
    ensures Put(s, c).Valid()
    ensures Answer(Put(s, c), at) == if at == AddressOf(c) then Ok(Some(c)) else Answer(s, at)
  {
    var t, n := Put(s, c), s.Next(at.thread);
    forall k | 0 <= k < n
      ensures RecordKey(at.thread, k) in s.records <==> RecordKey(at.thread, k) in t.records
      ensures RecordKey(at.thread, k) in s.records ==>
                s.records[RecordKey(at.thread, k)] == t.records[RecordKey(at.thread, k)]
    {
    }
    NewestUnchanged(s, t, at.thread, Filter(Some(at.namespace), Some(at.checkpointId)), n);
  }

  lemma FillOneContents(p: Progress, c: Checkpoint, at: LedgerKey)
    requires p.store.Valid() && !p.failed && !FillOne(p, c).failed
    ensures var t := FillOne(p, c).store;
            && t.Valid() && t.ledgers == p.store.ledgers
            && Answer(t, at) ==
                 if at == AddressOf(c) && Answer(p.store, at) == Ok(None) then Ok(Some(c)) else Answer(p.store, at)
  {
    PutAnswers(p.store, c, at);
  }

  lemma {:induction false} FillContents(p: Progress, cs: seq<Checkpoint>, at: LedgerKey)
    requires p.store.Valid() && !p.failed && !Fill(p, cs).failed
    ensures var t := Fill(p, cs).store;
            && t.Valid() && t.ledgers == p.store.ledgers
            && Answer(t, at) == if Answer(p.store, at) == Ok(None) then Ok(FirstAt(cs, at)) else Answer(p.store, at)
  {
    if cs != [] {
      var init, c := cs[..|cs| - 1], cs[|cs| - 1];
      FillContents(p, init, at);
      FillOneContents(Fill(p, init), c, at);
    }
  }

  lemma {:induction false} FirstAtFinds(cs: seq<Checkpoint>, c: Checkpoint)
    requires c in cs
    ensures FirstAt(cs, AddressOf(c)).Some?
  {
    var init := cs[..|cs| - 1];
    if c in init {
      FirstAtFinds(init, c);
    } else {
      assert cs == init + [cs[|cs| - 1]];
    }
  }

  ghost predicate Answered(s: Store, c: Checkpoint) {
    Answer(s, AddressOf(c)).Ok? && Answer(s, AddressOf(c)).value.Some?
  }

  lemma {:induction false} FillAnswers(p: Progress, cs: seq<Checkpoint>, n: nat)
    requires p.store.Valid() && !p.failed && !Fill(p, cs).failed && n <= |cs|
    ensures forall c | c in cs[..n] :: Answered(Fill(p, cs).store, c)
    decreases n
  {
    if n > 0 {
      var c := cs[n - 1];
      assert cs[..n] == cs[..n - 1] + [c];
      FillAnswers(p, cs, n - 1);
      FirstAtFinds(cs, c);
      FillContents(p, cs, AddressOf(c));
      HeldWasDecodable(p, cs, n);
    }
  }

  /** A fill that succeeds met no undecodable record at the address of any of its checkpoints. */
  lemma {:induction false} HeldWasDecodable(p: Progress, cs: seq<Checkpoint>, n: nat)
    requires p.store.Valid() && !p.failed && !Fill(p, cs).failed && 0 < n <= |cs|
    ensures Answer(p.store, AddressOf(cs[n - 1])).Ok?
    decreases |cs|
  {
    var init := cs[..|cs| - 1];
    if n < |cs| {
      HeldWasDecodable(p, init, n);
    } else {
      FillContents(p, init, AddressOf(cs[n - 1]));
    }
  }

  lemma {:induction false} FillAgain(p: Progress, cs: seq<Checkpoint>)
    requires !p.failed && forall c | c in cs :: Answered(p.store, c)
    ensures var again := Fill(p, cs);
            && !again.failed && again.store == p.store
            && again.report.written == p.report.written
  {
    if cs != [] {
      FillAgain(p, cs[..|cs| - 1]);
      assert cs[|cs| - 1] in cs;
      assert Answered(p.store, cs[|cs| - 1]);
    }
  }

  // --------------------------------------------------------------------- Ledgers

  /** The writes of a batch that belong to one ledger, in their order. */
  function Select(writes: seq<AddressedWrite>, at: LedgerKey): seq<PendingWrite> {
    if writes == [] then []
    else
      var before, last := Select(writes[..|writes| - 1], at), writes[|writes| - 1];
      if last.at == at then before + [last.write] else before
  }

  ghost predicate Partition(groups: seq<LedgerGroup>, writes: seq<AddressedWrite>) {
    && (forall i, j | 0 <= i < j < |groups| :: groups[i].at != groups[j].at)
    && (forall i | 0 <= i < |groups| :: groups[i].writes != [] && groups[i].writes == Select(writes, groups[i].at))
    && (forall at :: Select(writes, at) != [] ==> LedgerPosition(groups, at) < |groups|)
  }

  lemma {:induction false} GroupsCover(writes: seq<AddressedWrite>, at: LedgerKey)
    ensures Select(writes, at) != [] ==> LedgerPosition(ByLedger(writes), at) < |ByLedger(writes)|
  {
    if Select(writes, at) != [] {
      var init, w := writes[..|writes| - 1], writes[|writes| - 1];
      GroupsCover(init, at);
      var groups, after := ByLedger(init), ByLedger(writes);
      assert after[LedgerPosition(groups, at)].at == at;
    }
  }

  /** Grouping by ledger is nothing but selecting each ledger's writes. */
  lemma {:induction false} GroupsPartition(writes: seq<AddressedWrite>)
    ensures Partition(ByLedger(writes), writes)
  {
    if writes != [] {
      GroupsPartition(writes[..|writes| - 1]);
    }
    forall at
      ensures Select(writes, at) != [] ==> LedgerPosition(ByLedger(writes), at) < |ByLedger(writes)|
    {
      GroupsCover(writes, at);
    }
  }

  lemma ImportIntoLedger(p: Progress, g: LedgerGroup, at: LedgerKey)
    requires !ImportInto(p, g).failed
    ensures var t := ImportInto(p, g).store;
            && t.records == p.store.records && t.counters == p.store.counters
            && Ledger(t, at) ==
                 (if at == g.at then ImportBatch(Ledger(p.store, at), g.writes).body else Ledger(p.store, at))
            && (Decodes(t, at) <==> Decodes(p.store, at))
            && (at == g.at && g.writes != [] ==> Decodes(p.store, at))
            && (at != g.at ==> Document(t, at) == Document(p.store, at))
  {
    ImportCounts(Ledger(p.store, g.at), g.writes);
    if g.writes == [] {
      ImportNothing(Ledger(p.store, g.at));
    }
  }

  lemma {:induction false} ImportedLedger(p: Progress, groups: seq<LedgerGroup>, at: LedgerKey)
    requires !ImportLedgers(p, groups).failed
    requires forall i, j | 0 <= i < j < |groups| :: groups[i].at != groups[j].at
    ensures var t, i := ImportLedgers(p, groups).store, LedgerPosition(groups, at);
            && t.records == p.store.records && t.counters == p.store.counters
            && Ledger(t, at) == (if i < |groups| then ImportBatch(Ledger(p.store, at), groups[i].writes).body
                                 else Ledger(p.store, at))
            && (Decodes(t, at) <==> Decodes(p.store, at))
            && (i < |groups| && groups[i].writes != [] ==> Decodes(p.store, at))
            && (i == |groups| ==> Document(t, at) == Document(p.store, at))
  {
    if groups != [] {
      var init, g := groups[..|groups| - 1], groups[|groups| - 1];
      ImportedLedger(p, init, at);
      ImportIntoLedger(ImportLedgers(p, init), g, at);
      PositionInPrefix(groups, at);
    }
  }

  lemma PositionInPrefix(groups: seq<LedgerGroup>, at: LedgerKey)
    requires groups != []
    ensures var init := groups[..|groups| - 1];
            LedgerPosition(groups, at) == if LedgerPosition(init, at) < |init| || groups[|init|].at == at
                                          then LedgerPosition(init, at) else |groups|
  {
    var init, p, q := groups[..|groups| - 1], LedgerPosition(groups, at), LedgerPosition(groups[..|groups| - 1], at);
    assert forall i | 0 <= i < |init| :: init[i] == groups[i];
    if q < |init| {
      assert groups[q].at == at;
      assert init[p].at == at;
    }
  }

  lemma ImportNothing(body: WritesBody)
    ensures ImportBatch(body, []).body == body
  {
  }

  /**
   After a batch every ledger it has writes for decodes and holds what importing
   them makes of it, and every other document is as it was.
   */
  lemma LedgersAfterBatch(p: Progress, writes: seq<AddressedWrite>, at: LedgerKey)
    requires !ImportLedgers(p, ByLedger(writes)).failed
    ensures var t := ImportLedgers(p, ByLedger(writes)).store;
            && t.records == p.store.records && t.counters == p.store.counters
            && Ledger(t, at) == ImportBatch(Ledger(p.store, at), Select(writes, at)).body
            && (Select(writes, at) != [] ==> Decodes(p.store, at) && Decodes(t, at))
            && (Select(writes, at) == [] ==> Document(t, at) == Document(p.store, at))
  {
    GroupsPartition(writes);
    ImportedLedger(p, ByLedger(writes), at);
    ImportNothing(Ledger(p.store, at));
  }

  ghost predicate ImportsNothing(s: Store, g: LedgerGroup) {
    Decodes(s, g.at) && ImportBatch(Ledger(s, g.at), g.writes) == Imported(Ledger(s, g.at), 0, |g.writes|)
  }

  lemma {:induction false} ImportAgain(p: Progress, groups: seq<LedgerGroup>)
    requires !p.failed && forall i | 0 <= i < |groups| :: ImportsNothing(p.store, groups[i])
    ensures var again := ImportLedgers(p, groups);
            && !again.failed && again.store == p.store
            && forall kind :: Count(again.report.written, kind) == Count(p.report.written, kind)
  {
    if groups != [] {
      ImportAgain(p, groups[..|groups| - 1]);
      assert ImportsNothing(p.store, groups[|groups| - 1]);
    }
  }

  // ------------------------------------------------------------------- The batch

  /** Only control identities are marked as imported, in every ledger that decodes. */
  ghost predicate Marked(s: Store) {
    forall at | at in s.ledgers && s.ledgers[at].Intact? :: LedgerHistory.MarksControl(s.ledgers[at].body)
  }

  /** Both writers keep it so. */
  lemma WritersKeepMarked(s: Store, at: LedgerKey, batch: seq<PendingWrite>)
    requires Marked(s)
    ensures Marked(SetLedger(s, at, LiveBatch(Ledger(s, at), batch)))
    ensures Marked(SetLedger(s, at, ImportBatch(Ledger(s, at), batch).body))
  {
    LedgerHistory.ApplyIsReplay(Ledger(s, at), LedgerHistory.Operation(LedgerHistory.Live, batch));
    LedgerHistory.ApplyIsReplay(Ledger(s, at), LedgerHistory.Operation(LedgerHistory.Import, batch));
    LedgerHistory.ReplayMarksControl(Ledger(s, at), LedgerHistory.Tagged(LedgerHistory.Live, batch));
    LedgerHistory.ReplayMarksControl(Ledger(s, at), LedgerHistory.Tagged(LedgerHistory.Import, batch));
  }

  lemma ImportTwice(body: WritesBody, batch: seq<PendingWrite>)
    requires LedgerHistory.MarksControl(body)
    ensures var once := ImportBatch(body, batch).body; ImportBatch(once, batch) == Imported(once, 0, |batch|)
  {
    var once := ImportBatch(body, batch).body;
    LedgerHistory.ReimportWritesNothing(body, batch, []);
    assert Claimed(once.writes, []) == {};
    assert LiveBatch(once, []) == once;
  }

  lemma LedgerSettled(s: Store, p: Progress, writes: seq<AddressedWrite>, g: LedgerGroup)
    requires Marked(s) && p.store.ledgers == s.ledgers && g in ByLedger(writes)
    requires !ImportLedgers(p, ByLedger(writes)).failed
    ensures ImportsNothing(ImportLedgers(p, ByLedger(writes)).store, g)
  {
    GroupsPartition(writes);
    LedgersAfterBatch(p, writes, g.at);
    assert g.writes == Select(writes, g.at);
    ImportTwice(Ledger(p.store, g.at), g.writes);
  }

  /** What a scoped read of any address answers after a batch that succeeded. */
  lemma CheckpointsAfterBatch(s: Store, records: seq<LegacyRecord>, at: LedgerKey)
    requires s.Valid() && AllForCheckpointer(records) && !CheckpointBatch(s, records).failed
    ensures CheckpointBatch(s, records).store.Valid()
    ensures Answer(CheckpointBatch(s, records).store, at)
            == if Answer(s, at) == Ok(None) then Ok(FirstAt(Sift(records).checkpoints, at)) else Answer(s, at)
    ensures Ledger(CheckpointBatch(s, records).store, at)
            == ImportBatch(Ledger(s, at), Select(Sift(records).writes, at)).body
    ensures Select(Sift(records).writes, at) != [] ==> Decodes(s, at) && Decodes(CheckpointBatch(s, records).store, at)
    ensures Select(Sift(records).writes, at) == [] ==>
              Document(CheckpointBatch(s, records).store, at) == Document(s, at)
  {
    var sifted := Sift(records);
    var filled := Fill(Progress(s, sifted.report, false), sifted.checkpoints);
    FillContents(Progress(s, sifted.report, false), sifted.checkpoints, at);
    LedgersAfterBatch(filled, sifted.writes, at);
    SameRecordsSameAnswer(filled.store, CheckpointBatch(s, records).store, at);
  }

  lemma SameRecordsSameAnswer(s: Store, t: Store, at: LedgerKey)
    requires s.records == t.records && s.counters == t.counters
    ensures Answer(s, at) == Answer(t, at) && (s.Valid() ==> t.Valid())
  {
    NewestUnchanged(s, t, at.thread, Filter(Some(at.namespace), Some(at.checkpointId)), s.Next(at.thread));
  }

  /** Importing a batch that succeeded once more succeeds, writes no record and changes nothing. */
  lemma ReplayedBatchWritesNothing(s: Store, records: seq<LegacyRecord>)
    requires s.Valid() && Marked(s) && AllForCheckpointer(records) && !CheckpointBatch(s, records).failed
    ensures var once := CheckpointBatch(s, records).store;
            var again := CheckpointBatch(once, records);
            && !again.failed && again.store == once
            && forall kind :: Count(again.report.written, kind) == 0
  {
    var sifted, once := Sift(records), CheckpointBatch(s, records).store;
    var start, groups := Progress(s, sifted.report, false), ByLedger(sifted.writes);
    var filled := Fill(start, sifted.checkpoints);
    forall c | c in sifted.checkpoints
      ensures Answered(once, c)
    {
      FillAnswers(start, sifted.checkpoints, |sifted.checkpoints|);
      assert sifted.checkpoints[..|sifted.checkpoints|] == sifted.checkpoints;
      assert Answered(filled.store, c);
      LedgersAfterBatch(filled, sifted.writes, AddressOf(c));
      SameRecordsSameAnswer(filled.store, once, AddressOf(c));
    }
    var refilled := Progress(once, sifted.report, false);
    FillAgain(refilled, sifted.checkpoints);
    forall i | 0 <= i < |groups|
      ensures ImportsNothing(once, groups[i])
    {
      FillContents(start, sifted.checkpoints, groups[i].at);
      LedgerSettled(s, filled, sifted.writes, groups[i]);
    }
    ImportAgain(Fill(refilled, sifted.checkpoints), groups);
    SiftCounts(records, WriteKind);
  }
}
