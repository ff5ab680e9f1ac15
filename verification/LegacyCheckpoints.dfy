/**
 The importer of checkpoint and pending-write records: records are sifted, each
 checkpoint is put unless its scoped id is already held, and the writes are
 grouped by ledger before they are imported.
 */
module LegacyCheckpoints {
  import opened Common
  import opened Json
  import opened PendingWrites
  import opened CheckpointStore
  import opened LegacyRecords

  // -------------------------------------------------------------------- Sifting

  datatype Sifted = Sifted(report: Report, checkpoints: seq<Checkpoint>, writes: seq<AddressedWrite>)

  function SiftOne(acc: Sifted, r: LegacyRecord): Sifted
    requires r.ForCheckpointer()
  {
    match r
    case CheckpointRow(Decoded(c)) => acc.(checkpoints := acc.checkpoints + [c])
    case CheckpointRow(Broken(m)) => acc.(report := acc.report.Rejected(CheckpointKind, None, m))
    case SqliteWrite(_, Decoded(w)) => acc.(writes := acc.writes + [w])
    case SqliteWrite(task, Broken(m)) => acc.(report := acc.report.Rejected(WriteKind, Some(task), m))
    case FileWrite(_, Decoded(w)) => acc.(writes := acc.writes + [w])
    case FileWrite(thread, Broken(m)) => acc.(report := acc.report.Rejected(WriteKind, Some(thread), m))
    case Invalid(kind, identity, m) => acc.(report := acc.report.Rejected(kind, identity, m))
  }

  ghost predicate AllForCheckpointer(records: seq<LegacyRecord>) {
    forall r | r in records :: r.ForCheckpointer()
  }

  ghost function Sift(records: seq<LegacyRecord>): Sifted
    requires AllForCheckpointer(records)
  {
    if records == [] then Sifted(BLANK, [], [])
    else SiftOne(Sift(records[..|records| - 1]), records[|records| - 1])
  }

  // ---------------------------------------------------------------- Checkpoints

  /** The store and the report so far; `failed` when a record or ledger that had to be read does not decode. */
  datatype Progress = Progress(store: Store, report: Report, failed: bool)

  function Held(s: Store, c: Checkpoint): Result<Option<Checkpoint>> {
    GetScoped(s, c.threadId, Some(c.checkpointId), c.namespace)
  }

  function FillOne(p: Progress, c: Checkpoint): Progress {
    if p.failed then p
    else
      match Held(p.store, c)
      case Err => p.(failed := true)
      case Ok(Some(_)) => p.(report := p.report.Tallied(CheckpointKind, false))
      case Ok(None) => Progress(Put(p.store, c), p.report.Tallied(CheckpointKind, true), false)
  }

  ghost function Fill(p: Progress, cs: seq<Checkpoint>): Progress {
    if cs == [] then p else FillOne(Fill(p, cs[..|cs| - 1]), cs[|cs| - 1])
  }

  // --------------------------------------------------------------------- Writes

  datatype LedgerGroup = LedgerGroup(at: LedgerKey, writes: seq<PendingWrite>)

  function LedgerPosition(groups: seq<LedgerGroup>, at: LedgerKey): (p: nat)
    ensures p <= |groups|
    ensures p < |groups| ==> groups[p].at == at
    ensures forall i | 0 <= i < p :: groups[i].at != at
  {
    if groups == [] || groups[0].at == at then 0 else 1 + LedgerPosition(groups[1..], at)
  }

  function AddWrite(groups: seq<LedgerGroup>, w: AddressedWrite): seq<LedgerGroup> {
    var p := LedgerPosition(groups, w.at);
    if p == |groups| then groups + [LedgerGroup(w.at, [w.write])]
    else groups[p := groups[p].(writes := groups[p].writes + [w.write])]
  }

  ghost function ByLedger(writes: seq<AddressedWrite>): seq<LedgerGroup> {
    if writes == [] then [] else AddWrite(ByLedger(writes[..|writes| - 1]), writes[|writes| - 1])
  }

  function ImportInto(p: Progress, g: LedgerGroup): Progress {
    if p.failed then p
    else if g.writes != [] && !Decodes(p.store, g.at) then p.(failed := true)
    else
      var done := ImportBatch(Ledger(p.store, g.at), g.writes);
      p.(store := if done.written > 0 then SetLedger(p.store, g.at, done.body) else p.store,
         report := p.report.Add(Tally(WriteKind, done.written, done.existing, 0)))
  }

  ghost function ImportLedgers(p: Progress, groups: seq<LedgerGroup>): Progress {
    if groups == [] then p else ImportInto(ImportLedgers(p, groups[..|groups| - 1]), groups[|groups| - 1])
  }

  // ------------------------------------------------------------------ The batch

  ghost function Replayed(p: Progress, cs: seq<Checkpoint>, writes: seq<AddressedWrite>): Progress {
    var filled := Fill(p, cs);
    if filled.failed then filled else ImportLedgers(filled, ByLedger(writes))
  }

  ghost function CheckpointBatch(s: Store, records: seq<LegacyRecord>): Progress
    requires AllForCheckpointer(records)
  {
    var sifted := Sift(records);
    Replayed(Progress(s, sifted.report, false), sifted.checkpoints, sifted.writes)
  }

  /** `replay`: checkpoints first, then the writes, one ledger at a time. */
  method Replay(checkpointer: DriverCheckpointer, checkpoints: seq<Checkpoint>, writes: seq<AddressedWrite>,
                before: Report)
    returns (ok: bool, report: Report)
    requires checkpointer.State().Valid()
    modifies checkpointer
    ensures checkpointer.State().Valid()
    ensures Progress(checkpointer.State(), report, !ok)
            == Replayed(Progress(old(checkpointer.State()), before, false), checkpoints, writes)
  {
    ok, report := FillCheckpoints(checkpointer, checkpoints, before);
    if ok {
      var groups := GroupByLedger(writes);
      ok, report := ImportGroups(checkpointer, groups, report);
    }
  }

  method ImportGroups(checkpointer: DriverCheckpointer, groups: seq<LedgerGroup>, before: Report)
    returns (ok: bool, report: Report)
    requires checkpointer.State().Valid()
    modifies checkpointer`ledgers
    ensures checkpointer.State().Valid()
    ensures Progress(checkpointer.State(), report, !ok)
            == ImportLedgers(Progress(old(checkpointer.State()), before, false), groups)
  {
    ghost var start := Progress(checkpointer.State(), before, false);
    report := before;
    for i := 0 to |groups|
      invariant checkpointer.State().Valid()
      invariant Progress(checkpointer.State(), report, false) == ImportLedgers(start, groups[..i])
    {
      var at := groups[i].at;
      var counted := checkpointer.ImportWrites(Config(at.thread, Some(at.checkpointId), at.namespace),
                                               groups[i].writes);
      assert groups[..i + 1][..i] == groups[..i];
      if counted.Err? {
        ImportFailureStays(start, groups, i + 1);
        return false, report;
      }
      report := report.Add(Tally(WriteKind, counted.value.0, counted.value.1, 0));
    }
    assert groups[..|groups|] == groups;
    ok := true;
  }

  method FillCheckpoints(checkpointer: DriverCheckpointer, checkpoints: seq<Checkpoint>, before: Report)
    returns (ok: bool, report: Report)
    requires checkpointer.State().Valid()
    modifies checkpointer
    ensures checkpointer.State().Valid()
    ensures Progress(checkpointer.State(), report, !ok)
            == Fill(Progress(old(checkpointer.State()), before, false), checkpoints)
  {
    ghost var start := Progress(old(checkpointer.State()), before, false);
    report := before;
    for i := 0 to |checkpoints|
      invariant checkpointer.State().Valid()
      invariant Progress(checkpointer.State(), report, false) == Fill(start, checkpoints[..i])
    {
      assert checkpoints[..i + 1][..i] == checkpoints[..i];
      var checkpoint := checkpoints[i];
      var held := Held(checkpointer.State(), checkpoint);
      if held.Err? {
        FailureStays(start, checkpoints, i + 1);
        return false, report;
      }
      if held.value.Some? {
        report := report.Tallied(CheckpointKind, false);
        continue;
      }
      var _ := checkpointer.PutCheckpoint(checkpoint);
      report := report.Tallied(CheckpointKind, true);
    }
    assert checkpoints[..|checkpoints|] == checkpoints;
    ok := true;
  }

  method GroupByLedger(writes: seq<AddressedWrite>) returns (groups: seq<LedgerGroup>)
    ensures groups == ByLedger(writes)
  {
    groups := [];
    for i := 0 to |writes|
      invariant groups == ByLedger(writes[..i])
    {
      assert writes[..i + 1][..i] == writes[..i];
      var p := LedgerPosition(groups, writes[i].at);
      if p < |groups| {
        groups := groups[p := groups[p].(writes := groups[p].writes + [writes[i].write])];
      } else {
        groups := groups + [LedgerGroup(writes[i].at, [writes[i].write])];
      }
    }
    assert writes[..|writes|] == writes;
  }

  method SiftRecords(records: seq<LegacyRecord>) returns (r: Result<Sifted>)
    ensures r.Ok? <==> AllForCheckpointer(records)
    ensures r.Ok? ==> r.value == Sift(records)
  {
    var sifted := Sifted(BLANK, [], []);
    for i := 0 to |records|
      invariant AllForCheckpointer(records[..i]) && sifted == Sift(records[..i])
    {
      assert records[..i + 1][..i] == records[..i];
      assert records[i] in records;
      if !records[i].ForCheckpointer() {
        return Err;
      }
      sifted := SiftOne(sifted, records[i]);
    }
    assert records[..|records|] == records;
    r := Ok(sifted);
  }

  /** A record of another kind refuses the batch before anything is replayed. */
  method ApplyCheckpointBatch(records: seq<LegacyRecord>, checkpointer: DriverCheckpointer)
    returns (r: Result<Response>)
    requires checkpointer.State().Valid()
    modifies checkpointer
    ensures checkpointer.State().Valid()
    ensures !AllForCheckpointer(records) ==> r.Err? && checkpointer.State() == old(checkpointer.State())
    ensures AllForCheckpointer(records) ==>
              var done := CheckpointBatch(old(checkpointer.State()), records);
              && checkpointer.State() == done.store
              && r == if done.failed then Err else Ok(Respond(done.report))
  {
    var sifted := SiftRecords(records);
    if sifted.Err? {
      return Err;
    }
    var ok, report := Replay(checkpointer, sifted.value.checkpoints, sifted.value.writes, sifted.value.report);
    r := if ok then Ok(Respond(report)) else Err;
  }

  lemma {:induction false} FailureStays(p: Progress, cs: seq<Checkpoint>, n: nat)
    requires n <= |cs| && Fill(p, cs[..n]).failed
    ensures Fill(p, cs) == Fill(p, cs[..n])
    decreases |cs|
  {
    if n < |cs| {
      assert cs[..|cs| - 1][..n] == cs[..n];
      FailureStays(p, cs[..|cs| - 1], n);
    } else {
      assert cs[..n] == cs;
    }
  }

  lemma {:induction false} ImportFailureStays(p: Progress, groups: seq<LedgerGroup>, n: nat)
    requires n <= |groups| && ImportLedgers(p, groups[..n]).failed
    ensures ImportLedgers(p, groups) == ImportLedgers(p, groups[..n])
    decreases |groups|
  {
    if n < |groups| {
      assert groups[..|groups| - 1][..n] == groups[..n];
      ImportFailureStays(p, groups[..|groups| - 1], n);
    } else {
      assert groups[..n] == groups;
    }
  }

  // ---------------------------------------------------------------- Conservation

  function Waiting(sifted: Sifted, kind: Kind): nat {
    if kind.CheckpointKind? then |sifted.checkpoints| else if kind.WriteKind? then |sifted.writes| else 0
  }

  lemma SiftOneCounts(acc: Sifted, r: LegacyRecord, kind: Kind)
    requires r.ForCheckpointer()
    ensures var next := SiftOne(acc, r);
            && next.report.Total(kind) + Waiting(next, kind)
               == acc.report.Total(kind) + Waiting(acc, kind) + (if r.Kind() == kind then 1 else 0)
            && (Explained(acc.report, kind) ==> Explained(next.report, kind))
            && next.report.written == acc.report.written
  {
    match r
    case CheckpointRow(Broken(m)) => RejectedCounts(acc.report, CheckpointKind, None, m, kind);
    case SqliteWrite(task, Broken(m)) => RejectedCounts(acc.report, WriteKind, Some(task), m, kind);
    case FileWrite(thread, Broken(m)) => RejectedCounts(acc.report, WriteKind, Some(thread), m, kind);
    case Invalid(k, identity, m) => RejectedCounts(acc.report, k, identity, m, kind);
    case CheckpointRow(Decoded(_)) =>
    case SqliteWrite(_, Decoded(_)) =>
    case FileWrite(_, Decoded(_)) =>
  }

  /** Every record is counted as invalid or waits to be replayed. */
  lemma {:induction false} SiftCounts(records: seq<LegacyRecord>, kind: Kind)
    requires AllForCheckpointer(records)
    ensures var sifted := Sift(records);
            && sifted.report.Total(kind) + Waiting(sifted, kind) == OfKind(records, kind)
            && Explained(sifted.report, kind) && sifted.report.written == map[]
  {
    if records != [] {
      SiftCounts(records[..|records| - 1], kind);
      SiftOneCounts(Sift(records[..|records| - 1]), records[|records| - 1], kind);
    }
  }

  lemma {:induction false} FillCounts(p: Progress, cs: seq<Checkpoint>, kind: Kind)
    requires !Fill(p, cs).failed
    ensures var after := Fill(p, cs).report;
            && after.Total(kind) == p.report.Total(kind) + (if kind.CheckpointKind? then |cs| else 0)
            && after.invalid == p.report.invalid && after.problems == p.report.problems
  {
    if cs != [] {
      FillCounts(p, cs[..|cs| - 1], kind);
      FillOneCounts(Fill(p, cs[..|cs| - 1]), cs[|cs| - 1], kind);
    }
  }

  lemma FillOneCounts(p: Progress, c: Checkpoint, kind: Kind)
    requires !FillOne(p, c).failed
    ensures var after := FillOne(p, c).report;
            && after.Total(kind) == p.report.Total(kind) + (if kind.CheckpointKind? then 1 else 0)
            && after.invalid == p.report.invalid && after.problems == p.report.problems
  {
  }

  function Size(groups: seq<LedgerGroup>): nat {
    if groups == [] then 0 else Size(groups[..|groups| - 1]) + |groups[|groups| - 1].writes|
  }

  lemma {:induction false} SizeUpdate(groups: seq<LedgerGroup>, p: nat, g: LedgerGroup)
    requires p < |groups|
    ensures Size(groups[p := g]) == Size(groups) - |groups[p].writes| + |g.writes|
  {
    var n := |groups| - 1;
    if p < n {
      SizeUpdate(groups[..n], p, g);
      assert groups[p := g][..n] == groups[..n][p := g];
    } else {
      assert groups[p := g][..n] == groups[..n];
    }
  }

  lemma {:induction false} GroupingKeepsAll(writes: seq<AddressedWrite>)
    ensures Size(ByLedger(writes)) == |writes|
  {
    if writes != [] {
      var init, w := writes[..|writes| - 1], writes[|writes| - 1];
      GroupingKeepsAll(init);
      var groups := ByLedger(init);
      var p := LedgerPosition(groups, w.at);
      if p < |groups| {
        SizeUpdate(groups, p, ByLedger(writes)[p]);
      } else {
        assert ByLedger(writes)[..|groups|] == groups;
      }
    }
  }

  lemma ImportIntoCounts(p: Progress, g: LedgerGroup, kind: Kind)
    requires !ImportInto(p, g).failed
    ensures var after := ImportInto(p, g).report;
            && after.Total(kind) == p.report.Total(kind) + (if kind.WriteKind? then |g.writes| else 0)
            && Count(after.invalid, kind) == Count(p.report.invalid, kind) && after.problems == p.report.problems
  {
    ImportCounts(Ledger(p.store, g.at), g.writes);
  }

  lemma {:induction false} ImportLedgersCounts(p: Progress, groups: seq<LedgerGroup>, kind: Kind)
    requires !ImportLedgers(p, groups).failed
    ensures var after := ImportLedgers(p, groups).report;
            && after.Total(kind) == p.report.Total(kind) + (if kind.WriteKind? then Size(groups) else 0)
            && Count(after.invalid, kind) == Count(p.report.invalid, kind) && after.problems == p.report.problems
  {
    if groups != [] {
      ImportLedgersCounts(p, groups[..|groups| - 1], kind);
      ImportIntoCounts(ImportLedgers(p, groups[..|groups| - 1]), groups[|groups| - 1], kind);
    }
  }

  /** Every record of a batch that succeeds is written, existing or invalid, and every invalid one is a problem. */
  lemma CheckpointBatchConserves(s: Store, records: seq<LegacyRecord>, kind: Kind)
    requires AllForCheckpointer(records) && !CheckpointBatch(s, records).failed
    ensures CheckpointBatch(s, records).report.Total(kind) == OfKind(records, kind)
    ensures Explained(CheckpointBatch(s, records).report, kind)
  {
    var sifted := Sift(records);
    var filled := Fill(Progress(s, sifted.report, false), sifted.checkpoints);
    SiftCounts(records, kind);
    FillCounts(Progress(s, sifted.report, false), sifted.checkpoints, kind);
    ImportLedgersCounts(filled, ByLedger(sifted.writes), kind);
    GroupingKeepsAll(sifted.writes);
  }
}
