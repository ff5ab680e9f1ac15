/**
 Concurrent writers of one ledger document. Each writer reads the document with
 its version, computes its replacement, and stores it only if the version is
 still the one it read; on a conflict it reads again or gives up. Any number of
 live and importing writers may interleave.

 Every run is shown to be one of the sequential histories of `LedgerHistory`,
 and each writer's reported counters are those of its place in that history.
 */
module LedgerUpdates {
  import opened Common
  import opened PendingWrites
  import opened LedgerHistory

  datatype Document = Document(version: nat, body: Option<WritesBody>) {
    /** A missing document reads as an empty ledger. */
    function Contents(): WritesBody {
      if body.Some? then body.value else EMPTY_BODY
    }
  }

  datatype Writer =
    | Reading(op: Operation)
    | Computed(op: Operation, seen: Document)
    | Finished(op: Operation, at: nat, written: nat, existing: nat)
    | GaveUp(op: Operation)

  /** `log` lists the committed operations and `owners` who committed them. */
  datatype System =
    System(doc: Document, writers: map<nat, Writer>, initial: WritesBody, log: seq<Operation>, owners: seq<nat>)

  /** What the update closure asks to store for `op` against the document it saw. */
  function Replacement(op: Operation, seen: Document): Option<WritesBody> {
    if op.source.Live? then Some(LiveBatch(seen.Contents(), op.batch))
    else
      var r := ImportBatch(seen.Contents(), op.batch);
      if r.written > 0 then Some(r.body) else None
  }

  function Counters(op: Operation, body: WritesBody): (nat, nat) {
    if op.source.Live? then (0, 0)
    else
      var r := ImportBatch(body, op.batch);
      (r.written, r.existing)
  }

  ghost predicate Init(s: System) {
    && s.doc.version == 0 && s.doc.Contents() == s.initial && MarksControl(s.initial)
    && s.writers == map[] && s.log == [] && s.owners == []
  }

  datatype Action = Begin(op: Operation) | Read | Store | Abandon

  /** Both writers return before touching storage when their batch is empty. */
  predicate Enabled(s: System, pid: nat, a: Action) {
    match a
    case Begin(op) => pid !in s.writers && op.batch != []
    case Read => pid in s.writers && s.writers[pid].Reading?
    case Store => pid in s.writers && s.writers[pid].Computed?
    case Abandon => pid in s.writers && s.writers[pid].Reading?
  }

  function Next(s: System, pid: nat, a: Action): System
    requires Enabled(s, pid, a)
  {
    match a
    case Begin(op) => s.(writers := s.writers[pid := Reading(op)])
    case Read => s.(writers := s.writers[pid := Computed(s.writers[pid].op, s.doc)])
    case Abandon => s.(writers := s.writers[pid := GaveUp(s.writers[pid].op)])
    case Store =>
      var op, seen := s.writers[pid].op, s.writers[pid].seen;
      var next, counters := Replacement(op, seen), Counters(op, seen.Contents());
      if next.None? then
        s.(writers := s.writers[pid := Finished(op, seen.version, counters.0, counters.1)])
      else if seen.version == s.doc.version then
        System(Document(s.doc.version + 1, next),
               s.writers[pid := Finished(op, seen.version, counters.0, counters.1)],
               s.initial, s.log + [op], s.owners + [pid])
      else
        s.(writers := s.writers[pid := Reading(op)])
  }

  ghost predicate Steps(s: System, t: System) {
    exists pid, a :: Enabled(s, pid, a) && t == Next(s, pid, a)
  }

  ghost predicate IsRun(trace: seq<System>) {
    && |trace| > 0 && Init(trace[0])
    && forall i, j {:trigger Steps(trace[i], trace[j])} | 0 <= i && j == i + 1 < |trace| :: Steps(trace[i], trace[j])
  }

  /** The ledger after the first `n` committed operations. */
  ghost function At(s: System, n: nat): WritesBody
    requires n <= |s.log|
  {
    Run(s.initial, s.log[..n])
  }

  ghost predicate WriterOk(s: System, pid: nat, w: Writer) {
    match w
    case Reading(op) => true
    case GaveUp(op) => true
    case Computed(op, seen) => seen.version <= |s.log| && seen.Contents() == At(s, seen.version)
    case Finished(op, at, written, existing) =>
      && at <= |s.log| && (written, existing) == Counters(op, At(s, at))
      && (if Apply(At(s, at), op) == At(s, at) && op.source.Import? then true
          else at < |s.log| && at < |s.owners| && s.log[at] == op && s.owners[at] == pid)
  }

  /**
   The document is the log replayed; each finished writer either appears in the
   log once, where its counters were computed, or changed nothing there.
   */
  ghost predicate Linearised(s: System) {
    && s.doc.version == |s.log| == |s.owners|
    && s.doc.Contents() == At(s, |s.log|)
    && (forall pid | pid in s.writers :: WriterOk(s, pid, s.writers[pid]))
    && (forall i | 0 <= i < |s.log| ::
          s.owners[i] in s.writers && s.writers[s.owners[i]].Finished? && s.writers[s.owners[i]].at == i)
  }

  lemma AtStable(s: System, t: System, n: nat)
    requires n <= |s.log| && s.initial == t.initial && s.log <= t.log
    ensures At(s, n) == At(t, n)
  {
    assert t.log[..n] == s.log[..n];
  }

  lemma AtOne(s: System, op: Operation)
    requires s.log != [] && s.log[|s.log| - 1] == op
    ensures At(s, |s.log|) == Apply(At(s, |s.log| - 1), op)
  {
    assert s.log[..|s.log|] == s.log && s.log[..|s.log|][..|s.log| - 1] == s.log[..|s.log| - 1];
  }

  /** A writer's record stays right while the log only grows. */
  lemma WriterStable(s: System, t: System, pid: nat, w: Writer)
    requires WriterOk(s, pid, w) && s.initial == t.initial && s.log <= t.log && s.owners <= t.owners
    ensures WriterOk(t, pid, w)
  {
    if w.Computed? {
      AtStable(s, t, w.seen.version);
    } else if w.Finished? {
      AtStable(s, t, w.at);
    }
  }

  /** The writer that stores is right about where it took effect. */
  lemma StoringWriterOk(s: System, pid: nat)
    requires Linearised(s) && Enabled(s, pid, Store)
    ensures var t := Next(s, pid, Store); WriterOk(t, pid, t.writers[pid])
  {
    var t, op, seen := Next(s, pid, Store), s.writers[pid].op, s.writers[pid].seen;
    assert WriterOk(s, pid, s.writers[pid]);
    AtStable(s, t, seen.version);
    if op.source.Import? {
      ImportCounts(At(s, seen.version), op.batch);
    }
  }

  lemma StoreKeepsLinearised(s: System, pid: nat)
    requires Linearised(s) && Enabled(s, pid, Store)
    ensures Linearised(Next(s, pid, Store))
  {
    var t, op := Next(s, pid, Store), s.writers[pid].op;
    assert WriterOk(s, pid, s.writers[pid]);
    AtStable(s, t, |s.log|);
    if |t.log| > |s.log| {
      AtOne(t, op);
    }
    forall q | q in t.writers ensures WriterOk(t, q, t.writers[q]) {
      if q != pid {
        assert WriterOk(s, q, s.writers[q]);
        WriterStable(s, t, q, s.writers[q]);
      } else {
        StoringWriterOk(s, pid);
      }
    }
  }

  lemma NextKeepsLinearised(s: System, pid: nat, a: Action)
    requires Linearised(s) && Enabled(s, pid, a)
    ensures Linearised(Next(s, pid, a))
  {
    if a.Store? {
      StoreKeepsLinearised(s, pid);
    } else {
      var t := Next(s, pid, a);
      assert s.log[..|s.log|] == s.log;
      forall q | q in t.writers ensures WriterOk(t, q, t.writers[q]) {
        if q != pid {
          assert WriterOk(s, q, s.writers[q]);
        }
      }
    }
  }

  lemma {:induction false} RunIsLinearised(trace: seq<System>, i: nat)
    requires IsRun(trace) && i < |trace|
    ensures Linearised(trace[i])
  {
    if i > 0 {
      RunIsLinearised(trace, i - 1);
      assert Steps(trace[i - 1], trace[i]);
      var pid, a :| Enabled(trace[i - 1], pid, a) && trace[i] == Next(trace[i - 1], pid, a);
      NextKeepsLinearised(trace[i - 1], pid, a);
    }
  }

  /**
   In every state of every concurrent run that started from no document, the
   ledger obeys the promised rule for some one order of the committed batches,
   and no batch was lost or stored twice.
   */
  lemma ConcurrentLedger(trace: seq<System>, i: nat)
    requires IsRun(trace) && i < |trace| && trace[i].initial == EMPTY_BODY
    ensures Linearised(trace[i])
    ensures Characterised(trace[i].doc.Contents(), Flatten(trace[i].log))
  {
    RunIsLinearised(trace, i);
    assert trace[i].log[..|trace[i].log|] == trace[i].log;
    LedgerAfterHistory(trace[i].log);
  }
}
