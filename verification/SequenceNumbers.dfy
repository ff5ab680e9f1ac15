/**
 Concurrent `put`s. Reserving a sequence number and inserting the record under
 it are two separate atomic steps, so between them any other writer may reserve,
 insert, disappear, or delete threads and checkpoints.
 */
module SequenceNumbers {
  import opened Common
  import opened CheckpointStore

  datatype Writer =
    | Wanting(checkpoint: Checkpoint)
    | Reserved(checkpoint: Checkpoint, seqNo: nat)
    | Inserted(checkpoint: Checkpoint, seqNo: nat)
    | Refused(checkpoint: Checkpoint, seqNo: nat)
    | Lost(checkpoint: Checkpoint, seqNo: nat)
  {
    predicate HasNumber() { !Wanting? }

    function Key(): RecordKey
      requires HasNumber()
    {
      RecordKey(checkpoint.threadId, seqNo)
    }
  }

  datatype System = System(store: Store, writers: map<nat, Writer>)

  datatype Action =
    | Begin(pid: nat, checkpoint: Checkpoint)
    | Reserve(pid: nat)
    | Insert(pid: nat)
    | Lose(pid: nat)
    | DropThread(thread: string)
    | DropCheckpoints(thread: string, ids: seq<string>)

  predicate Enabled(s: System, a: Action) {
    match a
    case Begin(pid, _) => pid !in s.writers
    case Reserve(pid) => pid in s.writers && s.writers[pid].Wanting?
    case Insert(pid) => pid in s.writers && s.writers[pid].Reserved?
    case Lose(pid) => pid in s.writers && s.writers[pid].Reserved?
    case DropThread(_) => true
    case DropCheckpoints(_, _) => true
  }

  function Next(s: System, a: Action): System
    requires Enabled(s, a)
  {
    match a
    case Begin(pid, c) => s.(writers := s.writers[pid := Wanting(c)])
    case Reserve(pid) =>
      var c := s.writers[pid].checkpoint;
      var n := s.store.Next(c.threadId);
      System(s.store.(counters := s.store.counters[c.threadId := n + 1]), s.writers[pid := Reserved(c, n)])
    case Insert(pid) =>
      var w := s.writers[pid];
      if w.Key() in s.store.records then s.(writers := s.writers[pid := Refused(w.checkpoint, w.seqNo)])
      else System(s.store.(records := s.store.records[w.Key() := RecordOf(w.checkpoint, w.seqNo)]),
                  s.writers[pid := Inserted(w.checkpoint, w.seqNo)])
    case Lose(pid) => s.(writers := s.writers[pid := Lost(s.writers[pid].checkpoint, s.writers[pid].seqNo)])
    case DropThread(t) => s.(store := DeleteThread(s.store, t))
    case DropCheckpoints(t, ids) => s.(store := DeleteCheckpoints(s.store, t, ids))
  }

  ghost predicate Steps(s: System, t: System) {
    exists a :: Enabled(s, a) && t == Next(s, a)
  }

  ghost predicate IsRun(trace: seq<System>) {
    && |trace| > 0 && trace[0].store.Valid() && trace[0].writers == map[]
    && forall i, j {:trigger Steps(trace[i], trace[j])} | 0 <= i && j == i + 1 < |trace| :: Steps(trace[i], trace[j])
  }

  /**
   Every number handed out lies below its thread's counter and belongs to one
   writer, a reserved key is free, and no insert was ever refused.
   */
  ghost predicate Unshared(s: System) {
    && s.store.Valid()
    && (forall p | p in s.writers && s.writers[p].HasNumber() ::
          && !s.writers[p].Refused?
          && s.writers[p].seqNo < s.store.Next(s.writers[p].checkpoint.threadId)
          && (s.writers[p].Reserved? || s.writers[p].Lost? ==> s.writers[p].Key() !in s.store.records)
          && (s.writers[p].Inserted? && s.writers[p].Key() in s.store.records ==>
                s.store.records[s.writers[p].Key()] == RecordOf(s.writers[p].checkpoint, s.writers[p].seqNo)))
    && (forall p, q | p in s.writers && q in s.writers && p != q && s.writers[p].HasNumber() &&
              s.writers[q].HasNumber() ::
          s.writers[p].Key() != s.writers[q].Key())
  }

  lemma InsertKeepsUnshared(s: System, pid: nat)
    requires Unshared(s) && Enabled(s, Insert(pid))
    ensures Unshared(Next(s, Insert(pid)))
  {
    assert s.writers[pid].Key() !in s.store.records;
  }

  lemma DropsKeepUnshared(s: System, a: Action)
    requires Unshared(s) && Enabled(s, a) && (a.DropThread? || a.DropCheckpoints?)
    ensures Unshared(Next(s, a))
  {
  }

  lemma ReserveKeepsUnshared(s: System, pid: nat)
    requires Unshared(s) && Enabled(s, Reserve(pid))
    ensures Unshared(Next(s, Reserve(pid)))
  {
  }

  lemma NextKeepsUnshared(s: System, a: Action)
    requires Unshared(s) && Enabled(s, a)
    ensures Unshared(Next(s, a))
  {
    match a
    case Insert(pid) => InsertKeepsUnshared(s, pid);
    case Reserve(pid) => ReserveKeepsUnshared(s, pid);
    case DropThread(_) => DropsKeepUnshared(s, a);
    case DropCheckpoints(_, _) => DropsKeepUnshared(s, a);
    case Begin(_, _) =>
    case Lose(_) =>
  }

  /** No number of a thread is ever used twice, whatever is lost or deleted in between. */
  lemma {:induction false} NumbersNeverReused(trace: seq<System>, i: nat)
    requires IsRun(trace) && i < |trace|
    ensures Unshared(trace[i])
  {
    if i > 0 {
      NumbersNeverReused(trace, i - 1);
      assert Steps(trace[i - 1], trace[i]);
      var a :| Enabled(trace[i - 1], a) && trace[i] == Next(trace[i - 1], a);
      NextKeepsUnshared(trace[i - 1], a);
    }
  }

  lemma CounterStep(s: System, a: Action, thread: string)
    requires Enabled(s, a)
    ensures s.store.Next(thread) <= Next(s, a).store.Next(thread)
  {
  }

  /** A counter never goes back, so a thread recreated under an old name continues after it. */
  lemma {:induction false} CountersOnlyGrow(trace: seq<System>, i: nat, j: nat, thread: string)
    requires IsRun(trace) && i <= j < |trace|
    ensures trace[i].store.Next(thread) <= trace[j].store.Next(thread)
    decreases j
  {
    if i < j {
      CountersOnlyGrow(trace, i, j - 1, thread);
      assert Steps(trace[j - 1], trace[j]);
      var a :| Enabled(trace[j - 1], a) && trace[j] == Next(trace[j - 1], a);
      CounterStep(trace[j - 1], a, thread);
    }
  }
}
