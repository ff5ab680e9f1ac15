/**
 The durable rows behind the protocol: how often a run id can be started, and
 who may be executing it.
 */
module RunRows {
  import opened Common
  import opened RunLifecycle
  import opened RunRegistration

  // ------------------------------------------------------- Moves that touch no row

  /** The call inserted its row and has neither started a run nor taken the row back. */
  predicate HoldsInsert(at: Place) {
    at.Pinning? || at.RollingBack? || at.Spawning?
  }

  /** The call has not reached its insert, or never will. */
  predicate BeforeInsert(at: Place) {
    IsStart(at) || at.Inserting? || at.ReservingResume? || at.Claiming? || at.Resuming? || at.SpawningResume?
    || IsCancel(at)
  }

  predicate Launching(at: Place) {
    at.Spawning? || at.Admitting? || at.Resuming? || at.SpawningResume?
  }

  /** A step of the call `p` that only changes where it is, and maybe a row's status. */
  ghost predicate OnlyMoves(s: State, t: State, p: Pid) {
    && t.books == s.books && t.actors == s.actors
    && p in t.calls && t.calls == s.calls[p := t.calls[p]]
    && (p in s.calls ==> t.calls[p].key == s.calls[p].key)
    && !HoldsInsert(t.calls[p].place)
    && (p in s.calls && BeforeInsert(t.calls[p].place) ==> BeforeInsert(s.calls[p].place))
    && (Launching(t.calls[p].place) ==>
          p in s.calls && Launching(s.calls[p].place) && t.calls[p].run == s.calls[p].run)
    && |t.runs| >= |s.runs|
    && (forall r | 0 <= r < |s.runs| :: t.runs[r].key == s.runs[r].key && t.runs[r].owner == s.runs[r].owner)
    && (forall r | |s.runs| <= r < |t.runs| :: t.runs[r].owner == p)
  }

  lemma ConsultOnlyMoves(s: State, p: Pid, c: Choice)
    requires Enabled(s, Consult(p, c))
    ensures OnlyMoves(s, s.With(p, StartMove(s, s.calls[p], c)), p)
  {
    StartMoveShape(s, s.calls[p], c);
  }

  lemma CancelOnlyMoves(s: State, p: Pid, c: Choice)
    requires Enabled(s, Cancel(p, c))
    ensures OnlyMoves(s, CancelStep(s, p, c), p)
  {
    CancelStepShape(s, p, c);
    CancelMoveShape(s, s.calls[p], c);
  }

  lemma ResumeOnlyMoves(s: State, a: Action)
    requires Enabled(s, a) && (a.DeclineResume? || a.ReserveResume?)
    ensures OnlyMoves(s, Next(s, a), a.pid)
  {
  }

  /** Every action but the storage steps, the spawn, the actors and the environment is such a move. */
  predicate IsMove(a: Action) {
    a.Enter? || a.Consult? || a.Register? || a.DeclineResume? || a.ReserveResume? || a.StoreRunning? || a.Wake?
    || a.Release?
    || a.Cancel? || a.StoreTerminal? || a.Deregister?
  }

  lemma EntryOnlyMoves(s: State, a: Action)
    requires Enabled(s, a) && (a.Enter? || a.Register?)
    ensures OnlyMoves(s, Next(s, a), a.pid)
  {
  }

  lemma StoreRunningOnlyMoves(s: State, p: Pid)
    requires Enabled(s, StoreRunning(p))
    ensures OnlyMoves(s, Next(s, StoreRunning(p)), p)
  {
  }

  lemma WakeOnlyMoves(s: State, p: Pid)
    requires Enabled(s, Wake(p))
    ensures OnlyMoves(s, Next(s, Wake(p)), p)
  {
  }

  lemma ReleaseOnlyMoves(s: State, p: Pid)
    requires Enabled(s, Release(p))
    ensures OnlyMoves(s, Next(s, Release(p)), p)
  {
  }

  lemma StoreTerminalOnlyMoves(s: State, p: Pid)
    requires Enabled(s, StoreTerminal(p))
    ensures OnlyMoves(s, Next(s, StoreTerminal(p)), p)
  {
  }

  lemma DeregisterOnlyMoves(s: State, p: Pid)
    requires Enabled(s, Deregister(p))
    ensures OnlyMoves(s, Next(s, Deregister(p)), p)
  {
  }

  // --------------------------------------------------- Every start needs its own insert

  function Present(s: State, k: Key): nat {
    if k in s.rows then 1 else 0
  }

  /** Each insert for `k` is spent on at most one of a rollback and a start, or still held by its call. */
  ghost predicate Spent(inserted: set<Pid>, removed: set<Pid>, started: set<Pid>, calls: map<Pid, Call>, k: Key) {
    && removed <= inserted && started <= inserted && removed !! started
    && (forall p | p in inserted :: p in calls && !BeforeInsert(calls[p].place))
    && (forall p | p in calls && HoldsInsert(calls[p].place) && calls[p].key == k ::
          p in inserted && p !in removed && p !in started)
  }

  /**
   Rows are conserved: those found in storage plus those inserted, here or by
   another process, are those present, rolled back or dropped. `base` is 1 when
   storage held a row for `k`.
   */
  ghost predicate Tallied(s: State, k: Key, base: nat) {
    && base + PeerInserts(s, k) + |s.Inserted(k)| == Present(s, k) + |s.Removed(k)| + Drops(s, k)
    && Spent(s.Inserted(k), s.Removed(k), s.Started(k), s.calls, k)
  }

  lemma SpentMove(inserted: set<Pid>, removed: set<Pid>, started: set<Pid>, calls: map<Pid, Call>, k: Key,
                  p: Pid, next: Call)
    requires Spent(inserted, removed, started, calls, k)
    requires p in calls ==> next.key == calls[p].key
    requires p in calls && BeforeInsert(next.place) ==> BeforeInsert(calls[p].place)
    requires HoldsInsert(next.place) && next.key == k ==>
               p in calls && (HoldsInsert(calls[p].place) || p in inserted - removed - started)
    ensures Spent(inserted, removed, started, calls[p := next], k)
  {
  }

  lemma MoveTallies(s: State, t: State, p: Pid, k: Key, base: nat)
    requires Tallied(s, k, base) && OnlyMoves(s, t, p) && (k in t.rows <==> k in s.rows)
    ensures Tallied(t, k, base)
  {
    SpentMove(s.Inserted(k), s.Removed(k), s.Started(k), s.calls, k, p, t.calls[p]);
  }

  /** A step that leaves the calls and their bookkeeping alone and keeps the row, drops it or is a peer's insert. */
  lemma EnvironmentTallies(s: State, t: State, k: Key, base: nat)
    requires Tallied(s, k, base)
    requires t.Inserted(k) == s.Inserted(k) && t.Removed(k) == s.Removed(k) && t.Started(k) == s.Started(k)
    requires t.calls == s.calls
    requires Present(t, k) + Drops(t, k) + PeerInserts(s, k) == Present(s, k) + Drops(s, k) + PeerInserts(t, k)
    ensures Tallied(t, k, base)
  {
  }

  /** What a storage step does to the books of one key. */
  lemma StorageBooked(s: State, p: Pid, c: Choice, k: Key)
    requires Enabled(s, UseStorage(p, c))
    ensures var t, call := StorageStep(s, p, c), s.calls[p];
            var mine := Effective(s, call, c) && call.key == k;
            && t.Inserted(k) == (if mine && call.place.Inserting? then s.Inserted(k) + {p} else s.Inserted(k))
            && t.Removed(k) == (if mine && call.place.RollingBack? then s.Removed(k) + {p} else s.Removed(k))
            && t.Started(k) == s.Started(k) && Drops(t, k) == Drops(s, k) && PeerInserts(t, k) == PeerInserts(s, k)
  {
  }

  lemma StoragePresence(s: State, p: Pid, c: Choice, k: Key)
    requires Enabled(s, UseStorage(p, c))
    ensures var t, call := StorageStep(s, p, c), s.calls[p];
            var mine := Effective(s, call, c) && call.key == k;
            && (mine && call.place.Inserting? ==> k !in s.rows && k in t.rows)
            && (mine && call.place.RollingBack? ==> k in s.rows && k !in t.rows)
            && (!mine || !(call.place.Inserting? || call.place.RollingBack?) ==> (k in t.rows <==> k in s.rows))
  {
  }

  lemma StorageTallies(s: State, p: Pid, c: Choice, k: Key, base: nat)
    requires Tallied(s, k, base) && Enabled(s, UseStorage(p, c))
    ensures Tallied(StorageStep(s, p, c), k, base)
  {
    var call := s.calls[p];
    StorageStepShape(s, p, c);
    StorageMoveShape(call, Effective(s, call, c), c);
    StorageBooked(s, p, c, k);
    StoragePresence(s, p, c, k);
    StorageSpends(s.Inserted(k), s.Removed(k), s.Started(k), s.calls, k, p,
                  Effective(s, call, c), c);
  }

  lemma StorageSpends(inserted: set<Pid>, removed: set<Pid>, started: set<Pid>, calls: map<Pid, Call>, k: Key,
                      p: Pid, effective: bool, c: Choice)
    requires Spent(inserted, removed, started, calls, k) && p in calls && IsStorage(calls[p].place)
    ensures var call, mine := calls[p], effective && calls[p].key == k;
            && (mine && call.place.Inserting? ==> p !in inserted)
            && (mine && call.place.RollingBack? ==> p !in removed)
            && Spent(if mine && call.place.Inserting? then inserted + {p} else inserted,
                     if mine && call.place.RollingBack? then removed + {p} else removed,
                     started, calls[p := StorageMove(call, effective, c)], k)
  {
    StorageMoveShape(calls[p], effective, c);
  }

  lemma SpawnTallies(s: State, p: Pid, k: Key, base: nat)
    requires Tallied(s, k, base) && Enabled(s, Spawn(p))
    ensures Tallied(SpawnStep(s, p), k, base)
  {
    var call, t := s.calls[p], SpawnStep(s, p);
    var started := s.Started(k);
    assert t.Started(k) == if call.place.Spawning? && call.key == k then started + {p} else started;
    SpawnSpends(s.Inserted(k), s.Removed(k), started, s.calls, k, p);
  }

  lemma SpawnSpends(inserted: set<Pid>, removed: set<Pid>, started: set<Pid>, calls: map<Pid, Call>, k: Key, p: Pid)
    requires Spent(inserted, removed, started, calls, k) && p in calls
    requires calls[p].place.Spawning? || calls[p].place.SpawningResume?
    ensures var call := calls[p];
            Spent(inserted, removed, if call.place.Spawning? && call.key == k then started + {p} else started,
                  calls[p := call.(place := if call.place.Spawning? then Admitting else Notifying)], k)
  {
  }

  predicate IsActor(a: Action) {
    a.ActorBegins? || a.ActorDrives? || a.ActorParks? || a.ActorStores? || a.ActorDeregisters?
  }

  ghost predicate SameBooks(s: State, t: State, k: Key) {
    && t.books == s.books && t.calls == s.calls && (k in t.rows <==> k in s.rows)
  }

  lemma DriveBooks(s: State, r: RunRef, o: Outcome, k: Key)
    requires Enabled(s, ActorDrives(r, o))
    ensures SameBooks(s, DriveStep(s, r, o), k)
  {
  }

  lemma ActorBooks(s: State, a: Action, k: Key)
    requires Enabled(s, a) && IsActor(a)
    ensures SameBooks(s, Next(s, a), k)
  {
    match a
    case ActorBegins(_) =>
    case ActorDrives(r, o) => DriveBooks(s, r, o, k);
    case ActorParks(_, _) =>
    case ActorStores(_) =>
    case ActorDeregisters(_) =>
  }

  lemma MovesMove(s: State, a: Action)
    requires Enabled(s, a) && IsMove(a)
    ensures OnlyMoves(s, Next(s, a), a.pid)
  {
    match a {
      case Consult(p, c) => ConsultOnlyMoves(s, p, c);
      case Cancel(p, c) => CancelOnlyMoves(s, p, c);
      case StoreRunning(p) => StoreRunningOnlyMoves(s, p);
      case Wake(p) => WakeOnlyMoves(s, p);
      case Release(p) => ReleaseOnlyMoves(s, p);
      case StoreTerminal(p) => StoreTerminalOnlyMoves(s, p);
      case Deregister(p) => DeregisterOnlyMoves(s, p);
      case DeclineResume(_) => ResumeOnlyMoves(s, a);
      case ReserveResume(_) => ResumeOnlyMoves(s, a);
      case _ => EntryOnlyMoves(s, a);
    }
  }

  /** A move leaves the rows as they are, except that a canceller may settle one. */
  ghost predicate RowKept(s: State, t: State, k: Key) {
    && (k in t.rows <==> k in s.rows)
    && (k in s.rows ==> t.rows[k] == s.rows[k] || t.rows[k] == s.rows[k].(status := Settled))
  }

  lemma CancelKeepsRow(s: State, p: Pid, c: Choice, k: Key)
    requires Enabled(s, Cancel(p, c))
    ensures RowKept(s, CancelStep(s, p, c), k)
  {
  }

  lemma MovesKeepRow(s: State, a: Action, k: Key)
    requires Enabled(s, a) && IsMove(a)
    ensures RowKept(s, Next(s, a), k)
  {
    if a.Cancel? {
      CancelKeepsRow(s, a.pid, a.choice, k);
    }
  }

  lemma NextTallies(s: State, a: Action, k: Key, base: nat)
    requires Tallied(s, k, base) && Enabled(s, a)
    ensures Tallied(Next(s, a), k, base)
  {
    if IsMove(a) {
      MovesMove(s, a);
      MovesKeepRow(s, a, k);
      MoveTallies(s, Next(s, a), a.pid, k, base);
    } else if IsActor(a) {
      ActorBooks(s, a, k);
      EnvironmentTallies(s, Next(s, a), k, base);
    } else {
      match a {
        case UseStorage(p, c) => StorageTallies(s, p, c, k, base);
        case Spawn(p) => SpawnTallies(s, p, k, base);
        case SettleRow(x) => EnvironmentTallies(s, Next(s, a), k, base);
        case DropRow(x) => EnvironmentTallies(s, Next(s, a), k, base);
        case PeerInsert(_, _) => EnvironmentTallies(s, Next(s, a), k, base);
        case PeerUpdate(_, _) => EnvironmentTallies(s, Next(s, a), k, base);
      }
    }
  }

  lemma {:induction false} RunTallies(trace: seq<State>, i: nat, k: Key)
    requires IsRun(trace) && i < |trace|
    ensures Tallied(trace[i], k, Present(trace[0], k))
  {
    if i > 0 {
      RunTallies(trace, i - 1, k);
      assert Steps(trace[i - 1], trace[i - 1 + 1]);
      var a :| Enabled(trace[i - 1], a) && trace[i] == Next(trace[i - 1], a);
      NextTallies(trace[i - 1], a, k, Present(trace[0], k));
    }
  }

  /**
   Of all the StartRun calls for one scoped run id, over every interleaving and
   every storage failure, at most one starts an actor, plus one for each time the
   row was dropped meanwhile, less one for each row that was not inserted here:
   the one storage already held and those of other processes.
   */
  lemma StartsAreExclusive(trace: seq<State>, i: nat, k: Key)
    requires IsRun(trace) && i < |trace|
    ensures |trace[i].Started(k)| + Present(trace[0], k) + PeerInserts(trace[i], k) <= 1 + Drops(trace[i], k)
  {
    RunTallies(trace, i, k);
    CardinalityLeft(trace[i].Inserted(k), trace[i].Removed(k), trace[i].Started(k));
  }

  lemma CardinalityLeft(whole: set<Pid>, a: set<Pid>, b: set<Pid>)
    requires a <= whole && b <= whole && a !! b
    ensures |a| + |b| <= |whole|
  {
    assert |a + b| == |a| + |b|;
    Subset(a + b, whole);
  }

  lemma Subset(a: set<Pid>, b: set<Pid>)
    requires a <= b
    ensures |a| <= |b|
  {
    assert |b - a| + |a| == |b| by { assert (b - a) + a == b; }
  }

  // ------------------------------------------------------------ Rows are not replaced

  lemma StorageKeepsRow(s: State, p: Pid, c: Choice, k: Key)
    requires Enabled(s, UseStorage(p, c)) && k in s.rows && k in StorageStep(s, p, c).rows
    ensures var before, after := s.rows[k], StorageStep(s, p, c).rows[k];
            after.creator == before.creator && (before.status.Settled? ==> after.status.Settled?)
  {
  }

  lemma ActorKeepsRow(s: State, a: Action, k: Key)
    requires Enabled(s, a) && IsActor(a) && k in s.rows && k in Next(s, a).rows
    ensures var before, after := s.rows[k], Next(s, a).rows[k];
            after.creator == before.creator && (before.status.Settled? ==> after == before)
  {
  }

  /** No step puts another row in the place of an existing one, and a settled row stays settled. */
  lemma RowsAreNeverReplaced(s: State, a: Action, k: Key)
    requires Enabled(s, a) && k in s.rows && k in Next(s, a).rows
    ensures var before, after := s.rows[k], Next(s, a).rows[k];
            after.creator == before.creator && (before.status.Settled? ==> after.status.Settled?)
  {
    if IsMove(a) {
      MovesKeepRow(s, a, k);
    } else if IsActor(a) {
      ActorKeepsRow(s, a, k);
    } else if a.UseStorage? {
      StorageKeepsRow(s, a.pid, a.choice, k);
    }
  }
}
