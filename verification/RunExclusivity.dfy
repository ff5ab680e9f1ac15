/**
 At most one actor executes a run id at a time, whether it was started or
 resumed, and whatever cancellers and sweeps do meanwhile.
 */
module RunExclusivity {
  import opened Common
  import opened RunLifecycle
  import opened RunRegistration
  import opened RunRows

  /** The run is about to get its actor, or its actor has not settled the row yet. */
  predicate Busy(s: State, r: RunRef) {
    && r < |s.runs|
    && (|| (r in s.actors && (s.actors[r].Spawned? || s.actors[r].Driving?))
        || (s.runs[r].owner in s.calls && Launching(s.calls[s.runs[r].owner].place)
            && s.calls[s.runs[r].owner].run == Some(r)))
  }

  /** The row is settled, or it is running under the lease of `r`. */
  predicate Leased(s: State, k: Key, r: RunRef) {
    k in s.rows && (s.rows[k].status.Settled? || (s.rows[k].status.Executing? && s.rows[k].lease == Held(r)))
  }

  /** The row is the one this call inserted, with no snapshot pinned yet. */
  predicate Fresh(s: State, call: Call) {
    && call.key in s.rows && call.run.Some? && s.rows[call.key].creator == call.run
    && (call.place.Pinning? ==>
          s.rows[call.key].lease.NoSnapshot? && !s.rows[call.key].status.PendingApproval?)
  }

  ghost predicate Owned(s: State, k: Key) {
    && (forall p |
          p in s.calls && s.calls[p].key == k && (s.calls[p].place.Pinning? || s.calls[p].place.RollingBack?) ::
          Fresh(s, s.calls[p]))
    && (forall r: RunRef {:trigger Busy(s, r)} | Busy(s, r) && s.runs[r].key == k :: Leased(s, k, r))
    && (forall r: RunRef, x: RunRef {:trigger Busy(s, r), Busy(s, x)} |
          Busy(s, r) && Busy(s, x) && s.runs[r].key == k && s.runs[x].key == k :: r == x)
  }

  // --------------------------------------------------------------- Moves and spawns

  /** The same runs are busy, or fewer. */
  ghost predicate NoNewBusy(s: State, t: State, k: Key) {
    forall r: RunRef {:trigger Busy(t, r)} | Busy(t, r) && t.runs[r].key == k :: Busy(s, r) && s.runs[r].key == k
  }

  /** The same calls hold an insert, or fewer. */
  ghost predicate NoNewHolders(s: State, t: State, k: Key) {
    forall p |
      p in t.calls && t.calls[p].key == k && (t.calls[p].place.Pinning? || t.calls[p].place.RollingBack?) ::
      p in s.calls && s.calls[p] == t.calls[p]
  }

  lemma KeptRowStaysOwned(s: State, t: State, k: Key)
    requires Owned(s, k) && RowKept(s, t, k) && NoNewBusy(s, t, k) && NoNewHolders(s, t, k)
    ensures Owned(t, k)
  {
    forall p | p in t.calls && t.calls[p].key == k && (t.calls[p].place.Pinning? || t.calls[p].place.RollingBack?)
      ensures Fresh(t, t.calls[p])
    {
      assert Fresh(s, s.calls[p]);
    }
  }

  lemma MovesAddNothing(s: State, t: State, p: Pid, k: Key)
    requires Consistent(s) && OnlyMoves(s, t, p)
    ensures NoNewBusy(s, t, k) && NoNewHolders(s, t, k)
  {
    forall r: RunRef | Busy(t, r) && t.runs[r].key == k ensures Busy(s, r) && s.runs[r].key == k {
      if r in s.actors {
        assert ActorOk(s, r, s.actors[r]);
      }
      if p in s.calls {
        assert CallOk(s, p, s.calls[p]);
      }
    }
  }

  lemma SpawnAddsNothing(s: State, p: Pid, k: Key)
    requires Consistent(s) && Enabled(s, Spawn(p))
    ensures NoNewBusy(s, SpawnStep(s, p), k) && NoNewHolders(s, SpawnStep(s, p), k)
  {
    assert CallOk(s, p, s.calls[p]);
  }

  /** An actor moves on, and changes nothing of any run but its phase and its notifications. */
  ghost predicate OnlyActs(s: State, t: State, r: RunRef) {
    && r in s.actors && r in t.actors && t.calls == s.calls && t.actors == s.actors[r := t.actors[r]]
    && (t.actors[r].Driving? ==> s.actors[r].Spawned?) && !t.actors[r].Spawned?
    && |t.runs| == |s.runs|
    && forall x {:trigger t.runs[x]} | 0 <= x < |s.runs| ::
         t.runs[x].key == s.runs[x].key && t.runs[x].owner == s.runs[x].owner
  }

  lemma ActorOnlyActs(s: State, a: Action)
    requires Enabled(s, a) && IsActor(a)
    ensures OnlyActs(s, Next(s, a), a.run)
  {
  }

  lemma ActorAddsNothing(s: State, a: Action, k: Key)
    requires Enabled(s, a) && IsActor(a)
    ensures NoNewBusy(s, Next(s, a), k) && NoNewHolders(s, Next(s, a), k)
  {
    ActorOnlyActs(s, a);
    ActingAddsNothing(s, Next(s, a), a.run, k);
  }

  lemma ActingAddsNothing(s: State, t: State, r: RunRef, k: Key)
    requires OnlyActs(s, t, r)
    ensures NoNewBusy(s, t, k) && NoNewHolders(s, t, k)
  {
  }

  // ------------------------------------------------------------- Storage steps

  /** What a storage step changes, seen from one key. */
  ghost predicate StorageStepped(s: State, t: State, p: Pid, next: Call) {
    && Consistent(s) && p in s.calls && IsStorage(s.calls[p].place)
    && t.runs == s.runs && t.actors == s.actors && t.calls == s.calls[p := next]
    && next.key == s.calls[p].key && next.run == s.calls[p].run
  }

  /** The call's own run is the only one that can become busy. */
  lemma OnlyOwnBusy(s: State, t: State, p: Pid, next: Call, r: RunRef)
    requires StorageStepped(s, t, p, next) && Busy(t, r)
    ensures Busy(s, r) || (Launching(next.place) && next.run == Some(r) && s.runs[r].key == next.key)
  {
    assert CallOk(s, p, s.calls[p]);
  }

  lemma StorageElsewhere(s: State, t: State, p: Pid, next: Call, k: Key)
    requires StorageStepped(s, t, p, next) && Owned(s, k)
    requires next.key != k || (next.place.Storing? || next.place.Failing?)
    requires RowKept(s, t, k)
    ensures Owned(t, k)
  {
    forall r: RunRef | Busy(t, r) && t.runs[r].key == k ensures Busy(s, r) && s.runs[r].key == k {
      OnlyOwnBusy(s, t, p, next, r);
    }
    KeptRowStaysOwned(s, t, k);
  }

  /** Two calls cannot both hold the insert of one row. */
  lemma OneHolder(s: State, p: Pid, q: Pid, k: Key)
    requires Consistent(s) && Owned(s, k) && p in s.calls && q in s.calls
    requires s.calls[p].key == k && (s.calls[p].place.Pinning? || s.calls[p].place.RollingBack?)
    requires s.calls[q].key == k && (s.calls[q].place.Pinning? || s.calls[q].place.RollingBack?)
    ensures p == q
  {
    assert Fresh(s, s.calls[p]) && Fresh(s, s.calls[q]);
    assert CallOk(s, p, s.calls[p]) && CallOk(s, q, s.calls[q]);
  }

  /** An insert that takes effect finds no busy run and no other holder. */
  lemma InsertOwned(s: State, t: State, p: Pid, next: Call, k: Key)
    requires StorageStepped(s, t, p, next) && Owned(s, k) && s.calls[p].place.Inserting? && next.key == k
    requires k !in s.rows && k in t.rows && t.rows[k] == Row(Executing, NoSnapshot, next.run)
    requires next.place.Pinning? || next.place.Storing?
    ensures Owned(t, k)
  {
    assert CallOk(s, p, s.calls[p]);
    forall q | q in t.calls && t.calls[q].key == k && (t.calls[q].place.Pinning? || t.calls[q].place.RollingBack?)
      ensures Fresh(t, t.calls[q])
    {
      assert q != p ==> Fresh(s, s.calls[q]);
    }
    forall r: RunRef | Busy(t, r) && t.runs[r].key == k ensures false {
      OnlyOwnBusy(s, t, p, next, r);
    }
  }

  /** A pin that takes effect turns its own row into its own lease; no other run can be busy. */
  lemma PinOwned(s: State, t: State, p: Pid, next: Call, k: Key)
    requires StorageStepped(s, t, p, next) && Owned(s, k) && s.calls[p].place.Pinning? && next.key == k
    requires k in s.rows && s.rows[k].status.Executing? && next.run.Some?
    requires k in t.rows && t.rows[k] == s.rows[k].(lease := Held(next.run.value))
    requires next.place.Spawning? || next.place.RollingBack?
    ensures Owned(t, k)
  {
    assert Fresh(s, s.calls[p]);
    forall q | q in t.calls && t.calls[q].key == k && (t.calls[q].place.Pinning? || t.calls[q].place.RollingBack?)
      ensures Fresh(t, t.calls[q])
    {
      if q != p {
        OneHolder(s, p, q, k);
      }
    }
    forall r: RunRef | Busy(t, r) && t.runs[r].key == k ensures next.run == Some(r) {
      OnlyOwnBusy(s, t, p, next, r);
      assert Busy(s, r) ==> Leased(s, k, r);
    }
  }

  /** A refused pin keeps the row and only moves on to the rollback. */
  lemma PinRefused(s: State, t: State, p: Pid, next: Call, k: Key)
    requires StorageStepped(s, t, p, next) && Owned(s, k) && s.calls[p].place.Pinning? && next.key == k
    requires t.rows == s.rows && next.place.RollingBack?
    ensures Owned(t, k)
  {
    assert Fresh(s, s.calls[p]);
    forall q | q in t.calls && t.calls[q].key == k && (t.calls[q].place.Pinning? || t.calls[q].place.RollingBack?)
      ensures Fresh(t, t.calls[q])
    {
      assert q != p ==> Fresh(s, s.calls[q]);
    }
    forall r: RunRef | Busy(t, r) && t.runs[r].key == k ensures Busy(s, r) && Leased(t, k, r) {
      OnlyOwnBusy(s, t, p, next, r);
    }
  }

  /** A rollback that takes effect removes its own, still unpinned row. */
  lemma RollbackOwned(s: State, t: State, p: Pid, next: Call, k: Key)
    requires StorageStepped(s, t, p, next) && Owned(s, k) && s.calls[p].place.RollingBack? && next.key == k
    requires k in s.rows && s.rows[k].status.Executing? && s.rows[k].lease.NoSnapshot? && k !in t.rows
    requires next.place.Storing?
    ensures Owned(t, k)
  {
    forall q | q in t.calls && t.calls[q].key == k && (t.calls[q].place.Pinning? || t.calls[q].place.RollingBack?)
      ensures false
    {
      OneHolder(s, p, q, k);
    }
    forall r: RunRef | Busy(t, r) && t.runs[r].key == k ensures false {
      OnlyOwnBusy(s, t, p, next, r);
    }
  }

  /** A claim that takes effect finds the row parked, so nobody is busy and nobody is pinning. */
  lemma ClaimOwned(s: State, t: State, p: Pid, next: Call, k: Key)
    requires StorageStepped(s, t, p, next) && Owned(s, k) && s.calls[p].place.Claiming? && next.key == k
    requires k in s.rows && s.rows[k].status.PendingApproval? && next.run.Some?
    requires k in t.rows && t.rows[k] == s.rows[k].(status := Executing, lease := Held(next.run.value))
    requires next.place.Resuming? || next.place.Storing?
    ensures Owned(t, k)
  {
    forall q | q in t.calls && t.calls[q].key == k && (t.calls[q].place.Pinning? || t.calls[q].place.RollingBack?)
      ensures Fresh(t, t.calls[q])
    {
      assert q != p;
      assert Fresh(s, s.calls[q]);
    }
    forall r: RunRef | Busy(t, r) && t.runs[r].key == k ensures next.run == Some(r) {
      OnlyOwnBusy(s, t, p, next, r);
      assert Busy(s, r) ==> Leased(s, k, r);
    }
  }

  lemma StorageSteps(s: State, p: Pid, c: Choice)
    requires Consistent(s) && Enabled(s, UseStorage(p, c))
    ensures StorageStepped(s, StorageStep(s, p, c), p, StorageMove(s.calls[p], Effective(s, s.calls[p], c), c))
  {
    StorageStepShape(s, p, c);
    StorageMoveShape(s.calls[p], Effective(s, s.calls[p], c), c);
  }

  lemma StorageRowsElsewhere(s: State, p: Pid, c: Choice, k: Key)
    requires Enabled(s, UseStorage(p, c))
    requires s.calls[p].key != k || !Effective(s, s.calls[p], c) || s.calls[p].place.Failing?
    ensures RowKept(s, StorageStep(s, p, c), k)
  {
  }

  lemma StorageOwned(s: State, p: Pid, c: Choice, k: Key)
    requires Consistent(s) && Owned(s, k) && Enabled(s, UseStorage(p, c))
    ensures Owned(StorageStep(s, p, c), k)
  {
    var t, call, effective := StorageStep(s, p, c), s.calls[p], Effective(s, s.calls[p], c);
    var next := StorageMove(call, effective, c);
    StorageSteps(s, p, c);
    assert CallOk(s, p, call);
    if call.key != k || call.place.Failing? {
      StorageRowsElsewhere(s, p, c, k);
      StorageElsewhere(s, t, p, next, k);
    } else if !effective {
      StorageRowsElsewhere(s, p, c, k);
      if call.place.Pinning? {
        PinRefused(s, t, p, next, k);
      } else {
        StorageElsewhere(s, t, p, next, k);
      }
    } else {
      match call.place {
        case Inserting => InsertOwned(s, t, p, next, k);
        case Pinning => PinOwned(s, t, p, next, k);
        case RollingBack => RollbackOwned(s, t, p, next, k);
        case Claiming => ClaimOwned(s, t, p, next, k);
      }
    }
  }

  // ----------------------------------------------------------------- The actor

  /** An actor that still owns its row settles or parks it and stops being busy. */
  lemma DriveOwned(s: State, r: RunRef, o: Outcome, k: Key)
    requires Consistent(s) && Owned(s, k) && Enabled(s, ActorDrives(r, o)) && s.runs[r].key == k
    ensures Owned(DriveStep(s, r, o), k)
  {
    var t := DriveStep(s, r, o);
    DriveShape(s, r, o);
    assert ActorOk(s, r, s.actors[r]);
    assert Busy(s, r);
    if LosesRow(s, k, o) {
      ActorAddsNothing(s, ActorDrives(r, o), k);
      KeptRowStaysOwned(s, t, k);
    } else {
      assert Leased(s, k, r);
      forall q | q in t.calls && t.calls[q].key == k && (t.calls[q].place.Pinning? || t.calls[q].place.RollingBack?)
        ensures Fresh(t, t.calls[q])
      {
        assert Fresh(s, s.calls[q]);
      }
      forall x: RunRef | Busy(t, x) && t.runs[x].key == k ensures false {
        assert Busy(s, x);
        NotBusyAfterDriving(s, t, r);
      }
    }
  }

  lemma NotBusyAfterDriving(s: State, t: State, r: RunRef)
    requires Consistent(s) && r in s.actors && s.actors[r].Driving?
    requires t.runs == s.runs && t.calls == s.calls && r in t.actors && !t.actors[r].Spawned? && !t.actors[r].Driving?
    ensures !Busy(t, r)
  {
    assert ActorOk(s, r, s.actors[r]) && RunOk(s, r);
  }

  lemma ActorRowKept(s: State, a: Action, k: Key)
    requires Enabled(s, a) && IsActor(a) && !(a.ActorDrives? && s.runs[a.run].key == k)
    ensures RowKept(s, Next(s, a), k)
  {
  }

  lemma ActorOwned(s: State, a: Action, k: Key)
    requires Consistent(s) && Owned(s, k) && Enabled(s, a) && IsActor(a)
    ensures Owned(Next(s, a), k)
  {
    if a.ActorDrives? && s.runs[a.run].key == k {
      DriveOwned(s, a.run, a.outcome, k);
    } else {
      ActorAddsNothing(s, a, k);
      ActorRowKept(s, a, k);
      KeptRowStaysOwned(s, Next(s, a), k);
    }
  }

  /** No busy run works on a row that another process may insert or update. */
  lemma PeerOwned(s: State, a: Action, k: Key)
    requires Owned(s, k) && Enabled(s, a) && (a.PeerInsert? || a.PeerUpdate?)
    ensures Owned(Next(s, a), k)
  {
    var t := Next(s, a);
    forall r: RunRef | Busy(t, r) && t.runs[r].key == k
      ensures Leased(t, k, r)
    {
      assert Busy(s, r);
    }
    forall r: RunRef, x: RunRef | Busy(t, r) && Busy(t, x) && t.runs[r].key == k && t.runs[x].key == k
      ensures r == x
    {
      assert Busy(s, r) && Busy(s, x);
    }
    forall p | p in t.calls && t.calls[p].key == k && (t.calls[p].place.Pinning? || t.calls[p].place.RollingBack?)
      ensures Fresh(t, t.calls[p])
    {
      assert Fresh(s, s.calls[p]);
    }
  }

  // -------------------------------------------------------------- The theorems

  lemma NextOwned(s: State, a: Action, k: Key)
    requires Consistent(s) && Owned(s, k) && Enabled(s, a) && a != DropRow(k)
    ensures Owned(Next(s, a), k)
  {
    if IsMove(a) {
      MovesMove(s, a);
      MovesKeepRow(s, a, k);
      MovesAddNothing(s, Next(s, a), a.pid, k);
      KeptRowStaysOwned(s, Next(s, a), k);
    } else if IsActor(a) {
      ActorOwned(s, a, k);
    } else {
      match a {
        case UseStorage(p, c) => StorageOwned(s, p, c, k);
        case Spawn(p) =>
          SpawnAddsNothing(s, p, k);
          KeptRowStaysOwned(s, SpawnStep(s, p), k);
        case SettleRow(_) => KeptRowStaysOwned(s, Next(s, a), k);
        case DropRow(_) => KeptRowStaysOwned(s, Next(s, a), k);
        case PeerInsert(_, _) => PeerOwned(s, a, k);
        case PeerUpdate(_, _) => PeerOwned(s, a, k);
      }
    }
  }

  lemma DropsStep(s: State, a: Action, k: Key)
    requires Enabled(s, a)
    ensures Drops(Next(s, a), k) == Drops(s, k) + if a == DropRow(k) then 1 else 0
  {
    if IsMove(a) {
      MovesMove(s, a);
    } else if IsActor(a) {
      ActorBooks(s, a, k);
    }
  }

  lemma {:induction false} RunsAreOwned(trace: seq<State>, i: nat, k: Key)
    requires IsRun(trace) && i < |trace| && Drops(trace[i], k) == 0
    ensures Owned(trace[i], k)
  {
    if i > 0 {
      DropsGrow(trace, i, k);
      RunsAreOwned(trace, i - 1, k);
      RunsAreConsistent(trace, i - 1);
      StepOwned(trace, i, k);
    } else {
      InitOwned(trace[0], k);
    }
  }

  lemma InitOwned(s: State, k: Key)
    requires Init(s)
    ensures Owned(s, k)
  {
  }

  lemma DropsGrow(trace: seq<State>, i: nat, k: Key)
    requires IsRun(trace) && 0 < i < |trace|
    ensures Drops(trace[i - 1], k) <= Drops(trace[i], k)
  {
    assert Steps(trace[i - 1], trace[i]);
    var a :| Enabled(trace[i - 1], a) && trace[i] == Next(trace[i - 1], a);
    DropsStep(trace[i - 1], a, k);
  }

  lemma StepOwned(trace: seq<State>, i: nat, k: Key)
    requires IsRun(trace) && 0 < i < |trace| && Drops(trace[i], k) == 0
    requires Consistent(trace[i - 1]) && Owned(trace[i - 1], k)
    ensures Owned(trace[i], k)
  {
    assert Steps(trace[i - 1], trace[i]);
    var a :| Enabled(trace[i - 1], a) && trace[i] == Next(trace[i - 1], a);
    DropsStep(trace[i - 1], a, k);
    NextOwned(trace[i - 1], a, k);
  }

  /** A run that is waiting to run or running, and was not poached, is live. */
  lemma BusyIsLive(s: State, r: RunRef)
    requires Consistent(s) && Busy(s, r) && r !in s.poached
    ensures s.Live(r)
  {
    assert RunOk(s, r);
    assert CallOk(s, s.runs[r].owner, s.calls[s.runs[r].owner]);
    assert r in s.actors ==> ActorOk(s, r, s.actors[r]);
  }

  /**
   As long as its row was not dropped, a run id never has two actors waiting to
   run or running, and the row such an actor works on carries its lease unless
   somebody settled it. Where it does have two, the row was dropped and one of
   the two runs was poached.
   */
  lemma OneActorPerRun(trace: seq<State>, i: nat, r: RunRef, x: RunRef)
    requires IsRun(trace) && i < |trace| && r < |trace[i].runs| && x < |trace[i].runs|
    requires trace[i].runs[r].key == trace[i].runs[x].key
    requires Busy(trace[i], r) && Busy(trace[i], x)
    ensures Drops(trace[i], trace[i].runs[r].key) == 0 ==> r == x && Leased(trace[i], trace[i].runs[r].key, r)
    ensures r != x ==> Drops(trace[i], trace[i].runs[r].key) > 0 && (r in trace[i].poached || x in trace[i].poached)
  {
    if Drops(trace[i], trace[i].runs[r].key) == 0 {
      RunsAreOwned(trace, i, trace[i].runs[r].key);
    }
    if r !in trace[i].poached && x !in trace[i].poached {
      RunsAreConsistent(trace, i);
      BusyIsLive(trace[i], r);
      BusyIsLive(trace[i], x);
      LiveRunsAreRegistered(trace, i, r);
      LiveRunsAreRegistered(trace, i, x);
    }
  }
}
