/**
 That the bounds are the best possible. A run id whose row is dropped, by
 retention or with its workflow, can be started again, so the bound on starts is
 attained for every number of starts and of rows other processes inserted. And
 dropping the row of a poached run lets a second actor start beside its own.
 */
module RunRestarts {
  import opened Common
  import opened RunLifecycle
  import opened RunExclusivity
  import opened RunPoaching
  import opened RunRows

  /** The books, the rows and the callers of `t` are those of `s`. */
  ghost predicate Alike(s: State, t: State, p: Pid, k: Key) {
    && t.Started(k) == s.Started(k) && Drops(t, k) == Drops(s, k) && PeerInserts(t, k) == PeerInserts(s, k)
    && t.poached == s.poached && (forall q | q in t.calls :: q in s.calls || q == p)
  }

  /** Call `p` stands at `at`, working on the reservation `r` of the key. */
  ghost predicate Holding(s: State, k: Key, p: Pid, r: RunRef, at: Place) {
    && p in s.calls && s.calls[p].place == at && s.calls[p].key == k && s.calls[p].run == Some(r)
    && r < |s.runs| && s.runs[r].key == k && k in s.active && s.active[k] == r
  }

  lemma Looks(s: State, k: Key, p: Pid) returns (t: State)
    requires Reachable(s, k) && p !in s.calls && k !in s.active && k !in s.rows
    ensures Reachable(t, k) && Alike(s, t, p, k) && k !in t.active && k !in t.rows
    ensures p in t.calls && t.calls[p] == Call(Registering, k, None, 0, false)
    ensures t.runs == s.runs && t.actors == s.actors
  {
    var call := Call(Looking, k, None, 0, false);
    Take(s, Enter(p, call), k);
    t := s.With(p, call);
    t := Consults(s, t, k, p, CheckingRow);
    t := Consults(s, t, k, p, Registering);
  }

  lemma Consults(s: State, now: State, k: Key, p: Pid, at: Place) returns (t: State)
    requires Reachable(now, k) && Alike(s, now, p, k) && k !in now.active && k !in now.rows && p in now.calls
    requires now.calls[p] == Call(if at.CheckingRow? then Looking else CheckingRow, k, None, 0, false)
    requires at.CheckingRow? || at.Registering?
    ensures Reachable(t, k) && Alike(s, t, p, k) && k !in t.active && k !in t.rows
    ensures p in t.calls && t.calls[p] == Call(at, k, None, 0, false)
    ensures t.runs == now.runs && t.actors == now.actors
  {
    Take(now, Consult(p, Succeeds), k);
    t := now.With(p, StartMove(now, now.calls[p], Succeeds));
  }

  lemma Registers(s: State, k: Key, p: Pid) returns (t: State, r: RunRef)
    requires Reachable(s, k) && k !in s.active && k !in s.rows
    requires p in s.calls && s.calls[p] == Call(Registering, k, None, 0, false)
    ensures Reachable(t, k) && Alike(s, t, p, k) && k !in t.rows && Holding(t, k, p, r, Inserting)
    ensures r == |s.runs| && t.runs[..r] == s.runs && t.actors == s.actors
  {
    Take(s, Register(p), k);
    t, r := Next(s, Register(p)), |s.runs|;
  }

  lemma Inserts(s: State, k: Key, p: Pid, r: RunRef) returns (t: State)
    requires Reachable(s, k) && k !in s.rows && Holding(s, k, p, r, Inserting)
    ensures Reachable(t, k) && Alike(s, t, p, k) && Holding(t, k, p, r, Pinning)
    ensures k in t.rows && t.rows[k].status.Executing? && t.runs == s.runs && t.actors == s.actors
  {
    Take(s, UseStorage(p, Succeeds), k);
    t := StorageStep(s, p, Succeeds);
  }

  lemma Pins(s: State, k: Key, p: Pid, r: RunRef) returns (t: State)
    requires Reachable(s, k) && Holding(s, k, p, r, Pinning) && k in s.rows && s.rows[k].status.Executing?
    ensures Reachable(t, k) && Alike(s, t, p, k) && Holding(t, k, p, r, Spawning)
    ensures k in t.rows && t.rows[k].status.Executing? && t.runs == s.runs && t.actors == s.actors
  {
    Take(s, UseStorage(p, Succeeds), k);
    t := StorageStep(s, p, Succeeds);
  }

  lemma Spawns(s: State, k: Key, p: Pid, r: RunRef) returns (t: State)
    requires Reachable(s, k) && Holding(s, k, p, r, Spawning) && k in s.rows && s.rows[k].status.Executing?
    ensures Reachable(t, k) && Holding(t, k, p, r, Admitting)
    ensures t.Started(k) == s.Started(k) + {p} && Drops(t, k) == Drops(s, k) && PeerInserts(t, k) == PeerInserts(s, k)
    ensures (forall q | q in t.calls :: q in s.calls) && t.poached == s.poached
    ensures t.runs == s.runs && t.actors == s.actors[r := Spawned]
    ensures k in t.rows && t.rows[k].status.Executing?
  {
    Take(s, Spawn(p), k);
    t := SpawnStep(s, p);
  }

  lemma Admits(s: State, k: Key, p: Pid, r: RunRef) returns (t: State)
    requires Reachable(s, k) && Holding(s, k, p, r, Admitting) && r in s.actors && s.actors[r].Spawned?
    ensures Reachable(t, k) && Alike(s, t, p, k) && Holding(t, k, p, r, Notifying)
    ensures r in t.actors && t.actors[r].Spawned? && t.rows == s.rows
  {
    Take(s, StoreRunning(p), k);
    t := Next(s, StoreRunning(p));
  }

  lemma Wakes(s: State, k: Key, p: Pid, r: RunRef) returns (t: State)
    requires Reachable(s, k) && Holding(s, k, p, r, Notifying) && r in s.actors && s.actors[r].Spawned?
    ensures Reachable(t, k) && Alike(s, t, p, k) && Holding(t, k, p, r, Releasing)
    ensures r in t.actors && t.actors[r].Spawned? && t.rows == s.rows
  {
    Take(s, Wake(p), k);
    t := Next(s, Wake(p));
  }

  /** The actor of `r` stands at `at`. */
  ghost predicate Acting(s: State, k: Key, r: RunRef, at: ActorPlace) {
    && r < |s.runs| && s.runs[r].key == k && k in s.active && s.active[k] == r
    && r in s.actors && s.actors[r] == at && k in s.rows
  }

  lemma Releases(s: State, k: Key, p: Pid, r: RunRef) returns (t: State)
    requires Reachable(s, k) && Holding(s, k, p, r, Releasing) && Acting(s, k, r, Spawned)
    ensures Reachable(t, k) && Alike(s, t, p, k) && Acting(t, k, r, Spawned) && t.runs[r].ready && t.rows == s.rows
  {
    Take(s, Release(p), k);
    t := Next(s, Release(p));
  }

  lemma Begins(s: State, k: Key, p: Pid, r: RunRef) returns (t: State)
    requires Reachable(s, k) && Acting(s, k, r, Spawned) && s.runs[r].ready
    ensures Reachable(t, k) && Alike(s, t, p, k) && Acting(t, k, r, Driving) && t.rows == s.rows
  {
    Take(s, ActorBegins(r), k);
    t := Next(s, ActorBegins(r));
  }

  lemma FinishesRun(s: State, k: Key, p: Pid, r: RunRef) returns (t: State)
    requires Reachable(s, k) && Acting(s, k, r, Driving) && s.rows[k].status.Executing?
    ensures Reachable(t, k) && Alike(s, t, p, k) && Acting(t, k, r, Closing)
  {
    Take(s, ActorDrives(r, Finishes), k);
    t := DriveStep(s, r, Finishes);
  }

  lemma Stores(s: State, k: Key, p: Pid, r: RunRef) returns (t: State)
    requires Reachable(s, k) && (Acting(s, k, r, Closing) || Acting(s, k, r, ActorStoring))
    ensures Reachable(t, k) && Alike(s, t, p, k)
    ensures Acting(t, k, r, if s.actors[r].Closing? then ActorStoring else ActorRemoving)
  {
    Take(s, ActorStores(r), k);
    t := Next(s, ActorStores(r));
  }

  lemma Deregisters(s: State, k: Key, p: Pid, r: RunRef) returns (t: State)
    requires Reachable(s, k) && Acting(s, k, r, ActorRemoving)
    ensures Reachable(t, k) && Alike(s, t, p, k) && k !in t.active && k in t.rows
  {
    Take(s, ActorDeregisters(r), k);
    t := Next(s, ActorDeregisters(r));
  }

  lemma Drop(s: State, k: Key) returns (t: State)
    requires Reachable(s, k) && k in s.rows && k !in s.active
    ensures Reachable(t, k) && k !in t.rows && k !in t.active && t.calls == s.calls
    ensures t.Started(k) == s.Started(k) && Drops(t, k) == Drops(s, k) + 1 && PeerInserts(t, k) == PeerInserts(s, k)
    ensures t.runs == s.runs && t.actors == s.actors && t.poached == s.poached
  {
    Take(s, DropRow(k), k);
    t := Next(s, DropRow(k));
  }

  /** A free key can be started by a new call. */
  lemma StartSucceeds(s: State, k: Key, p: Pid) returns (t: State, r: RunRef)
    requires Reachable(s, k) && p !in s.calls && k !in s.active && k !in s.rows
    ensures Reachable(t, k) && Holding(t, k, p, r, Admitting) && Acting(t, k, r, Spawned)
    ensures t.rows[k].status.Executing? && r == |s.runs| && t.runs[..r] == s.runs && t.actors == s.actors[r := Spawned]
    ensures t.Started(k) == s.Started(k) + {p} && Drops(t, k) == Drops(s, k) && PeerInserts(t, k) == PeerInserts(s, k)
    ensures t.poached == s.poached && forall q | q in t.calls :: q in s.calls || q == p
  {
    t := Looks(s, k, p);
    t, r := Registers(t, k, p);
    t := Inserts(t, k, p, r);
    t := Pins(t, k, p, r);
    t := Spawns(t, k, p, r);
  }

  /** A started run can end, leave ACTIVE and have its row dropped. */
  lemma RunEnds(s: State, k: Key, p: Pid, r: RunRef) returns (t: State)
    requires Reachable(s, k) && Holding(s, k, p, r, Admitting) && Acting(s, k, r, Spawned)
    requires s.rows[k].status.Executing?
    ensures Reachable(t, k) && k !in t.rows && k !in t.active
    ensures t.Started(k) == s.Started(k) && Drops(t, k) == Drops(s, k) + 1 && PeerInserts(t, k) == PeerInserts(s, k)
    ensures forall q | q in t.calls :: q in s.calls || q == p
  {
    t := Admits(s, k, p, r);
    t := Wakes(t, k, p, r);
    t := Releases(t, k, p, r);
    t := Begins(t, k, p, r);
    t := FinishesRun(t, k, p, r);
    t := Stores(t, k, p, r);
    t := Stores(t, k, p, r);
    t := Deregisters(t, k, p, r);
    t := Drop(t, k);
  }

  /** `n` calls each started the run, other processes inserted `peers` rows, and every row was dropped again. */
  ghost predicate Cycled(s: State, k: Key, n: nat, peers: nat) {
    && Reachable(s, k) && k !in s.active && k !in s.rows && (forall q | q in s.calls :: q < n)
    && |s.Started(k)| == n && (forall p | p in s.Started(k) :: p < n)
    && Drops(s, k) == n + peers && PeerInserts(s, k) == peers
  }

  lemma Nothing(k: Key) returns (s: State)
    ensures Cycled(s, k, 0, 0)
  {
    s := State([], map[], map[], map[], map[], {}, NO_BOOKS);
    assert IsRun([s]) && [s][|[s]| - 1] == s;
  }

  lemma OneMore(s: State, k: Key, n: nat, peers: nat) returns (t: State)
    requires Cycled(s, k, n, peers)
    ensures Cycled(t, k, n + 1, peers)
  {
    var r;
    t, r := StartSucceeds(s, k, n);
    t := RunEnds(t, k, n, r);
    assert |s.Started(k) + {n}| == n + 1;
  }

  lemma OneMorePeer(s: State, k: Key, n: nat, peers: nat) returns (t: State)
    requires Cycled(s, k, n, peers)
    ensures Cycled(t, k, n, peers + 1)
  {
    var row := Row(Executing, Foreign, None);
    Take(s, PeerInsert(k, row), k);
    t := Next(s, PeerInsert(k, row));
    t := Drop(t, k);
  }

  lemma {:induction false} StartsAndDrops(k: Key, n: nat, peers: nat) returns (s: State)
    ensures Cycled(s, k, n, peers)
    decreases n + peers
  {
    if n > 0 {
      s := StartsAndDrops(k, n - 1, peers);
      s := OneMore(s, k, n - 1, peers);
    } else if peers > 0 {
      s := StartsAndDrops(k, n, peers - 1);
      s := OneMorePeer(s, k, n, peers - 1);
    } else {
      s := Nothing(k);
    }
  }

  /**
   Any number of starts is possible, beside any number of other processes' rows,
   at the fewest drops the bound allows.
   */
  lemma BoundIsReached(k: Key, n: nat, peers: nat) returns (s: State)
    ensures Reachable(s, k) && |s.Started(k)| == n + 1 && PeerInserts(s, k) == peers
    ensures |s.Started(k)| + PeerInserts(s, k) == 1 + Drops(s, k)
  {
    var t := StartsAndDrops(k, n, peers);
    var r;
    s, r := StartSucceeds(t, k, n);
    assert |t.Started(k) + {n}| == n + 1;
  }

  /** Dropping the row of a run that is busy and not registered lets a second actor start beside it. */
  lemma SecondActor(s: State, k: Key, x: RunRef, p: Pid) returns (t: State, r: RunRef)
    requires Reachable(s, k) && k in s.rows && k !in s.active && p !in s.calls
    requires x < |s.runs| && s.runs[x].key == k && x in s.actors && s.actors[x].Spawned?
    ensures Reachable(t, k) && Drops(t, k) == Drops(s, k) + 1 && t.poached == s.poached
    ensures r != x && Busy(t, r) && Busy(t, x) && t.runs[r].key == t.runs[x].key == k
  {
    t := Drop(s, k);
    t, r := StartSucceeds(t, k, p);
    assert t.runs[x] == t.runs[..r][x];
  }

  /** So once the row of a poached run is dropped, its id can have two actors between spawn and end. */
  lemma TwoActors() returns (s: State, r: RunRef)
    ensures Reachable(s, KEY) && Drops(s, KEY) == 1 && 0 in s.poached
    ensures r != 0 && Busy(s, r) && Busy(s, 0) && s.runs[r].key == s.runs[0].key
  {
    DrivenIsReachable();
    s, r := SecondActor(Driven(Running, Notifying), KEY, 0, 2);
  }
}
