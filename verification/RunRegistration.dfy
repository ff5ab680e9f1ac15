/**
 The ACTIVE map, the phases and the admission handshake, over every run of the
 protocol.
 */
module RunRegistration {
  import opened Common
  import opened RunLifecycle

  /** The call still has to store a phase on the reservation it made. */
  predicate Early(at: Place) {
    at.Inserting? || at.Pinning? || at.RollingBack? || at.Failing? || at.Spawning? || at.Admitting?
    || at.Claiming? || at.Resuming?
  }

  /** The call stored RUNNING and has not finished the handshake. */
  predicate Late(at: Place) {
    at.SpawningResume? || at.Notifying? || at.Releasing?
  }

  predicate Unregistering(at: Place) {
    at.Storing? || at.Removing? || at.NotifyingFailure?
  }

  predicate Waits(at: Place) {
    at.Waiting? || at.Ticketing? || at.Arming? || at.Sleeping?
  }

  /** The call has yet to notify the waiters of the reservation `r`. */
  predicate Owes(call: Call, r: RunRef) {
    && (Early(call.place) || call.place.SpawningResume? || call.place.Notifying? ||
        call.place.Storing? || call.place.Removing?)
    && call.run == Some(r)
  }

  /** Where the call that made the reservation `r` can be. */
  predicate Owning(call: Call, r: RunRef) {
    call.place.Answered?
    || ((Early(call.place) || Late(call.place) || Unregistering(call.place)) && call.run == Some(r))
  }

  /** Where the call that spawned an actor for `r` can be. */
  predicate Spawner(call: Call, r: RunRef) {
    call.place.Answered?
    || ((call.place.Admitting? || call.place.Notifying? || call.place.Releasing?) && call.run == Some(r))
  }

  /** Parked or terminal: past everything its own call and actor store while it is being driven. */
  predicate Quiet(phase: Phase) {
    phase.Parked? || phase.Terminal?
  }

  ghost predicate CallOk(s: State, p: Pid, call: Call) {
    && (call.run.Some? ==> call.run.value < |s.runs|)
    && (Early(call.place) || Late(call.place) || Unregistering(call.place) || Waits(call.place) ==> call.run.Some?)
    && (call.run.Some? ==>
          var r, at := call.run.value, call.place;
          var run := s.runs[r];
          && (Early(at) || Late(at) ==> run.owner == p && run.key == call.key)
          && (Early(at) && r !in s.poached ==> run.phase.Reserving?)
          && (Late(at) && r !in s.poached ==> run.phase.Running?)
          && (Late(at) || at.Removing? || at.NotifyingFailure? ==> !run.phase.Reserving?)
          && (at.Releasing? ==> run.notified > 0)
          && (at.Storing? && r !in s.poached ==> Quiet(run.phase) || (run.owner == p && run.phase.Reserving?))
          && (at.Removing? && r !in s.poached ==> run.phase.Terminal?)
          && (at.Arming? ==> call.ticket <= run.notified)
          && (at.Sleeping? ==> call.ticket == 0))
  }

  ghost predicate RunOk(s: State, r: RunRef)
    requires r < |s.runs|
  {
    var run := s.runs[r];
    && run.owner in s.calls && Owning(s.calls[run.owner], r)
    && (r !in s.poached && !run.phase.Terminal? ==> s.Current(r))
    && (run.notified == 0 ==> s.Current(r) && Owes(s.calls[run.owner], r))
    && (run.notified > 0 ==> !run.phase.Reserving?)
    && (run.phase.Parked? ==> run.notified > 0)
    && (run.ready ==> run.notified > 0 && s.calls[run.owner].place.Answered?)
  }

  ghost predicate ActorOk(s: State, r: RunRef, at: ActorPlace) {
    && r < |s.runs| && s.runs[r].owner in s.calls
    && Spawner(s.calls[s.runs[r].owner], r)
    && (s.calls[s.runs[r].owner].place.Answered? || !at.Spawned? ==> s.runs[r].ready)
    && (((at.Spawned? && s.runs[r].ready) || at.Driving? || at.Parking?) && r !in s.poached ==>
          s.runs[r].phase.Running?)
    && (at.ActorRemoving? && r !in s.poached ==> s.runs[r].phase.Terminal?)
  }

  ghost predicate Consistent(s: State) {
    && (forall p {:trigger CallOk(s, p, s.calls[p])} | p in s.calls :: CallOk(s, p, s.calls[p]))
    && (forall r {:trigger RunOk(s, r)} | 0 <= r < |s.runs| :: RunOk(s, r))
    && (forall r {:trigger ActorOk(s, r, s.actors[r])} | r in s.actors :: ActorOk(s, r, s.actors[r]))
    && (forall k | k in s.active :: s.active[k] < |s.runs| && s.runs[s.active[k]].key == k)
    && (forall r | r in s.poached :: r < |s.runs|)
  }

  // ------------------------------------------------- What one kind of step keeps

  /** Registration does not look at rows or at the bookkeeping of the theorems. */
  lemma OnlyRowsChange(s: State, t: State)
    requires Consistent(s)
    requires t.runs == s.runs && t.active == s.active && t.calls == s.calls && t.actors == s.actors
    requires t.poached == s.poached
    ensures Consistent(t)
  {
    forall p | p in t.calls ensures CallOk(t, p, t.calls[p]) {
      assert CallOk(s, p, s.calls[p]);
    }
    forall r | 0 <= r < |t.runs| ensures RunOk(t, r) {
      assert RunOk(s, r);
    }
    forall r | r in t.actors ensures ActorOk(t, r, t.actors[r]) {
      assert ActorOk(s, r, s.actors[r]);
    }
  }

  /** A call may move on if its own obligations allow the new place. */
  lemma Move(s: State, p: Pid, call: Call)
    requires Consistent(s) && CallOk(s, p, call)
    requires forall r | 0 <= r < |s.runs| && s.runs[r].owner == p ::
               && Owning(call, r) && (s.runs[r].notified == 0 ==> Owes(call, r))
               && (s.runs[r].ready ==> call.place.Answered?)
               && (r in s.actors ==> Spawner(call, r) && (call.place.Answered? ==> s.runs[r].ready))
    ensures Consistent(s.With(p, call))
  {
    var t := s.With(p, call);
    forall q | q in t.calls ensures CallOk(t, q, t.calls[q]) {
      assert q != p ==> CallOk(s, q, s.calls[q]);
    }
    forall r | 0 <= r < |t.runs| ensures RunOk(t, r) {
      assert RunOk(s, r);
    }
    forall r | r in t.actors ensures ActorOk(t, r, t.actors[r]) {
      assert ActorOk(s, r, s.actors[r]) && RunOk(s, r);
    }
  }

  /** A call that holds no reservation owns no run. */
  lemma Ownerless(s: State, p: Pid)
    requires Consistent(s)
    requires p in s.calls ==>
               var at := s.calls[p].place; !Early(at) && !Late(at) && !Unregistering(at) && !at.Answered?
    ensures forall r | 0 <= r < |s.runs| :: s.runs[r].owner != p
  {
    forall r | 0 <= r < |s.runs| ensures s.runs[r].owner != p {
      assert RunOk(s, r);
    }
  }

  /** A call in the middle of its reservation owns that one run only. */
  lemma OwnsOne(s: State, p: Pid)
    requires Consistent(s) && p in s.calls && !s.calls[p].place.Answered?
    ensures forall r | 0 <= r < |s.runs| && s.runs[r].owner == p :: s.calls[p].run == Some(r)
  {
    forall r | 0 <= r < |s.runs| && s.runs[r].owner == p ensures s.calls[p].run == Some(r) {
      assert RunOk(s, r);
    }
  }

  /** Nobody's next step relies on `r` being reserving or running. */
  ghost predicate Unrelied(s: State, r: RunRef) {
    && (forall p | p in s.calls && (Early(s.calls[p].place) || Late(s.calls[p].place)) :: s.calls[p].run != Some(r))
    && (r in s.actors ==> !s.actors[r].Spawned? && !s.actors[r].Driving? && !s.actors[r].Parking?)
  }

  lemma StoreTerminalKeeps(s: State, r: RunRef)
    requires Consistent(s) && r < |s.runs|
    requires r in s.poached || Unrelied(s, r)
    ensures Consistent(s.WithPhase(r, Terminal))
  {
    var t := s.WithPhase(r, Terminal);
    forall q | q in t.calls ensures CallOk(t, q, t.calls[q]) {
      assert CallOk(s, q, s.calls[q]);
    }
    forall x | 0 <= x < |t.runs| ensures RunOk(t, x) {
      assert RunOk(s, x);
    }
    forall x | x in t.actors ensures ActorOk(t, x, t.actors[x]) {
      assert ActorOk(s, x, s.actors[x]);
    }
  }

  /** A run whose phase is quiet, or whose own call is about to unregister it, is relied on by nobody. */
  lemma QuietIsUnrelied(s: State, p: Pid, r: RunRef)
    requires Consistent(s) && r < |s.runs| && r !in s.poached
    requires Quiet(s.runs[r].phase) || (p in s.calls && s.runs[r].owner == p && s.calls[p].place.Storing?)
    ensures Unrelied(s, r)
  {
    assert RunOk(s, r);
    forall q | q in s.calls && (Early(s.calls[q].place) || Late(s.calls[q].place)) ensures s.calls[q].run != Some(r) {
      assert CallOk(s, q, s.calls[q]);
    }
    assert r in s.actors ==> ActorOk(s, r, s.actors[r]);
  }

  /** Places where a call holds nothing that the registration depends on. */
  predicate Plain(at: Place) {
    !Early(at) && !Late(at) && !Unregistering(at) && !at.Ticketing? && !at.Arming? && !at.Sleeping?
  }

  /** A call that owns no run moves to a plain place. */
  lemma PlainMove(s: State, p: Pid, call: Call)
    requires Consistent(s) && p in s.calls
    requires var at := s.calls[p].place; !Early(at) && !Late(at) && !Unregistering(at) && !at.Answered?
    requires Plain(call.place) && (call.run == s.calls[p].run || call.run == s.Registered(call.key))
    requires call.place.Waiting? ==> call.run.Some?
    ensures Consistent(s.With(p, call))
  {
    Ownerless(s, p);
    assert CallOk(s, p, s.calls[p]);
    Move(s, p, call);
  }

  /** Where looking leads, and what a waiter has seen when it goes to sleep. */
  lemma StartMoveShape(s: State, call: Call, c: Choice)
    requires IsStart(call.place) && (call.place.Registering? ==> call.key in s.active)
    ensures var next := StartMove(s, call, c);
            && next.key == call.key
            && (IsStart(next.place) || next.place.Answered?)
            && (next.run == call.run || (next.place.Waiting? && next.run == s.Registered(call.key)))
            && (next.place.Waiting? ==> next.run.Some?)
            && (next.place.Ticketing? ==> call.place.Waiting?)
            && (next.place.Arming? ==> call.place.Ticketing? && next.ticket == s.Notified(next.run))
            && (next.place.Sleeping? ==>
                  && call.place.Arming? && next.run == call.run && next.ticket == call.ticket
                  && s.Phase(call.run).Reserving?)
  {
  }

  lemma ConsultMove(s: State, p: Pid, next: Call)
    requires Consistent(s) && p in s.calls && IsStart(s.calls[p].place)
    requires IsStart(next.place) || next.place.Answered?
    requires next.run == s.calls[p].run || (next.place.Waiting? && next.run == s.Registered(next.key))
    requires next.place.Waiting? ==> next.run.Some?
    requires next.place.Ticketing? ==> s.calls[p].place.Waiting?
    requires next.place.Arming? ==> s.calls[p].place.Ticketing? && next.ticket == s.Notified(next.run)
    requires next.place.Sleeping? ==>
               s.calls[p].place.Arming? && next.run == s.calls[p].run && next.ticket == s.calls[p].ticket
               && s.Phase(next.run).Reserving?
    ensures Consistent(s.With(p, next))
  {
    if Plain(next.place) {
      PlainMove(s, p, next);
    } else {
      WaitMove(s, p, next);
    }
  }

  /** No notification was sent to a run that is still reserving, so a sleeper's ticket is zero. */
  lemma WaitMove(s: State, p: Pid, next: Call)
    requires Consistent(s) && p in s.calls && IsStart(s.calls[p].place)
    requires next.run == s.calls[p].run
    requires || (next.place.Ticketing? && s.calls[p].place.Waiting?)
             || (next.place.Arming? && s.calls[p].place.Ticketing? && next.ticket == s.Notified(next.run))
             || (next.place.Sleeping? && s.calls[p].place.Arming?
                 && next.ticket == s.calls[p].ticket && s.Phase(next.run).Reserving?)
    ensures Consistent(s.With(p, next))
  {
    Ownerless(s, p);
    assert CallOk(s, p, next) by {
      assert CallOk(s, p, s.calls[p]);
      assert next.run.Some? ==> RunOk(s, next.run.value);
    }
    Move(s, p, next);
  }

  lemma ConsultKeeps(s: State, p: Pid, c: Choice)
    requires Consistent(s) && Enabled(s, Consult(p, c))
    ensures Consistent(s.With(p, StartMove(s, s.calls[p], c)))
  {
    StartMoveShape(s, s.calls[p], c);
    ConsultMove(s, p, StartMove(s, s.calls[p], c));
  }

  ghost predicate CanReserve(s: State, p: Pid, call: Call) {
    && Consistent(s) && p in s.calls
    && (call.key in s.active ==>
          s.runs[s.active[call.key]].phase.Terminal? && s.runs[s.active[call.key]].notified > 0)
    && (forall r | 0 <= r < |s.runs| :: s.runs[r].owner != p)
    && (call.place.Inserting? || call.place.Claiming?) && call.run == Some(|s.runs|)
  }

  lemma ReserveKeepsRuns(s: State, p: Pid, call: Call, r: RunRef)
    requires CanReserve(s, p, call) && r <= |s.runs|
    ensures RunOk(s.Reserve(call.key, p).With(p, call), r)
  {
    if r < |s.runs| {
      assert RunOk(s, r);
    }
  }

  /** Installing a new reservation, where the key is free or names a run already set to terminal. */
  lemma ReserveKeeps(s: State, p: Pid, call: Call)
    requires CanReserve(s, p, call)
    ensures Consistent(s.Reserve(call.key, p).With(p, call))
  {
    var t := s.Reserve(call.key, p).With(p, call);
    assert |s.runs| in s.actors ==> ActorOk(s, |s.runs|, s.actors[|s.runs|]);
    forall q | q in t.calls ensures CallOk(t, q, t.calls[q]) {
      assert q != p ==> CallOk(s, q, s.calls[q]);
    }
    forall r | 0 <= r < |t.runs| ensures RunOk(t, r) {
      ReserveKeepsRuns(s, p, call, r);
    }
    forall r | r in t.actors ensures ActorOk(t, r, t.actors[r]) {
      assert ActorOk(s, r, s.actors[r]);
    }
  }

  // ------------------------------------------------------------- The admission

  lemma StorageMoveShape(call: Call, effective: bool, c: Choice)
    requires IsStorage(call.place)
    ensures var next := StorageMove(call, effective, c);
            next.key == call.key && next.run == call.run &&
            (next.place.Storing? || (Early(next.place) && !next.place.Admitting?))
  {
  }

  /** A storage step of the admission: the reservation itself is not touched. */
  lemma StorageMoveKeeps(s: State, p: Pid, next: Call)
    requires Consistent(s) && p in s.calls && IsStorage(s.calls[p].place)
    requires next.key == s.calls[p].key && next.run == s.calls[p].run
    requires next.place.Storing? || (Early(next.place) && !next.place.Admitting?)
    ensures Consistent(s.With(p, next))
  {
    OwnsOne(s, p);
    assert CallOk(s, p, s.calls[p]) && RunOk(s, next.run.value);
    assert next.run.value in s.actors ==> ActorOk(s, next.run.value, s.actors[next.run.value]);
    Move(s, p, next);
  }

  lemma StorageStepShape(s: State, p: Pid, c: Choice)
    requires p in s.calls
    ensures var t := StorageStep(s, p, c);
            && t.runs == s.runs && t.active == s.active && t.actors == s.actors && t.poached == s.poached
            && t.calls == s.calls[p := StorageMove(s.calls[p], Effective(s, s.calls[p], c), c)]
  {
  }

  lemma UseStorageKeeps(s: State, p: Pid, c: Choice)
    requires Consistent(s) && p in s.calls && IsStorage(s.calls[p].place)
    ensures Consistent(StorageStep(s, p, c))
  {
    var next := StorageMove(s.calls[p], Effective(s, s.calls[p], c), c);
    StorageMoveShape(s.calls[p], Effective(s, s.calls[p], c), c);
    StorageMoveKeeps(s, p, next);
    StorageStepShape(s, p, c);
    OnlyRowsChange(s.With(p, next), StorageStep(s, p, c));
  }

  /** The call `p` stores RUNNING on its own reservation `r` and moves on to the late place `at`. */
  ghost predicate Admits(s: State, t: State, p: Pid, r: RunRef, at: Place) {
    && Consistent(s) && p in s.calls && (s.calls[p].place.Admitting? || s.calls[p].place.Resuming?)
    && s.calls[p].run == Some(r) && r < |s.runs|
    && (if s.calls[p].place.Admitting? then at.Notifying? else at.SpawningResume?)
    && t.runs == s.runs[r := s.runs[r].(phase := Running)]
    && t.active == s.active && t.actors == s.actors && t.poached == s.poached
    && t.calls == s.calls[p := s.calls[p].(place := at)]
  }

  lemma AdmitsCalls(s: State, t: State, p: Pid, r: RunRef, at: Place, q: Pid)
    requires Admits(s, t, p, r, at) && q in t.calls
    ensures CallOk(t, q, t.calls[q])
  {
    assert CallOk(s, p, s.calls[p]);
    assert CallOk(s, q, s.calls[q]);
  }

  lemma AdmitsRuns(s: State, t: State, p: Pid, r: RunRef, at: Place, x: RunRef)
    requires Admits(s, t, p, r, at) && x < |t.runs|
    ensures RunOk(t, x)
  {
    OwnsOne(s, p);
    assert CallOk(s, p, s.calls[p]);
    assert RunOk(s, x);
  }

  lemma AdmitsActors(s: State, t: State, p: Pid, r: RunRef, at: Place, x: RunRef)
    requires Admits(s, t, p, r, at) && x in t.actors
    ensures ActorOk(t, x, t.actors[x])
  {
    OwnsOne(s, p);
    assert CallOk(s, p, s.calls[p]);
    assert ActorOk(s, x, s.actors[x]) && RunOk(s, x);
  }

  /** Storing RUNNING on one's own reservation. */
  lemma StoreRunningKeeps(s: State, t: State, p: Pid, r: RunRef, at: Place)
    requires Admits(s, t, p, r, at)
    ensures Consistent(t)
  {
    forall q | q in t.calls ensures CallOk(t, q, t.calls[q]) {
      AdmitsCalls(s, t, p, r, at, q);
    }
    forall x | 0 <= x < |t.runs| ensures RunOk(t, x) {
      AdmitsRuns(s, t, p, r, at, x);
    }
    forall x | x in t.actors ensures ActorOk(t, x, t.actors[x]) {
      AdmitsActors(s, t, p, r, at, x);
    }
  }

  /** Waking the waiters of a run that has left RESERVING. */
  lemma NotifyKeeps(s: State, r: RunRef)
    requires Consistent(s) && r < |s.runs| && !s.runs[r].phase.Reserving?
    ensures Consistent(s.Notify(r))
  {
    var t := s.Notify(r);
    forall q | q in t.calls ensures CallOk(t, q, t.calls[q]) {
      assert CallOk(s, q, s.calls[q]);
    }
    forall x | 0 <= x < |t.runs| ensures RunOk(t, x) {
      assert RunOk(s, x);
    }
    forall x | x in t.actors ensures ActorOk(t, x, t.actors[x]) {
      assert ActorOk(s, x, s.actors[x]);
    }
  }

  lemma WakeKeeps(s: State, p: Pid)
    requires Consistent(s) && p in s.calls && (s.calls[p].place.Notifying? || s.calls[p].place.NotifyingFailure?)
    ensures Consistent(s.Notify(Mine(s.calls[p]))
                         .Goto(p, s.calls[p], if s.calls[p].place.Notifying? then Releasing else Answered))
  {
    var call, r := s.calls[p], Mine(s.calls[p]);
    OwnsOne(s, p);
    assert CallOk(s, p, call) && RunOk(s, r);
    assert r in s.actors ==> ActorOk(s, r, s.actors[r]);
    NotifyKeeps(s, r);
    Move(s.Notify(r), p, call.(place := if call.place.Notifying? then Releasing else Answered));
  }

  /** The one-shot signal, sent as the call answers. */
  lemma ReleaseKeeps(s: State, p: Pid)
    requires Consistent(s) && p in s.calls && s.calls[p].place.Releasing?
    ensures Consistent(s.Release(Mine(s.calls[p])).Goto(p, s.calls[p], Answered))
  {
    var r := Mine(s.calls[p]);
    var t := s.Release(r).Goto(p, s.calls[p], Answered);
    OwnsOne(s, p);
    assert CallOk(s, p, s.calls[p]);
    forall q | q in t.calls ensures CallOk(t, q, t.calls[q]) {
      assert CallOk(s, q, s.calls[q]);
    }
    forall x | 0 <= x < |t.runs| ensures RunOk(t, x) {
      assert RunOk(s, x);
    }
    forall x | x in t.actors ensures ActorOk(t, x, t.actors[x]) {
      assert ActorOk(s, x, s.actors[x]) && RunOk(s, x);
    }
  }

  lemma SpawnMove(s: State, t: State, p: Pid, r: RunRef, at: Place)
    requires Consistent(s) && p in s.calls && (s.calls[p].place.Spawning? || s.calls[p].place.SpawningResume?)
    requires s.calls[p].run == Some(r) && (if s.calls[p].place.Spawning? then at.Admitting? else at.Notifying?)
    requires t.runs == s.runs && t.active == s.active && t.poached == s.poached
    requires t.actors == s.actors[r := Spawned] && t.calls == s.calls[p := s.calls[p].(place := at)]
    ensures Consistent(t)
  {
    OwnsOne(s, p);
    assert CallOk(s, p, s.calls[p]) && RunOk(s, r);
    assert r in s.actors ==> ActorOk(s, r, s.actors[r]);
    forall q | q in t.calls ensures CallOk(t, q, t.calls[q]) {
      assert CallOk(s, q, s.calls[q]);
    }
    forall x | 0 <= x < |t.runs| ensures RunOk(t, x) {
      assert RunOk(s, x);
    }
    forall x | x in t.actors ensures ActorOk(t, x, t.actors[x]) {
      assert x != r ==> ActorOk(s, x, s.actors[x]);
    }
  }

  /** Spawning an actor for one's own reservation. */
  lemma SpawnKeeps(s: State, p: Pid)
    requires Consistent(s) && p in s.calls && (s.calls[p].place.Spawning? || s.calls[p].place.SpawningResume?)
    ensures Consistent(SpawnStep(s, p))
  {
    assert CallOk(s, p, s.calls[p]);
    SpawnMove(s, SpawnStep(s, p), p, Mine(s.calls[p]), if s.calls[p].place.Spawning? then Admitting else Notifying);
  }

  /** The parked registration a resume displaces is relied on by nobody any more. */
  lemma DisplaceKeeps(s: State, r: RunRef)
    requires Consistent(s) && r < |s.runs| && s.runs[r].phase.Parked?
    ensures Consistent(s.WithPhase(r, Terminal)) && s.runs[r].notified > 0
  {
    assert RunOk(s, r);
    if r !in s.poached {
      QuietIsUnrelied(s, 0, r);
    }
    StoreTerminalKeeps(s, r);
  }

  lemma ReserveResumeKeeps(s: State, p: Pid)
    requires Consistent(s) && Enabled(s, ReserveResume(p))
    ensures var k := s.calls[p].key;
            Consistent(s.Displace(k).Reserve(k, p).With(p, s.calls[p].(place := Claiming, run := Some(|s.runs|))))
  {
    var call := s.calls[p];
    if call.key in s.active {
      DisplaceKeeps(s, s.active[call.key]);
      assert s.Displace(call.key) == s.WithPhase(s.active[call.key], Terminal);
    } else {
      assert s.Displace(call.key) == s;
    }
    ReserveAfterDisplacing(s.Displace(call.key), p, call.(place := Claiming, run := Some(|s.runs|)));
  }

  lemma ReserveAfterDisplacing(s: State, p: Pid, call: Call)
    requires Consistent(s) && p in s.calls && s.calls[p].place.ReservingResume?
    requires call.key in s.active ==>
               s.runs[s.active[call.key]].phase.Terminal? && s.runs[s.active[call.key]].notified > 0
    requires call.place.Claiming? && call.run == Some(|s.runs|)
    ensures Consistent(s.Reserve(call.key, p).With(p, call))
  {
    Ownerless(s, p);
    ReserveKeeps(s, p, call);
  }

  // ------------------------------------------- Cancelling, sweeping, unregistering

  /** Marking a reservation as poached only weakens what is claimed of it. */
  lemma PoachKeeps(s: State, poached: set<RunRef>)
    requires Consistent(s) && s.poached <= poached && forall r | r in poached :: r < |s.runs|
    ensures Consistent(s.(poached := poached))
  {
    var t := s.(poached := poached);
    forall q | q in t.calls ensures CallOk(t, q, t.calls[q]) {
      assert CallOk(s, q, s.calls[q]);
    }
    forall x | 0 <= x < |t.runs| ensures RunOk(t, x) {
      assert RunOk(s, x);
    }
    forall x | x in t.actors ensures ActorOk(t, x, t.actors[x]) {
      assert ActorOk(s, x, s.actors[x]);
    }
  }

  /** Where a canceller or sweep goes, and what it has seen of the run it will unregister. */
  lemma CancelMoveShape(s: State, call: Call, c: Choice)
    requires IsCancel(call.place)
    ensures var next := CancelMove(s, call, c);
            && next.key == call.key && (next.run == call.run || next.run == s.Registered(call.key))
            && (IsCancel(next.place) || next.place.Answered? || (next.place.Storing? && next.run.Some?))
            && (next.place.CancelReading? ==> call.place.CancelChecking? && !s.Phase(call.run).Running?)
            && (next.place.CancelFinishing? ==> call.place.CancelReading?)
            && (next.place.CancelReading? || next.place.CancelFinishing? || next.place.Storing? ==>
                  next.run == call.run)
            && (next.place.Storing? ==>
                  || call.place.CancelReading? || call.place.CancelFinishing?
                  || (call.place.SweepChecking? && s.Phase(call.run).Parked?))
  {
  }

  lemma DismissMove(s: State, p: Pid, next: Call)
    requires Consistent(s) && p in s.calls && IsCancel(s.calls[p].place)
    requires next.run == s.calls[p].run
    requires next.place.Storing? && next.run.Some? && (next.run.value !in s.poached ==> Quiet(s.Phase(next.run)))
    ensures Consistent(s.With(p, next))
  {
    Ownerless(s, p);
    assert CallOk(s, p, s.calls[p]);
    assert CallOk(s, p, next);
    Move(s, p, next);
  }

  lemma PoachingMove(s: State, p: Pid, next: Call, poached: set<RunRef>)
    requires Consistent(s) && p in s.calls && IsCancel(s.calls[p].place)
    requires s.poached <= poached && (forall r | r in poached :: r < |s.runs|)
    requires next.run == s.calls[p].run || (next.run == s.Registered(next.key) && Plain(next.place))
    requires (Plain(next.place) && !next.place.Waiting?) || (next.place.Storing? && next.run.Some?)
    requires Plain(next.place) || (next.run.Some? && next.run.value !in poached ==> Quiet(s.Phase(next.run)))
    ensures Consistent(s.(poached := poached).With(p, next))
  {
    PoachKeeps(s, poached);
    if Plain(next.place) {
      PlainMove(s.(poached := poached), p, next);
    } else {
      DismissMove(s.(poached := poached), p, next);
    }
  }

  lemma CancelMoveKeeps(s: State, p: Pid, c: Choice, poached: set<RunRef>)
    requires Consistent(s) && p in s.calls && IsCancel(s.calls[p].place)
    requires poached == if Poaches(s, s.calls[p], c) then s.poached + {Mine(s.calls[p])} else s.poached
    ensures Consistent(s.(poached := poached).With(p, CancelMove(s, s.calls[p], c)))
  {
    var call, next := s.calls[p], CancelMove(s, s.calls[p], c);
    CancelMoveShape(s, call, c);
    assert next.place.Storing? && call.run.value !in poached ==> Quiet(s.Phase(call.run));
    assert call.run.Some? ==> call.run.value < |s.runs| by {
      assert CallOk(s, p, call);
    }
    PoachingMove(s, p, next, poached);
  }

  lemma CancelStepShape(s: State, p: Pid, c: Choice)
    requires p in s.calls && IsCancel(s.calls[p].place)
    ensures var t := CancelStep(s, p, c);
            && t.runs == s.runs && t.active == s.active && t.actors == s.actors
            && t.calls == s.calls[p := CancelMove(s, s.calls[p], c)]
            && t.poached == if Poaches(s, s.calls[p], c) then s.poached + {Mine(s.calls[p])} else s.poached
  {
  }

  lemma CancelKeeps(s: State, p: Pid, c: Choice)
    requires Consistent(s) && p in s.calls && IsCancel(s.calls[p].place)
    ensures Consistent(CancelStep(s, p, c))
  {
    var t := CancelStep(s, p, c);
    CancelStepShape(s, p, c);
    CancelMoveKeeps(s, p, c, t.poached);
    OnlyRowsChange(s.(poached := t.poached).With(p, CancelMove(s, s.calls[p], c)), t);
  }

  /** Taking a run out of the map; its waiters are woken in the same lock section. */
  lemma DeregisterKeeps(s: State, r: RunRef)
    requires Consistent(s) && r < |s.runs| && !s.runs[r].phase.Reserving?
    requires r !in s.poached ==> s.runs[r].phase.Terminal?
    ensures Consistent(s.Deregister(r))
    ensures s.Deregister(r).runs[r].notified > 0
    ensures var t := s.Deregister(r);
            t.calls == s.calls && t.actors == s.actors && |t.runs| == |s.runs|
  {
    assert RunOk(s, r);
    if s.Current(r) {
      NotifyKeeps(s, r);
      var n, t := s.Notify(r), s.Deregister(r);
      forall q | q in t.calls ensures CallOk(t, q, t.calls[q]) {
        assert CallOk(n, q, n.calls[q]);
      }
      forall x | 0 <= x < |t.runs| ensures RunOk(t, x) {
        assert RunOk(n, x);
      }
      forall x | x in t.actors ensures ActorOk(t, x, t.actors[x]) {
        assert ActorOk(n, x, n.actors[x]);
      }
    }
  }

  lemma StoringKeeps(s: State, p: Pid)
    requires Consistent(s) && p in s.calls && s.calls[p].place.Storing?
    ensures Consistent(s.WithPhase(Mine(s.calls[p]), Terminal).Goto(p, s.calls[p], Removing))
  {
    var call, r := s.calls[p], Mine(s.calls[p]);
    assert CallOk(s, p, call) && RunOk(s, r);
    if r !in s.poached {
      QuietIsUnrelied(s, p, r);
    }
    StoreTerminalKeeps(s, r);
    OwnsOne(s, p);
    assert r in s.actors ==> ActorOk(s, r, s.actors[r]);
    Move(s.WithPhase(r, Terminal), p, call.(place := Removing));
  }

  /** A call that has notified its waiters is done with the run it unregistered. */
  lemma RemovedMove(s: State, p: Pid, next: Call)
    requires Consistent(s) && p in s.calls && s.calls[p].place.Removing?
    requires next == s.calls[p].(place := if s.calls[p].flag then NotifyingFailure else Answered)
    requires Mine(next) < |s.runs| && s.runs[Mine(next)].notified > 0
    ensures Consistent(s.With(p, next))
  {
    OwnsOne(s, p);
    assert CallOk(s, p, s.calls[p]) && RunOk(s, Mine(next));
    assert Mine(next) in s.actors ==> ActorOk(s, Mine(next), s.actors[Mine(next)]);
    Move(s, p, next);
  }

  lemma RemovingKeeps(s: State, p: Pid)
    requires Consistent(s) && p in s.calls && s.calls[p].place.Removing?
    ensures Consistent(s.Deregister(Mine(s.calls[p]))
                        .Goto(p, s.calls[p], if s.calls[p].flag then NotifyingFailure else Answered))
  {
    var call := s.calls[p];
    assert CallOk(s, p, call);
    DeregisterKeeps(s, Mine(call));
    RemovedMove(s.Deregister(Mine(call)), p, call.(place := if call.flag then NotifyingFailure else Answered));
  }

  // ------------------------------------------------------------------ Actors

  lemma ActorMove(s: State, r: RunRef, at: ActorPlace)
    requires Consistent(s) && ActorOk(s, r, at)
    ensures Consistent(s.WithActor(r, at))
  {
    var t := s.WithActor(r, at);
    forall q | q in t.calls ensures CallOk(t, q, t.calls[q]) {
      assert CallOk(s, q, s.calls[q]);
    }
    forall x | 0 <= x < |t.runs| ensures RunOk(t, x) {
      assert RunOk(s, x);
    }
    forall x | x in t.actors ensures ActorOk(t, x, t.actors[x]) {
      assert x != r ==> ActorOk(s, x, s.actors[x]);
    }
  }

  /** Parking stores PARKED on a run that is running, or that a canceller interfered with. */
  lemma StoreParked(s: State, r: RunRef)
    requires Consistent(s) && r in s.actors && (s.actors[r].Gone? || s.actors[r].ActorStoring?)
    requires r < |s.runs| && (r !in s.poached ==> s.runs[r].phase.Running?)
    ensures Consistent(s.WithPhase(r, Parked))
  {
    var t := s.WithPhase(r, Parked);
    assert ActorOk(s, r, s.actors[r]) && RunOk(s, r);
    forall q | q in t.calls ensures CallOk(t, q, t.calls[q]) {
      assert CallOk(s, q, s.calls[q]);
    }
    forall x | 0 <= x < |t.runs| ensures RunOk(t, x) {
      assert RunOk(s, x);
    }
    forall x | x in t.actors ensures ActorOk(t, x, t.actors[x]) {
      assert ActorOk(s, x, s.actors[x]);
    }
  }

  lemma DriveShape(s: State, r: RunRef, o: Outcome)
    requires r < |s.runs|
    ensures var t := DriveStep(s, r, o);
            && t.runs == s.runs && t.active == s.active && t.calls == s.calls && t.poached == s.poached
            && r in t.actors && (t.actors[r].ActorStoring? || t.actors[r].Closing? || t.actors[r].Parking?)
            && t.actors == s.actors[r := t.actors[r]]
  {
  }

  lemma DriveKeeps(s: State, r: RunRef, o: Outcome)
    requires Consistent(s) && r in s.actors && r < |s.runs| && s.actors[r].Driving?
    ensures Consistent(DriveStep(s, r, o))
  {
    var t := DriveStep(s, r, o);
    DriveShape(s, r, o);
    assert ActorOk(s, r, s.actors[r]);
    ActorMove(s, r, t.actors[r]);
    OnlyRowsChange(s.WithActor(r, t.actors[r]), t);
  }

  /** An actor past its driving has nobody relying on its run. */
  lemma ActorUnrelied(s: State, r: RunRef)
    requires Consistent(s) && r in s.actors && (s.actors[r].Closing? || s.actors[r].ActorStoring?)
    ensures r < |s.runs| && Unrelied(s, r)
  {
    assert ActorOk(s, r, s.actors[r]) && RunOk(s, r);
    forall q | q in s.calls && (Early(s.calls[q].place) || Late(s.calls[q].place)) ensures s.calls[q].run != Some(r) {
      assert CallOk(s, q, s.calls[q]);
    }
  }

  lemma ParkingKeeps(s: State, r: RunRef, at: ActorPlace)
    requires Consistent(s) && r in s.actors && r < |s.runs| && s.actors[r].Parking?
    requires at.ActorStoring? || at.Gone?
    ensures Consistent(s.WithPhase(r, Parked).WithActor(r, at))
  {
    assert ActorOk(s, r, s.actors[r]);
    ActorMove(s, r, at);
    StoreParked(s.WithActor(r, at), r);
    assert s.WithActor(r, at).WithPhase(r, Parked) == s.WithPhase(r, Parked).WithActor(r, at);
  }

  lemma ActorStoresTerminal(s: State, r: RunRef, at: ActorPlace)
    requires Consistent(s) && r in s.actors && r < |s.runs| && (s.actors[r].Closing? || s.actors[r].ActorStoring?)
    requires at.ActorStoring? || at.ActorRemoving?
    ensures Consistent(s.WithPhase(r, Terminal).WithActor(r, at))
  {
    assert ActorOk(s, r, s.actors[r]);
    ActorUnrelied(s, r);
    StoreTerminalKeeps(s, r);
    ActorMove(s.WithPhase(r, Terminal), r, at);
  }

  lemma ActorDeregistersKeeps(s: State, r: RunRef)
    requires Consistent(s) && r in s.actors && r < |s.runs| && s.actors[r].ActorRemoving?
    ensures Consistent(s.Deregister(r).WithActor(r, Gone))
  {
    assert ActorOk(s, r, s.actors[r]) && RunOk(s, r);
    DeregisterKeeps(s, r);
    var t := s.Deregister(r);
    assert ActorOk(t, r, t.actors[r]);
    ActorMove(t, r, Gone);
  }

  lemma ActorKeeps(s: State, a: Action)
    requires Consistent(s) && Enabled(s, a)
    requires a.ActorBegins? || a.ActorDrives? || a.ActorParks? || a.ActorStores? || a.ActorDeregisters?
    ensures Consistent(Next(s, a))
  {
    match a {
      case ActorBegins(r) =>
        assert ActorOk(s, r, s.actors[r]);
        ActorMove(s, r, Driving);
      case ActorDrives(r, o) => DriveKeeps(s, r, o);
      case ActorParks(r, cancelled) => ParkingKeeps(s, r, if cancelled then ActorStoring else Gone);
      case ActorStores(r) => ActorStoresTerminal(s, r, if s.actors[r].Closing? then ActorStoring else ActorRemoving);
      case ActorDeregisters(r) => ActorDeregistersKeeps(s, r);
    }
  }

  // -------------------------------------------------------------- The theorems

  lemma EnterKeeps(s: State, p: Pid, call: Call)
    requires Consistent(s) && p !in s.calls && IsEntry(call)
    ensures Consistent(s.With(p, call))
  {
    Ownerless(s, p);
    Move(s, p, call);
  }

  lemma CallStepKeeps(s: State, a: Action)
    requires Consistent(s) && Enabled(s, a)
    requires a.Enter? || a.Consult? || a.Register? || a.UseStorage? || a.DeclineResume? || a.ReserveResume?
             || a.Spawn?
    ensures Consistent(Next(s, a))
  {
    match a {
      case Enter(p, call) => EnterKeeps(s, p, call);
      case Consult(p, c) => ConsultKeeps(s, p, c);
      case Register(p) =>
        Ownerless(s, p);
        ReserveKeeps(s, p, s.calls[p].(place := Inserting, run := Some(|s.runs|)));
      case UseStorage(p, c) => UseStorageKeeps(s, p, c);
      case DeclineResume(p) => PlainMove(s, p, s.calls[p].(place := Answered));
      case ReserveResume(p) => ReserveResumeKeeps(s, p);
      case Spawn(p) => SpawnKeeps(s, p);
    }
  }

  lemma RunStepKeeps(s: State, a: Action)
    requires Consistent(s) && Enabled(s, a)
    requires a.StoreRunning? || a.Wake? || a.Release? || a.StoreTerminal? || a.Deregister?
    ensures Consistent(Next(s, a))
  {
    match a {
      case StoreRunning(p) =>
        assert CallOk(s, p, s.calls[p]);
        StoreRunningKeeps(s, Next(s, a), p, Mine(s.calls[p]),
                          if s.calls[p].place.Admitting? then Notifying else SpawningResume);
      case Wake(p) => WakeKeeps(s, p);
      case Release(p) => ReleaseKeeps(s, p);
      case StoreTerminal(p) => StoringKeeps(s, p);
      case Deregister(p) => RemovingKeeps(s, p);
    }
  }

  lemma NextKeeps(s: State, a: Action)
    requires Consistent(s) && Enabled(s, a)
    ensures Consistent(Next(s, a))
  {
    match a {
      case Cancel(p, c) => CancelKeeps(s, p, c);
      case ActorBegins(_) => ActorKeeps(s, a);
      case ActorDrives(_, _) => ActorKeeps(s, a);
      case ActorParks(_, _) => ActorKeeps(s, a);
      case ActorStores(_) => ActorKeeps(s, a);
      case ActorDeregisters(_) => ActorKeeps(s, a);
      case SettleRow(k) => OnlyRowsChange(s, Next(s, a));
      case DropRow(k) => OnlyRowsChange(s, Next(s, a));
      case PeerInsert(_, _) => OnlyRowsChange(s, Next(s, a));
      case PeerUpdate(_, _) => OnlyRowsChange(s, Next(s, a));
      case StoreRunning(_) => RunStepKeeps(s, a);
      case Wake(_) => RunStepKeeps(s, a);
      case Release(_) => RunStepKeeps(s, a);
      case StoreTerminal(_) => RunStepKeeps(s, a);
      case Deregister(_) => RunStepKeeps(s, a);
      case _ => CallStepKeeps(s, a);
    }
  }

  lemma {:induction false} RunsAreConsistent(trace: seq<State>, i: nat)
    requires IsRun(trace) && i < |trace|
    ensures Consistent(trace[i])
  {
    if i > 0 {
      RunsAreConsistent(trace, i - 1);
      assert Steps(trace[i - 1], trace[i - 1 + 1]);
      var a :| Enabled(trace[i - 1], a) && trace[i] == Next(trace[i - 1], a);
      NextKeeps(trace[i - 1], a);
    }
  }

  /**
   Every reservation, running and parked run is the one ACTIVE maps its key to,
   unless a canceller set out to unregister it while it was reserving or running.
   */
  lemma LiveRunsAreRegistered(trace: seq<State>, i: nat, r: RunRef)
    requires IsRun(trace) && i < |trace| && r < |trace[i].runs|
    requires !trace[i].runs[r].phase.Terminal? && r !in trace[i].poached
    ensures trace[i].Current(r)
  {
    RunsAreConsistent(trace, i);
    assert RunOk(trace[i], r);
  }

  /** So two live runs of one key are one run, and unregistering any other leaves it in place. */
  lemma OneLiveRunPerKey(trace: seq<State>, i: nat, r: RunRef, x: RunRef)
    requires IsRun(trace) && i < |trace| && r < |trace[i].runs| && x < |trace[i].runs|
    requires !trace[i].runs[r].phase.Terminal? && r !in trace[i].poached && x != r
    ensures !trace[i].runs[x].phase.Terminal? && x !in trace[i].poached ==> trace[i].runs[x].key != trace[i].runs[r].key
    ensures trace[i].Deregister(x).Current(r)
  {
    LiveRunsAreRegistered(trace, i, r);
    if !trace[i].runs[x].phase.Terminal? && x !in trace[i].poached {
      LiveRunsAreRegistered(trace, i, x);
    }
  }
}
