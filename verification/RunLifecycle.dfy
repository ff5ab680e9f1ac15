/**
 The run lifecycle protocol of one module process as a step relation. Any number
 of StartRun, ResumeRun, CancelRun and parked-run sweep calls, and the actors
 they spawn, interleave; every step is one lock section, one atomic phase access,
 one storage operation or one notification. These steps merge what one call does
 in a row: `CancelReading` reads the row, its snapshot and the lease's run,
 `Failing` reads and settles the row, `Inserting` rechecks its workflow,
 `SweepLooking` looks the run up by its lease and then by its key, `ReadingPhase`
 loads the phase twice, and `CancelLooking` looks a run up and loads its phase
 twice. The last one decides freely, so it may pass over a run that the program
 would signal.

 Storage may misbehave as the program's document store can: an insert, a snapshot
 write or a claim may take effect and still report an error, a row may be settled
 by somebody else at any time, and a row may be dropped by retention or by the
 removal of its workflow. The storage may be shared: other processes insert rows
 of their own under the same ids and claim parked ones. A row is addressed by the
 same scoped id as the run.
 */
module RunLifecycle {
  import opened Common

  /** The owner's callback address together with the host-chosen run id. */
  datatype Key = Key(destination: string, objectPath: string, runId: string)

  datatype Phase = Reserving | Running | Parked | Terminal

  type RunRef = nat
  type Pid = nat

  /** `ready` is the one-shot signal an actor waits for; `notified` counts `notify_waiters` calls. */
  datatype Run = Run(key: Key, phase: Phase, owner: Pid, notified: nat, ready: bool)

  /** A row's status, every terminal one alike. */
  datatype Status = Executing | PendingApproval | Settled

  /** Whose lease the execution snapshot names; `Foreign` is a lease of another process. */
  datatype Lease = NoSnapshot | Foreign | Held(run: RunRef)

  /** `creator` is the reservation that inserted the row, `None` for a row found in storage. */
  datatype Row = Row(status: Status, lease: Lease, creator: Option<RunRef>)

  datatype Place =
    // StartRun
    | Looking | CheckingRow | Registering
    | Waiting | Ticketing | Arming | Sleeping | Rechecking | RecheckingRow | ReadingPhase
    | Inserting | Pinning | RollingBack | Failing | Spawning | Admitting | NotifyingFailure
    // ResumeRun
    | ReservingResume | Claiming | Resuming | SpawningResume
    // The end of both admissions
    | Notifying | Releasing
    // CancelRun
    | CancelLooking | CancelLookingAgain | CancelChecking | CancelReading | CancelFinishing
    // The sweeps
    | SweepLooking | SweepChecking
    // `unregister`: the phase store, then the lock section
    | Storing | Removing
    | Answered

  /**
   A call in progress: where it is, the run object it holds a reference to, the
   notification count it armed its wait with, and one remembered answer (whether
   the run it waited for is current, whether the row it read was parked, whether
   the snapshot was what failed).
   */
  datatype Call = Call(place: Place, key: Key, run: Option<RunRef>, ticket: nat, flag: bool)

  /** One spawned actor, from the ready signal to its own `unregister`. */
  datatype ActorPlace = Spawned | Driving | Parking | Closing | ActorStoring | ActorRemoving | Gone

  /**
   What the theorems count, per key: the calls that inserted, rolled back or
   started a run, how often its row was dropped and how often another process
   inserted one.
   */
  datatype Books = Books(
    inserted: map<Key, set<Pid>>,
    removed: map<Key, set<Pid>>,
    started: map<Key, set<Pid>>,
    dropped: map<Key, nat>,
    peers: map<Key, nat>)

  const NO_BOOKS := Books(map[], map[], map[], map[], map[])

  /**
   The process state, with what the theorems speak about: the runs a canceller
   set out to unregister while they were reserving or running, and the books.
   */
  datatype State = State(
    runs: seq<Run>,
    active: map<Key, RunRef>,
    rows: map<Key, Row>,
    calls: map<Pid, Call>,
    actors: map<RunRef, ActorPlace>,
    poached: set<RunRef>,
    books: Books)
  {
    predicate Current(r: RunRef) {
      r < |runs| && runs[r].key in active && active[runs[r].key] == r
    }

    predicate Live(r: RunRef) {
      r < |runs| && !runs[r].phase.Terminal?
    }

    function Phase(r: Option<RunRef>): Phase {
      if r.Some? && r.value < |runs| then runs[r.value].phase else Terminal
    }

    function Notified(r: Option<RunRef>): nat {
      if r.Some? && r.value < |runs| then runs[r.value].notified else 0
    }

    function Registered(k: Key): Option<RunRef> {
      if k in active then Some(active[k]) else None
    }

    function Inserted(k: Key): set<Pid> { Members(books.inserted, k) }

    function Removed(k: Key): set<Pid> { Members(books.removed, k) }

    function Started(k: Key): set<Pid> { Members(books.started, k) }

    function With(p: Pid, call: Call): State { this.(calls := calls[p := call]) }

    function Goto(p: Pid, call: Call, place: Place): State { With(p, call.(place := place)) }

    function WithPhase(r: RunRef, phase: Phase): State { this.(runs := SetPhase(runs, r, phase)) }

    function Notify(r: RunRef): State { this.(runs := AddNotice(runs, r)) }

    function Release(r: RunRef): State { this.(runs := SetReady(runs, r)) }

    function WithActor(r: RunRef, place: ActorPlace): State { this.(actors := actors[r := place]) }

    function WithRow(k: Key, row: Row): State { this.(rows := rows[k := row]) }

    /** The lock section of `unregister`: a run that is no longer the registered one removes nothing. */
    function Deregister(r: RunRef): State {
      this.(runs := if Current(r) then AddNotice(runs, r) else runs,
            active := if Current(r) then active - {runs[r].key} else active)
    }

    /** `reserve_resume` retires the parked registration it replaces; any other it respects. */
    function Displace(k: Key): State {
      this.(runs := if k in active then SetPhase(runs, active[k], Terminal) else runs)
    }

    /** A new reservation, installed under its key by the given call. */
    function Reserve(k: Key, p: Pid): State {
      this.(runs := runs + [Run(k, Reserving, p, 0, false)], active := active[k := |runs|])
    }
  }

  function SetPhase(runs: seq<Run>, r: RunRef, phase: Phase): seq<Run> {
    if r < |runs| then runs[r := runs[r].(phase := phase)] else runs
  }

  function AddNotice(runs: seq<Run>, r: RunRef): seq<Run> {
    if r < |runs| then runs[r := runs[r].(notified := runs[r].notified + 1)] else runs
  }

  function SetReady(runs: seq<Run>, r: RunRef): seq<Run> {
    if r < |runs| then runs[r := runs[r].(ready := true)] else runs
  }

  function Members(m: map<Key, set<Pid>>, k: Key): set<Pid> {
    if k in m then m[k] else {}
  }

  function Joined(m: map<Key, set<Pid>>, k: Key, p: Pid): map<Key, set<Pid>> {
    m[k := Members(m, k) + {p}]
  }

  function Drops(s: State, k: Key): nat {
    if k in s.books.dropped then s.books.dropped[k] else 0
  }

  function PeerInserts(s: State, k: Key): nat {
    if k in s.books.peers then s.books.peers[k] else 0
  }

  /**
   What another process on the same storage may make of a row: it pins and parks
   a row of its own and claims a parked one, but leaves one leased here alone. It
   settles rows and drops them like anybody else.
   */
  predicate PeerMay(before: Row, after: Row) {
    && after.creator == before.creator && !after.lease.Held? && (before.status.Settled? ==> after.status.Settled?)
    && (before.status.PendingApproval? || before.lease.Foreign? || (before.creator.None? && !before.lease.Held?))
  }

  /** What the protocol does not decide: whether storage fails, and whether it took effect all the same. */
  datatype Choice = Succeeds | Fails | FailsButTakesEffect

  /** How an actor's run ends. */
  datatype Outcome = Finishes | Parks | GivesUp

  datatype Action =
    | Enter(pid: Pid, call: Call)
    | Consult(pid: Pid, choice: Choice)
    | Register(pid: Pid)
    | UseStorage(pid: Pid, choice: Choice)
    | DeclineResume(pid: Pid)
    | ReserveResume(pid: Pid)
    | Spawn(pid: Pid)
    | StoreRunning(pid: Pid)
    | Wake(pid: Pid)
    | Release(pid: Pid)
    | Cancel(pid: Pid, choice: Choice)
    | StoreTerminal(pid: Pid)
    | Deregister(pid: Pid)
    | ActorBegins(run: RunRef)
    | ActorDrives(run: RunRef, outcome: Outcome)
    | ActorParks(run: RunRef, cancelled: bool)
    | ActorStores(run: RunRef)
    | ActorDeregisters(run: RunRef)
    | SettleRow(key: Key)
    | DropRow(key: Key)
    | PeerInsert(key: Key, row: Row)
    | PeerUpdate(key: Key, row: Row)

  predicate IsEntry(call: Call) {
    && (call.place.Looking? || call.place.ReservingResume? || call.place.CancelLooking? || call.place.SweepLooking?)
    && call.run.None?
  }

  predicate IsStart(at: Place) {
    at.Looking? || at.CheckingRow? || at.Registering? || at.Waiting? || at.Ticketing? || at.Arming? || at.Sleeping?
    || at.Rechecking? || at.RecheckingRow? || at.ReadingPhase?
  }

  predicate IsStorage(at: Place) {
    at.Inserting? || at.Pinning? || at.RollingBack? || at.Failing? || at.Claiming?
  }

  predicate IsCancel(at: Place) {
    at.CancelLooking? || at.CancelLookingAgain? || at.CancelChecking? || at.CancelReading? || at.CancelFinishing?
    || at.SweepLooking? || at.SweepChecking?
  }

  /** A sleeper goes on once its run was notified after it armed; an actor starts once it is released. */
  predicate Enabled(s: State, a: Action) {
    match a
    case Enter(p, call) => p !in s.calls && IsEntry(call)
    case Consult(p, _) =>
      && p in s.calls && IsStart(s.calls[p].place)
      && (s.calls[p].place.Registering? ==> s.calls[p].key in s.active)
      && (s.calls[p].place.Sleeping? ==> s.Notified(s.calls[p].run) > s.calls[p].ticket)
    case Register(p) => p in s.calls && s.calls[p].place.Registering? && s.calls[p].key !in s.active
    case UseStorage(p, _) => p in s.calls && IsStorage(s.calls[p].place)
    case DeclineResume(p) => p in s.calls && s.calls[p].place.ReservingResume?
    case ReserveResume(p) =>
      && p in s.calls && s.calls[p].place.ReservingResume?
      && (s.calls[p].key in s.active ==> s.Phase(s.Registered(s.calls[p].key)).Parked?)
    case Spawn(p) => p in s.calls && (s.calls[p].place.Spawning? || s.calls[p].place.SpawningResume?)
    case StoreRunning(p) => p in s.calls && (s.calls[p].place.Admitting? || s.calls[p].place.Resuming?)
    case Wake(p) => p in s.calls && (s.calls[p].place.Notifying? || s.calls[p].place.NotifyingFailure?)
    case Release(p) => p in s.calls && s.calls[p].place.Releasing?
    case Cancel(p, _) => p in s.calls && IsCancel(s.calls[p].place)
    case StoreTerminal(p) => p in s.calls && s.calls[p].place.Storing?
    case Deregister(p) => p in s.calls && s.calls[p].place.Removing?
    case ActorBegins(r) => r < |s.runs| && r in s.actors && s.actors[r].Spawned? && s.runs[r].ready
    case ActorDrives(r, _) => r < |s.runs| && r in s.actors && s.actors[r].Driving?
    case ActorParks(r, _) => r < |s.runs| && r in s.actors && s.actors[r].Parking?
    case ActorStores(r) => r < |s.runs| && r in s.actors && (s.actors[r].Closing? || s.actors[r].ActorStoring?)
    case ActorDeregisters(r) => r < |s.runs| && r in s.actors && s.actors[r].ActorRemoving?
    case SettleRow(k) => k in s.rows && !s.rows[k].status.Settled?
    case DropRow(k) => k in s.rows
    case PeerInsert(k, row) => k !in s.rows && row.creator.None? && !row.lease.Held?
    case PeerUpdate(k, row) => k in s.rows && PeerMay(s.rows[k], row)
  }

  function Next(s: State, a: Action): State
    requires Enabled(s, a)
  {
    match a
    case Enter(p, call) => s.With(p, call)
    case Consult(p, c) => s.With(p, StartMove(s, s.calls[p], c))
    case Register(p) =>
      s.Reserve(s.calls[p].key, p).With(p, s.calls[p].(place := Inserting, run := Some(|s.runs|)))
    case UseStorage(p, c) => StorageStep(s, p, c)
    case DeclineResume(p) => s.Goto(p, s.calls[p], Answered)
    case ReserveResume(p) =>
      s.Displace(s.calls[p].key).Reserve(s.calls[p].key, p)
       .With(p, s.calls[p].(place := Claiming, run := Some(|s.runs|)))
    case Spawn(p) => SpawnStep(s, p)
    case StoreRunning(p) =>
      s.WithPhase(Mine(s.calls[p]), Running)
       .Goto(p, s.calls[p], if s.calls[p].place.Admitting? then Notifying else SpawningResume)
    case Wake(p) =>
      s.Notify(Mine(s.calls[p]))
       .Goto(p, s.calls[p], if s.calls[p].place.Notifying? then Releasing else Answered)
    case Release(p) => s.Release(Mine(s.calls[p])).Goto(p, s.calls[p], Answered)
    case Cancel(p, c) => CancelStep(s, p, c)
    case StoreTerminal(p) => s.WithPhase(Mine(s.calls[p]), Terminal).Goto(p, s.calls[p], Removing)
    case Deregister(p) =>
      s.Deregister(Mine(s.calls[p]))
       .Goto(p, s.calls[p], if s.calls[p].flag then NotifyingFailure else Answered)
    case ActorBegins(r) => s.WithActor(r, Driving)
    case ActorDrives(r, o) => DriveStep(s, r, o)
    case ActorParks(r, cancelled) => s.WithPhase(r, Parked).WithActor(r, if cancelled then ActorStoring else Gone)
    case ActorStores(r) =>
      s.WithPhase(r, Terminal).WithActor(r, if s.actors[r].Closing? then ActorStoring else ActorRemoving)
    case ActorDeregisters(r) => s.Deregister(r).WithActor(r, Gone)
    case SettleRow(k) => s.WithRow(k, s.rows[k].(status := Settled))
    case DropRow(k) => 
      s.(rows := s.rows - {k}, books := s.books.(dropped := s.books.dropped[k := Drops(s, k) + 1]))
    case PeerInsert(k, row) => 
      s.WithRow(k, row).(books := s.books.(peers := s.books.peers[k := PeerInserts(s, k) + 1]))
    case PeerUpdate(k, row) => s.WithRow(k, row)
  }

  // ------------------------------------------------------------------ StartRun

  /** Where StartRun goes while it only looks: the admission loop and `wait_for_admission`. */
  function StartMove(s: State, call: Call, c: Choice): Call
    requires IsStart(call.place)
  {
    var k, phase := call.key, s.Phase(call.run);
    match call.place
    case Looking =>
      if k in s.active then call.(place := Waiting, run := s.Registered(k)) else call.(place := CheckingRow)
    case CheckingRow => call.(place := if k in s.rows || !c.Succeeds? then Answered else Registering)
    case Registering => call.(place := Waiting, run := s.Registered(k))
    case Waiting => call.(place := if phase.Reserving? then Ticketing else Rechecking)
    case Ticketing => call.(place := Arming, ticket := s.Notified(call.run))
    case Arming => call.(place := if phase.Reserving? then Sleeping else Rechecking)
    case Sleeping => call.(place := Rechecking)
    case Rechecking => call.(place := RecheckingRow, flag := s.Registered(k) == call.run)
    case RecheckingRow =>
      call.(place :=
        if !c.Succeeds? then Answered
        else if call.flag then (if k in s.rows && s.rows[k].status.Settled? then Answered else ReadingPhase)
        else if k in s.rows then Answered else Looking)
    case ReadingPhase => call.(place := if phase.Running? || phase.Parked? then Answered else Looking)
  }

  /** The reservation a call works on. */
  function Mine(call: Call): RunRef {
    if call.run.Some? then call.run.value else 0
  }

  // --------------------------------------------------- Storage during admission

  /** Whether the storage operation of an admission takes effect, and whether the call learns of it. */
  predicate Effective(s: State, call: Call, c: Choice) {
    var k := call.key;
    match call.place
    case Inserting => k !in s.rows && !c.Fails?
    case Pinning => k in s.rows && s.rows[k].status.Executing? && !c.Fails?
    case RollingBack => c.Succeeds? && k in s.rows && s.rows[k].status.Executing? && s.rows[k].lease.NoSnapshot?
    case Failing => c.Succeeds? && k in s.rows
    case Claiming => k in s.rows && s.rows[k].status.PendingApproval? && !c.Fails?
    case _ => false
  }

  function StorageRows(s: State, call: Call): map<Key, Row> {
    var k, r := call.key, Mine(call);
    if call.place.Inserting? then s.rows[k := Row(Executing, NoSnapshot, Some(r))]
    else if k !in s.rows then s.rows
    else
      match call.place
      case Pinning => s.rows[k := s.rows[k].(lease := Held(r))]
      case RollingBack => s.rows - {k}
      case Failing => s.rows[k := s.rows[k].(status := Settled)]
      case Claiming => s.rows[k := s.rows[k].(status := Executing, lease := Held(r))]
      case _ => s.rows
  }

  /** A failed admission goes on to unregister; a failed snapshot first tries to undo its row. */
  function StorageMove(call: Call, effective: bool, c: Choice): Call {
    match call.place
    case Inserting =>
      if effective && c.Succeeds? then call.(place := Pinning) else call.(place := Storing, flag := false)
    case Pinning => call.(place := if effective && c.Succeeds? then Spawning else RollingBack)
    case RollingBack => if effective then call.(place := Storing, flag := true) else call.(place := Failing)
    case Failing => call.(place := Storing, flag := true)
    case Claiming =>
      if effective && c.Succeeds? then call.(place := Resuming) else call.(place := Storing, flag := false)
    case _ => call
  }

  function StorageBooks(books: Books, call: Call, p: Pid): Books {
    match call.place
    case Inserting => books.(inserted := Joined(books.inserted, call.key, p))
    case RollingBack => books.(removed := Joined(books.removed, call.key, p))
    case _ => books
  }

  function StorageStep(s: State, p: Pid, c: Choice): State
    requires p in s.calls
  {
    var call := s.calls[p];
    var effective := Effective(s, call, c);
    s.(rows := if effective then StorageRows(s, call) else s.rows,
       books := if effective then StorageBooks(s.books, call, p) else s.books,
       calls := s.calls[p := StorageMove(call, effective, c)])
  }

  // ------------------------------------------------------------- Both admissions

  /** Only StartRun counts as a start. */
  function SpawnStep(s: State, p: Pid): State
    requires p in s.calls
  {
    var call := s.calls[p];
    s.(actors := s.actors[Mine(call) := Spawned],
       books := if call.place.Spawning? then s.books.(started := Joined(s.books.started, call.key, p)) else s.books,
       calls := s.calls[p := call.(place := if call.place.Spawning? then Admitting else Notifying)])
  }

  // ------------------------------------------------------- CancelRun and sweeps

  /** The snapshot names a live run other than the one the canceller holds. */
  predicate LeasedElsewhere(s: State, k: Key, target: Option<RunRef>) {
    k in s.rows && s.rows[k].lease.Held? && s.Current(s.rows[k].lease.run) && target != Some(s.rows[k].lease.run)
  }

  /** A canceller or sweep unregisters the run it holds, if it holds one. */
  function Dismiss(call: Call): Call {
    if call.run.Some? then call.(place := Storing, flag := false) else call.(place := Answered)
  }

  /** Whether the canceller is the one to settle the row, from the status it read. */
  predicate Settles(s: State, call: Call, c: Choice) {
    && call.place.CancelFinishing? && !c.Fails? && call.key in s.rows && !s.rows[call.key].status.Settled?
    && (call.flag ==> s.rows[call.key].status.PendingApproval?)
  }

  /**
   A canceller's first lookup may miss a run it could have signalled: the map and
   the phase are read apart, so it is free to go on.
   */
  function CancelMove(s: State, call: Call, c: Choice): Call
    requires IsCancel(call.place)
  {
    var k, phase := call.key, s.Phase(call.run);
    match call.place
    case CancelLooking => call.(place := if c.Succeeds? && k in s.active then Answered else CancelLookingAgain)
    case CancelLookingAgain => call.(place := CancelChecking, run := s.Registered(k))
    case CancelChecking => call.(place := if phase.Running? then Answered else CancelReading)
    case CancelReading =>
      if !c.Succeeds? || k !in s.rows || LeasedElsewhere(s, k, call.run) then call.(place := Answered)
      else if s.rows[k].status.Settled? then Dismiss(call)
      else call.(place := CancelFinishing, flag := s.rows[k].status.PendingApproval?)
    case CancelFinishing => if Settles(s, call, c) && c.Succeeds? then Dismiss(call) else call.(place := Answered)
    case SweepLooking =>
      if k in s.active then call.(place := SweepChecking, run := s.Registered(k)) else call.(place := Answered)
    case SweepChecking => if phase.Parked? then Dismiss(call) else call.(place := Answered)
  }

  /** The canceller sets out to unregister a run that is still reserving or already running. */
  predicate Poaches(s: State, call: Call, c: Choice)
    requires IsCancel(call.place)
  {
    CancelMove(s, call, c).place.Storing? && (s.Phase(call.run).Reserving? || s.Phase(call.run).Running?)
  }

  function CancelStep(s: State, p: Pid, c: Choice): State
    requires p in s.calls && IsCancel(s.calls[p].place)
  {
    var call := s.calls[p];
    s.(rows := if Settles(s, call, c) then s.rows[call.key := s.rows[call.key].(status := Settled)] else s.rows,
       poached := if Poaches(s, call, c) then s.poached + {Mine(call)} else s.poached,
       calls := s.calls[p := CancelMove(s, call, c)])
  }

  // -------------------------------------------------------------------- Actors

  /** The row was lost to somebody else, or the actor could not settle it. */
  predicate LosesRow(s: State, k: Key, o: Outcome) {
    o.GivesUp? || k !in s.rows || s.rows[k].status.Settled?
  }

  /** Settles the row, parks it, or finds that it lost the row and gives up. */
  function DriveStep(s: State, r: RunRef, o: Outcome): State
    requires r < |s.runs|
  {
    var k := s.runs[r].key;
    s.(rows := if LosesRow(s, k, o) then s.rows
               else s.rows[k := s.rows[k].(status := if o.Finishes? then Settled else PendingApproval)],
       actors := s.actors[r := if LosesRow(s, k, o) then ActorStoring else if o.Finishes? then Closing else Parking])
  }

  ghost predicate Init(s: State) {
    && s.runs == [] && s.active == map[] && s.calls == map[] && s.actors == map[] && s.poached == {}
    && s.books == NO_BOOKS
    && forall k | k in s.rows :: s.rows[k].creator.None? && !s.rows[k].lease.Held?
  }

  ghost predicate Steps(s: State, t: State) {
    exists a :: Enabled(s, a) && t == Next(s, a)
  }

  ghost predicate IsRun(trace: seq<State>) {
    && |trace| > 0 && Init(trace[0])
    && forall i, j {:trigger Steps(trace[i], trace[j])} | 0 <= i && j == i + 1 < |trace| :: Steps(trace[i], trace[j])
  }

  // ------------------------------------------------------------- Whose step it is

  /** The action is a step of the call `p`. */
  predicate IsStepOf(a: Action, p: Pid) {
    match a
    case ActorBegins(_) => false
    case ActorDrives(_, _) => false
    case ActorParks(_, _) => false
    case ActorStores(_) => false
    case ActorDeregisters(_) => false
    case SettleRow(_) => false
    case DropRow(_) => false
    case PeerInsert(_, _) => false
    case PeerUpdate(_, _) => false
    case _ => a.pid == p
  }

  lemma OthersStay(s: State, a: Action, p: Pid)
    requires Enabled(s, a) && p in s.calls && !IsStepOf(a, p)
    ensures p in Next(s, a).calls && Next(s, a).calls[p] == s.calls[p]
  {
  }

  // -------------------------------------------------------------- Reachable states

  /** Reachable in a process whose storage held no row for the key at first. */
  ghost predicate Reachable(s: State, k: Key) {
    exists trace: seq<State> :: IsRun(trace) && k !in trace[0].rows && trace[|trace| - 1] == s
  }

  lemma Take(s: State, a: Action, k: Key)
    requires Reachable(s, k) && Enabled(s, a)
    ensures Reachable(Next(s, a), k)
  {
    var trace: seq<State> :| IsRun(trace) && k !in trace[0].rows && trace[|trace| - 1] == s;
    Extend(trace, a);
    var longer := trace + [Next(s, a)];
    assert longer[|longer| - 1] == Next(s, a) && longer[0] == trace[0];
  }

  lemma Extend(trace: seq<State>, a: Action)
    requires IsRun(trace) && Enabled(trace[|trace| - 1], a)
    ensures IsRun(trace + [Next(trace[|trace| - 1], a)])
  {
    var t := Next(trace[|trace| - 1], a);
    assert Steps(trace[|trace| - 1], t);
    var longer := trace + [t];
    forall i, j | 0 <= i && j == i + 1 < |longer|
      ensures Steps(longer[i], longer[j])
    {
      if j < |trace| {
        assert Steps(trace[i], trace[j]);
      }
    }
  }
}
