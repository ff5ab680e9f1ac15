/**
 What the registration theorem sets aside, and that it sets aside no more. A run
 is poached once a canceller sets out to unregister it while it is reserving or
 running. Such a run stays registered only as long as some call is still between
 deciding to unregister it and doing so; afterwards it is live and unregistered.

 It does happen. CancelRun looks a run up twice. If the run is registered between
 the two lookups, the canceller holds a reservation, reads its row as an orphaned
 running one, settles it and unregisters the reservation, and StartRun then
 stores RUNNING on a run that no lookup can find any more.
 */
module RunPoaching {
  import opened Common
  import opened RunLifecycle
  import opened RunRegistration

  /** The call is about to unregister the run. */
  predicate Grips(call: Call, r: RunRef) {
    (call.place.Storing? || call.place.Removing?) && call.run == Some(r)
  }

  ghost predicate Gripped(s: State, r: RunRef) {
    exists p :: p in s.calls && Grips(s.calls[p], r)
  }

  /** A poached run is registered only while some call is about to unregister it. */
  ghost predicate PoachedHeld(s: State) {
    forall r | r in s.poached && s.Current(r) :: Gripped(s, r)
  }

  /** No step registers a run that existed before it. */
  lemma NeverRegisteredAgain(s: State, a: Action, r: RunRef)
    requires Enabled(s, a) && r < |s.runs| && Next(s, a).Current(r)
    ensures s.Current(r)
  {
    if a.Register? || a.ReserveResume? {
      RegisteringOthers(s, a, r);
    }
  }

  lemma RegisteringOthers(s: State, a: Action, r: RunRef)
    requires Enabled(s, a) && (a.Register? || a.ReserveResume?) && r < |s.runs| && Next(s, a).Current(r)
    ensures s.Current(r)
  {
    var k := s.calls[a.pid].key;
    assert Next(s, a).active == s.active[k := |s.runs|];
    assert Next(s, a).runs[r].key == s.runs[r].key;
  }

  lemma NewlyPoached(s: State, a: Action, r: RunRef)
    requires Enabled(s, a) && r in Next(s, a).poached && r !in s.poached
    ensures Gripped(Next(s, a), r)
  {
    var t := Next(s, a);
    assert a.pid in t.calls && Grips(t.calls[a.pid], r);
  }

  /** A call lets go of a run only by removing its registration. */
  lemma GripStays(s: State, a: Action, p: Pid, r: RunRef)
    requires Enabled(s, a) && p in s.calls && Grips(s.calls[p], r) && Next(s, a).Current(r)
    ensures p in Next(s, a).calls && Grips(Next(s, a).calls[p], r)
  {
    if !IsStepOf(a, p) {
      OthersStay(s, a, p);
    } else {
      assert a == StoreTerminal(p) || a == Deregister(p);
    }
  }

  lemma NextHeld(s: State, a: Action)
    requires Consistent(s) && PoachedHeld(s) && Enabled(s, a)
    ensures PoachedHeld(Next(s, a))
  {
    var t := Next(s, a);
    forall r | r in t.poached && t.Current(r) ensures Gripped(t, r) {
      if r in s.poached {
        NeverRegisteredAgain(s, a, r);
        var p :| p in s.calls && Grips(s.calls[p], r);
        GripStays(s, a, p, r);
      } else {
        NewlyPoached(s, a, r);
      }
    }
  }

  lemma {:induction false} PoachedRunsAreHeld(trace: seq<State>, i: nat)
    requires IsRun(trace) && i < |trace|
    ensures PoachedHeld(trace[i])
  {
    if i > 0 {
      PoachedRunsAreHeld(trace, i - 1);
      RunsAreConsistent(trace, i - 1);
      assert Steps(trace[i - 1], trace[i - 1 + 1]);
      var a :| Enabled(trace[i - 1], a) && trace[i] == Next(trace[i - 1], a);
      NextHeld(trace[i - 1], a);
    }
  }

  /**
   A live run that no call is about to unregister is registered if and only if no
   canceller ever set out to unregister it while it was reserving or running.
   */
  lemma RegisteredExactly(trace: seq<State>, i: nat, r: RunRef)
    requires IsRun(trace) && i < |trace| && trace[i].Live(r) && !Gripped(trace[i], r)
    ensures trace[i].Current(r) <==> r !in trace[i].poached
  {
    PoachedRunsAreHeld(trace, i);
    if r !in trace[i].poached {
      LiveRunsAreRegistered(trace, i, r);
    }
  }

  // ------------------------------------------------- A run that loses its registration

  const KEY := Key("host", "/owner", "run")
  const NOTHING := State([], map[], map[], map[], map[], {}, NO_BOOKS)

  function Caller(at: Place): Call { Call(at, KEY, None, 0, false) }

  function Holder(at: Place): Call { Call(at, KEY, Some(0), 0, false) }

  function Reservation(phase: Phase, notified: nat): Run { Run(KEY, phase, 0, notified, false) }

  /** Before the reservation: call 0 is StartRun, call 1 is CancelRun. */
  function Calls(calls: map<Pid, Call>): State { NOTHING.(calls := calls) }

  /** After the reservation, still registered. */
  function Reserved(start: Place, cancel: Call): State {
    NOTHING.(runs := [Reservation(Reserving, 0)], active := map[KEY := 0],
               calls := map[0 := Holder(start), 1 := cancel])
  }

  /** After the insert, with the canceller holding the reservation. */
  function Inserted(row: Row, start: Place, cancel: Place): State {
    Reserved(start, Holder(cancel)).(rows := map[KEY := row], books := NO_BOOKS.(inserted := map[KEY := {0}]))
  }

  const PINNED := Row(Executing, Held(0), Some(0))
  const CANCELLED := Row(Settled, Held(0), Some(0))

  /** Once the canceller settled the row and set out to unregister the reservation. */
  function Poached(start: Place, cancel: Place): State {
    Inserted(CANCELLED, start, cancel).(poached := {0})
  }

  /** After the canceller unregistered the reservation. */
  function Lost(phase: Phase, start: Place): State {
    Poached(start, Answered).(runs := [Reservation(phase, 1)], active := map[])
  }

  lemma Arrive(s: State, a: Action, t: State)
    requires Reachable(s, KEY) && Enabled(s, a) && Next(s, a) == t
    ensures Reachable(t, KEY)
  {
    Take(s, a, KEY);
  }

  lemma LookUps()
    ensures Reachable(Calls(map[0 := Caller(Registering), 1 := Caller(CancelLookingAgain)]), KEY)
  {
    assert IsRun([NOTHING]);
    assert Reachable(NOTHING, KEY) by { assert [NOTHING][|[NOTHING]| - 1] == NOTHING; }
    Arrive(NOTHING, Enter(0, Caller(Looking)), Calls(map[0 := Caller(Looking)]));
    StartLooks();
    Arrive(Calls(map[0 := Caller(Registering)]), Enter(1, Caller(CancelLooking)),
           Calls(map[0 := Caller(Registering), 1 := Caller(CancelLooking)]));
    Arrive(Calls(map[0 := Caller(Registering), 1 := Caller(CancelLooking)]), Cancel(1, Succeeds),
           Calls(map[0 := Caller(Registering), 1 := Caller(CancelLookingAgain)]));
  }

  lemma StartLooks()
    requires Reachable(Calls(map[0 := Caller(Looking)]), KEY)
    ensures Reachable(Calls(map[0 := Caller(Registering)]), KEY)
  {
    Arrive(Calls(map[0 := Caller(Looking)]), Consult(0, Succeeds), Calls(map[0 := Caller(CheckingRow)]));
    Arrive(Calls(map[0 := Caller(CheckingRow)]), Consult(0, Succeeds), Calls(map[0 := Caller(Registering)]));
  }

  lemma StartRegisters()
    requires Reachable(Calls(map[0 := Caller(Registering), 1 := Caller(CancelLookingAgain)]), KEY)
    ensures Reachable(Reserved(Inserting, Caller(CancelLookingAgain)), KEY)
  {
    Arrive(Calls(map[0 := Caller(Registering), 1 := Caller(CancelLookingAgain)]), Register(0),
           Reserved(Inserting, Caller(CancelLookingAgain)));
  }

  lemma CancellerHolds()
    requires Reachable(Reserved(Inserting, Caller(CancelLookingAgain)), KEY)
    ensures Reachable(Reserved(Inserting, Holder(CancelReading)), KEY)
  {
    Arrive(Reserved(Inserting, Caller(CancelLookingAgain)), Cancel(1, Succeeds),
           Reserved(Inserting, Holder(CancelChecking)));
    Arrive(Reserved(Inserting, Holder(CancelChecking)), Cancel(1, Succeeds),
           Reserved(Inserting, Holder(CancelReading)));
  }

  lemma FirstJoin()
    ensures Joined(map[], KEY, 0) == map[KEY := {0}]
  {
    assert Members(map[], KEY) + {0} == {0};
  }

  const UNPINNED := Row(Executing, NoSnapshot, Some(0))

  lemma StartInserts()
    requires Reachable(Reserved(Inserting, Holder(CancelReading)), KEY)
    ensures Reachable(Inserted(UNPINNED, Pinning, CancelReading), KEY)
  {
    FirstJoin();
    Arrive(Reserved(Inserting, Holder(CancelReading)), UseStorage(0, Succeeds),
           Inserted(UNPINNED, Pinning, CancelReading));
  }

  lemma StartPins()
    requires Reachable(Inserted(UNPINNED, Pinning, CancelReading), KEY)
    ensures Reachable(Inserted(PINNED, Spawning, CancelReading), KEY)
  {
    Arrive(Inserted(UNPINNED, Pinning, CancelReading), UseStorage(0, Succeeds),
           Inserted(PINNED, Spawning, CancelReading));
  }

  lemma CancellerSettles()
    requires Reachable(Inserted(PINNED, Spawning, CancelReading), KEY)
    ensures Reachable(Poached(Spawning, Storing), KEY)
  {
    CancellerReads();
    Arrive(Inserted(PINNED, Spawning, CancelFinishing), Cancel(1, Succeeds), Poached(Spawning, Storing));
  }

  lemma CancellerReads()
    requires Reachable(Inserted(PINNED, Spawning, CancelReading), KEY)
    ensures Reachable(Inserted(PINNED, Spawning, CancelFinishing), KEY)
  {
    Arrive(Inserted(PINNED, Spawning, CancelReading), Cancel(1, Succeeds), Inserted(PINNED, Spawning, CancelFinishing));
  }

  /** Once the canceller stored the terminal phase. */
  function Retired(): State {
    Poached(Spawning, Removing).(runs := [Reservation(Terminal, 0)])
  }

  lemma CancellerStores()
    requires Reachable(Poached(Spawning, Storing), KEY)
    ensures Reachable(Retired(), KEY)
  {
    Arrive(Poached(Spawning, Storing), StoreTerminal(1), Retired());
  }

  lemma CancellerUnregisters()
    requires Reachable(Retired(), KEY)
    ensures Reachable(Lost(Terminal, Spawning), KEY)
  {
    Arrive(Retired(), Deregister(1), Lost(Terminal, Spawning));
  }

  /** And after StartRun went on regardless. */
  function Driven(phase: Phase, start: Place): State {
    Lost(phase, start).(actors := map[0 := Spawned], 
      books := Books(map[KEY := {0}], map[], map[KEY := {0}], map[], map[]))
  }

  lemma StartSpawns()
    requires Reachable(Lost(Terminal, Spawning), KEY)
    ensures Reachable(Driven(Terminal, Admitting), KEY)
  {
    FirstJoin();
    Arrive(Lost(Terminal, Spawning), Spawn(0), Driven(Terminal, Admitting));
  }

  lemma StartAdmits()
    requires Reachable(Driven(Terminal, Admitting), KEY)
    ensures Reachable(Driven(Running, Notifying), KEY)
  {
    Arrive(Driven(Terminal, Admitting), StoreRunning(0), Driven(Running, Notifying));
  }

  lemma DrivenIsReachable()
    ensures Reachable(Driven(Running, Notifying), KEY)
  {
    LookUps();
    StartRegisters();
    CancellerHolds();
    StartInserts();
    StartPins();
    CancellerSettles();
    CancellerStores();
    CancellerUnregisters();
    StartSpawns();
    StartAdmits();
  }

  /** A run can be executing and yet not be the one, or any one, that ACTIVE maps its key to. */
  lemma PoachedRunIsUnregistered()
    ensures exists s: State, r: RunRef ::
              Reachable(s, KEY) && r < |s.runs| && s.runs[r].phase.Running? && r in s.poached && !s.Current(r)
  {
    DrivenIsReachable();
    var s := Driven(Running, Notifying);
    assert Reachable(s, KEY) && s.runs[0].phase.Running? && 0 in s.poached && !s.Current(0);
  }
}
