/**
 The admission handshake: nobody who waits for a reservation to be admitted waits
 for ever. A waiter loads the phase, takes its ticket, loads the phase again and
 goes to sleep; the call that owns the reservation notifies once it is decided.
 */
module RunWakeups {
  import opened Common
  import opened RunLifecycle
  import opened RunRegistration

  /**
   No wakeup is lost: a waiter asleep on a run that has not notified yet sleeps
   on the registered run, whose own call is still on its way to the notification.
   */
  lemma SleeperWillBeWoken(trace: seq<State>, i: nat, p: Pid)
    requires IsRun(trace) && i < |trace| && p in trace[i].calls && trace[i].calls[p].place.Sleeping?
    ensures var s, call := trace[i], trace[i].calls[p];
            call.run.Some? && call.run.value < |s.runs|
            && (var run := s.runs[call.run.value];
                || Enabled(s, Consult(p, Succeeds))
                || (s.Current(call.run.value) && run.owner in s.calls && Owes(s.calls[run.owner], call.run.value)))
  {
    RunsAreConsistent(trace, i);
    assert CallOk(trace[i], p, trace[i].calls[p]);
    assert RunOk(trace[i], trace[i].calls[p].run.value);
  }

  /** How many steps of its own a call is away from notifying the waiters of its reservation. */
  function Distance(at: Place): nat {
    match at
    case Inserting => 6
    case Pinning => 5
    case RollingBack => 4
    case Failing => 3
    case Spawning => 3
    case Admitting => 2
    case Claiming => 4
    case Resuming => 3
    case SpawningResume => 2
    case Storing => 2
    case Notifying => 1
    case Removing => 1
    case _ => 0
  }

  const MAX_DISTANCE := 6

  ghost predicate Closer(s: State, t: State, p: Pid, r: RunRef)
    requires p in s.calls
  {
    && r < |t.runs| && p in t.calls
    && (t.runs[r].notified > 0
        || (Owes(t.calls[p], r) && Distance(t.calls[p].place) < Distance(s.calls[p].place)))
  }

  lemma StorageAdvances(s: State, p: Pid, r: RunRef, c: Choice)
    requires p in s.calls && IsStorage(s.calls[p].place) && s.calls[p].run == Some(r) && r < |s.runs|
    ensures Closer(s, StorageStep(s, p, c), p, r)
  {
    StorageStepShape(s, p, c);
    StorageMoveShape(s.calls[p], Effective(s, s.calls[p], c), c);
    var next := StorageMove(s.calls[p], Effective(s, s.calls[p], c), c);
    assert Distance(next.place) < Distance(s.calls[p].place);
  }

  lemma SpawnAdvances(s: State, p: Pid, r: RunRef)
    requires p in s.calls && s.calls[p].run == Some(r) && r < |s.runs|
    requires s.calls[p].place.Spawning? || s.calls[p].place.SpawningResume?
    ensures Enabled(s, Spawn(p)) && Closer(s, Next(s, Spawn(p)), p, r)
  {
  }

  lemma RunningAdvances(s: State, p: Pid, r: RunRef)
    requires p in s.calls && s.calls[p].run == Some(r) && r < |s.runs|
    requires s.calls[p].place.Admitting? || s.calls[p].place.Resuming?
    ensures Enabled(s, StoreRunning(p)) && Closer(s, Next(s, StoreRunning(p)), p, r)
  {
  }

  lemma TerminalAdvances(s: State, p: Pid, r: RunRef)
    requires p in s.calls && s.calls[p].run == Some(r) && r < |s.runs| && s.calls[p].place.Storing?
    ensures Enabled(s, StoreTerminal(p)) && Closer(s, Next(s, StoreTerminal(p)), p, r)
  {
  }

  lemma NotificationArrives(s: State, p: Pid, r: RunRef)
    requires p in s.calls && s.calls[p].run == Some(r) && s.Current(r)
    requires s.calls[p].place.Notifying? || s.calls[p].place.Removing?
    ensures var a := if s.calls[p].place.Notifying? then Wake(p) else Deregister(p);
            Enabled(s, a) && Next(s, a).runs[r].notified > 0
  {
  }

  /** The step a call that owes a notification takes next, with the answer storage gives it. */
  function OwnStep(at: Place, p: Pid, c: Choice): Action {
    if IsStorage(at) then UseStorage(p, c)
    else if at.Spawning? || at.SpawningResume? then Spawn(p)
    else if at.Admitting? || at.Resuming? then StoreRunning(p)
    else if at.Storing? then StoreTerminal(p)
    else if at.Notifying? then Wake(p)
    else Deregister(p)
  }

  /**
   And it gets there by itself: its next step is enabled whatever others do, and
   whatever storage answers it either notifies or brings the call strictly closer.
   */
  lemma OwnerAdvances(s: State, p: Pid, r: RunRef, c: Choice)
    requires Consistent(s) && p in s.calls && Owes(s.calls[p], r)
    requires r < |s.runs| && s.runs[r].owner == p && s.runs[r].notified == 0
    ensures Enabled(s, OwnStep(s.calls[p].place, p, c)) && Closer(s, Next(s, OwnStep(s.calls[p].place, p, c)), p, r)
  {
    var at := s.calls[p].place;
    if IsStorage(at) {
      StorageAdvances(s, p, r, c);
    } else if at.Spawning? || at.SpawningResume? {
      SpawnAdvances(s, p, r);
    } else if at.Admitting? || at.Resuming? {
      RunningAdvances(s, p, r);
    } else if at.Storing? {
      TerminalAdvances(s, p, r);
    } else {
      assert RunOk(s, r);
      NotificationArrives(s, p, r);
    }
  }

  /** It has no other step to take. */
  lemma OnlyOwnStep(s: State, a: Action, p: Pid, r: RunRef)
    requires Enabled(s, a) && IsStepOf(a, p) && p in s.calls && Owes(s.calls[p], r)
    ensures a == OwnStep(s.calls[p].place, p, if a.UseStorage? then a.choice else Succeeds)
  {
  }

  /** Runs keep their owner, and notifications are never taken back. */
  lemma RunsStay(s: State, a: Action, r: RunRef)
    requires Enabled(s, a) && r < |s.runs|
    ensures var t := Next(s, a);
            r < |t.runs| && t.runs[r].owner == s.runs[r].owner && t.runs[r].notified >= s.runs[r].notified
  {
  }

  // ----------------------------------------------------------- Whole executions

  ghost predicate Takes(s: State, a: Action, t: State) {
    Enabled(s, a) && t == Next(s, a)
  }

  /** The run of the protocol in which these actions are taken. */
  ghost predicate IsScript(trace: seq<State>, script: seq<Action>) {
    && |trace| == |script| + 1 && Init(trace[0])
    && forall i, j {:trigger Takes(trace[i], script[i], trace[j])} | 0 <= i && j == i + 1 < |trace| ::
         Takes(trace[i], script[i], trace[j])
  }

  lemma ScriptIsRun(trace: seq<State>, script: seq<Action>)
    requires IsScript(trace, script)
    ensures IsRun(trace)
  {
    forall i, j | 0 <= i && j == i + 1 < |trace|
      ensures Steps(trace[i], trace[j])
    {
      assert Takes(trace[i], script[i], trace[j]);
    }
  }

  /** How many of the steps are the call's own. */
  function StepsOf(script: seq<Action>, p: Pid): nat {
    if script == [] then 0
    else StepsOf(script[..|script| - 1], p) + if IsStepOf(script[|script| - 1], p) then 1 else 0
  }

  lemma StepsOfNext(script: seq<Action>, i: nat, j: nat, p: Pid)
    requires i < j <= |script|
    ensures StepsOf(script[i..j], p) == StepsOf(script[i..j - 1], p) + if IsStepOf(script[j - 1], p) then 1 else 0
  {
    assert script[i..j][..j - 1 - i] == script[i..j - 1];
  }

  /** The reservation has been notified, or its owner used its own steps to get closer. */
  ghost predicate OnItsWay(s: State, r: RunRef, p: Pid, taken: nat) {
    && r < |s.runs| && s.runs[r].owner == p && p in s.calls
    && (s.runs[r].notified > 0 || (Owes(s.calls[p], r) && Distance(s.calls[p].place) + taken <= MAX_DISTANCE))
  }

  lemma StepOnItsWay(s: State, a: Action, t: State, r: RunRef, p: Pid, taken: nat)
    requires Consistent(s) && Takes(s, a, t) && OnItsWay(s, r, p, taken)
    ensures OnItsWay(t, r, p, taken + if IsStepOf(a, p) then 1 else 0)
  {
    RunsStay(s, a, r);
    if !IsStepOf(a, p) {
      OthersStay(s, a, p);
    } else if s.runs[r].notified == 0 {
      OnlyOwnStep(s, a, p, r);
      OwnerAdvances(s, p, r, if a.UseStorage? then a.choice else Succeeds);
    } else {
      StepsKeepCalls(s, a, p);
    }
  }

  lemma StepsKeepCalls(s: State, a: Action, p: Pid)
    requires Enabled(s, a) && p in s.calls
    ensures p in Next(s, a).calls
  {
  }

  lemma {:induction false} StaysOnItsWay(trace: seq<State>, script: seq<Action>, i: nat, j: nat, r: RunRef, p: Pid)
    requires IsScript(trace, script) && i <= j < |trace| && r < |trace[i].runs| && trace[i].runs[r].owner == p
    ensures OnItsWay(trace[j], r, p, StepsOf(script[i..j], p))
  {
    ScriptIsRun(trace, script);
    if i == j {
      StartsOnItsWay(trace, i, r);
    } else {
      StaysOnItsWay(trace, script, i, j - 1, r, p);
      RunsAreConsistent(trace, j - 1);
      StepsOfNext(script, i, j, p);
      assert Takes(trace[j - 1], script[j - 1], trace[j]);
      StepOnItsWay(trace[j - 1], script[j - 1], trace[j], r, p, StepsOf(script[i..j - 1], p));
    }
  }

  lemma StartsOnItsWay(trace: seq<State>, i: nat, r: RunRef)
    requires IsRun(trace) && i < |trace| && r < |trace[i].runs|
    ensures OnItsWay(trace[i], r, trace[i].runs[r].owner, 0)
  {
    RunsAreConsistent(trace, i);
    assert RunOk(trace[i], r);
  }

  /**
   Six steps of its own, whatever storage answers and whatever all others do in
   between, take the owner of a reservation past the notification.
   */
  lemma OwnerNotifies(trace: seq<State>, script: seq<Action>, i: nat, j: nat, r: RunRef)
    requires IsScript(trace, script) && i <= j < |trace| && r < |trace[i].runs|
    requires StepsOf(script[i..j], trace[i].runs[r].owner) >= MAX_DISTANCE
    ensures r < |trace[j].runs| && trace[j].runs[r].notified > 0
  {
    StaysOnItsWay(trace, script, i, j, r, trace[i].runs[r].owner);
  }

  /** And then whoever sleeps on that reservation can wake. */
  lemma SleeperIsWoken(trace: seq<State>, script: seq<Action>, i: nat, j: nat, p: Pid, c: Choice)
    requires IsScript(trace, script) && i <= j < |trace|
    requires p in trace[j].calls && trace[j].calls[p].place.Sleeping?
    requires Mine(trace[j].calls[p]) < |trace[i].runs|
    requires StepsOf(script[i..j], trace[i].runs[Mine(trace[j].calls[p])].owner) >= MAX_DISTANCE
    ensures Enabled(trace[j], Consult(p, c))
  {
    ScriptIsRun(trace, script);
    RunsAreConsistent(trace, j);
    assert CallOk(trace[j], p, trace[j].calls[p]);
    OwnerNotifies(trace, script, i, j, Mine(trace[j].calls[p]));
  }
}
