/**
 The lock sections over the process-wide map of active runs, as methods on the
 object that holds the map and the run objects. Each is the transition of the
 same name in the lifecycle protocol.
 */
module ActiveRuns {
  import opened Common
  import opened RunLifecycle

  class Registry {
    var runs: seq<Run>
    var active: map<Key, RunRef>

    /** Every entry refers to a run object made for its key. */
    ghost predicate Valid()
      reads this
    {
      forall k | k in active :: active[k] < |runs| && runs[active[k]].key == k
    }

    /** What the protocol sees of this object. */
    ghost function View(): State
      reads this
    {
      State(runs, active, map[], map[], map[], {}, NO_BOOKS)
    }

    constructor ()
      ensures Valid() && View().runs == [] && View().active == map[]
    {
      runs, active := [], map[];
    }

    /** Installs a new reservation, or answers with the run that holds the key. */
    method Register(key: Key, owner: Pid) returns (run: RunRef, created: bool)
      requires Valid()
      modifies this
      ensures Valid() && created == (key !in old(active))
      ensures created ==> run == |old(runs)| && View() == old(View()).Reserve(key, owner)
      ensures !created ==> run == old(active)[key] && View() == old(View())
    {
      if key in active {
        return active[key], false;
      }
      run := |runs|;
      runs := runs + [Run(key, Reserving, owner, 0, false)];
      active := active[key := run];
      created := true;
    }

    /** Retires a parked registration and takes its place; any other holder is left alone. */
    method ReserveResume(key: Key, owner: Pid) returns (run: Result<RunRef>)
      requires Valid()
      modifies this
      ensures Valid()
      ensures run.Ok? <==> (key in old(active) ==> old(runs)[old(active)[key]].phase.Parked?)
      ensures run.Ok? ==> run.value == |old(runs)| && View() == old(View()).Displace(key).Reserve(key, owner)
      ensures run.Err? ==> View() == old(View())
    {
      if key in active {
        var existing := active[key];
        if !runs[existing].phase.Parked? {
          return Err;
        }
        runs := runs[existing := runs[existing].(phase := Terminal)];
      }
      run := Ok(|runs|);
      active := active[key := |runs|];
      runs := runs + [Run(key, Reserving, owner, 0, false)];
    }

    /** A run that was displaced removes nothing and wakes nobody. */
    method Unregister(run: RunRef)
      requires Valid() && run < |runs|
      modifies this
      ensures Valid() && View() == old(View()).WithPhase(run, Terminal).Deregister(run)
      ensures !old(View()).Current(run) ==> active == old(active)
      ensures old(View()).Current(run) ==> active == old(active) - {old(runs)[run].key}
    {
      runs := runs[run := runs[run].(phase := Terminal)];
      var key := runs[run].key;
      if key in active && active[key] == run {
        active := active - {key};
        runs := runs[run := runs[run].(notified := runs[run].notified + 1)];
      }
    }
  }
}
