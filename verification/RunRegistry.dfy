/**
 The process-wide registry of in-flight runs. A registration's number also names
 the cancellation token created with it. The number is drawn before the map is
 locked, so other registrations may come between the two.
 */
module RunRegistry {
  import opened Common

  datatype Guard = Guard(runId: string, number: nat)

  /** The map, the counter, the tripped tokens, the numbers drawn and not yet installed, the live guards. */
  datatype Registry = Registry(
    inFlight: map<string, nat>,
    next: nat,
    tripped: set<nat>,
    drawn: set<nat>,
    guards: set<Guard>)

  /** What happened: one atomic section of one call, together with how it answered. */
  datatype Event =
    | Drew
    | Registered(guard: Guard)
    | Reserved(guard: Guard)
    | Refused(runId: string)
    | Cancelled(runId: string)
    | Missed(runId: string)
    | Dropped(guard: Guard)

  const Fresh: Registry := Registry(map[], 1, {}, {}, {})

  predicate Can(r: Registry, event: Event) {
    match event
    case Drew => true
    case Registered(g) => g.number in r.drawn
    case Reserved(g) => g.runId !in r.inFlight && g.number == r.next
    case Refused(id) => id in r.inFlight
    case Cancelled(id) => id in r.inFlight
    case Missed(id) => id !in r.inFlight
    case Dropped(g) => g in r.guards
  }

  function After(r: Registry, event: Event): Registry
    requires Can(r, event)
  {
    match event
    case Drew => r.(next := r.next + 1, drawn := r.drawn + {r.next})
    case Registered(g) =>
      r.(inFlight := r.inFlight[g.runId := g.number], drawn := r.drawn - {g.number}, guards := r.guards + {g})
    case Reserved(g) =>
      r.(inFlight := r.inFlight[g.runId := g.number], next := r.next + 1, guards := r.guards + {g})
    case Refused(_) => r
    case Cancelled(id) => r.(tripped := r.tripped + {r.inFlight[id]})
    case Missed(_) => r
    case Dropped(g) =>
      r.(inFlight := if g.runId in r.inFlight && r.inFlight[g.runId] == g.number then r.inFlight - {g.runId}
                     else r.inFlight,
         guards := r.guards - {g})
  }

  // -------------------------------------------------------------- The registry

  class InFlightRuns {
    var inFlight: map<string, nat>
    var next: nat
    var tripped: set<nat>
    ghost var drawn: set<nat>
    ghost var guards: set<Guard>

    ghost function View(): Registry
      reads this
    {
      Registry(inFlight, next, tripped, drawn, guards)
    }

    constructor ()
      ensures View() == Fresh
    {
      inFlight, next, tripped, drawn, guards := map[], 1, {}, {}, {};
    }

    method DrawNumber() returns (number: nat)
      modifies this
      ensures number == old(next) && View() == After(old(View()), Drew)
    {
      number := next;
      next := next + 1;
      drawn := drawn + {number};
    }

    method Install(runId: string, number: nat) returns (guard: Guard)
      requires number in drawn
      modifies this
      ensures guard == Guard(runId, number) && View() == After(old(View()), Registered(guard))
    {
      guard := Guard(runId, number);
      inFlight := inFlight[runId := number];
      drawn := drawn - {number};
      guards := guards + {guard};
    }

    method TryRegister(runId: string) returns (guard: Option<Guard>)
      modifies this
      ensures guard.None? <==> runId in old(inFlight)
      ensures guard.None? ==> View() == After(old(View()), Refused(runId))
      ensures guard.Some? ==> guard.value.runId == runId && Can(old(View()), Reserved(guard.value))
      ensures guard.Some? ==> View() == After(old(View()), Reserved(guard.value))
    {
      if runId in inFlight {
        return None;
      }
      guard := Some(Guard(runId, next));
      inFlight := inFlight[runId := next];
      next := next + 1;
      guards := guards + {guard.value};
    }

    method Cancel(runId: string) returns (signalled: bool)
      modifies this
      ensures signalled == (runId in old(inFlight))
      ensures signalled ==> View() == After(old(View()), Cancelled(runId))
      ensures !signalled ==> View() == After(old(View()), Missed(runId))
    {
      signalled := runId in inFlight;
      if signalled {
        tripped := tripped + {inFlight[runId]};
      }
    }

    method DropGuard(guard: Guard)
      requires guard in guards
      modifies this
      ensures View() == After(old(View()), Dropped(guard))
    {
      if guard.runId in inFlight && inFlight[guard.runId] == guard.number {
        inFlight := inFlight - {guard.runId};
      }
      guards := guards - {guard};
    }
  }

  // ----------------------------------------------------------------- Histories

  ghost predicate Possible(history: seq<Event>)
    decreases |history|, 0
  {
    history == [] ||
    (var before, last := history[..|history| - 1], history[|history| - 1];
     Possible(before) && Can(Reached(before), last))
  }

  ghost function Reached(history: seq<Event>): Registry
    requires Possible(history)
    decreases |history|, 1
  {
    if history == [] then Fresh else After(Reached(history[..|history| - 1]), history[|history| - 1])
  }

  predicate Registers(event: Event, runId: string) {
    (event.Registered? || event.Reserved?) && event.guard.runId == runId
  }

  /** The guard of the most recent successful registration of a run id. */
  function Latest(history: seq<Event>, runId: string): Option<Guard> {
    if history == [] then None
    else if Registers(history[|history| - 1], runId) then Some(history[|history| - 1].guard)
    else Latest(history[..|history| - 1], runId)
  }

  /** The tokens of the registrations that were the latest when a cancel reached them. */
  function Signalled(history: seq<Event>): set<nat> {
    if history == [] then {}
    else
      var before, last := history[..|history| - 1], history[|history| - 1];
      Signalled(before) +
      (if last.Cancelled? && Latest(before, last.runId).Some? then {Latest(before, last.runId).value.number} else {})
  }

  /** A guard is live from its registration to its drop. */
  ghost predicate Undropped(history: seq<Event>, g: Guard) {
    (Registered(g) in history || Reserved(g) in history) && Dropped(g) !in history
  }

  /** Guards are numbered apart, and the map points at the live guard registered last. */
  ghost predicate Sound(history: seq<Event>, r: Registry) {
    && (forall g :: g in r.guards <==> Undropped(history, g))
    && (forall n | n in r.drawn :: n < r.next)
    && (forall g | Registered(g) in history || Reserved(g) in history || Dropped(g) in history ::
          g.number < r.next && g.number !in r.drawn)
  }

  lemma SoundStep(history: seq<Event>, event: Event, r: Registry)
    requires Sound(history, r) && Can(r, event)
    ensures Sound(history + [event], After(r, event))
  {
    var all, after := history + [event], After(r, event);
    forall g
      ensures g in after.guards <==> Undropped(all, g)
    {
      assert Registered(g) in all <==> Registered(g) in history || event == Registered(g);
      assert Reserved(g) in all <==> Reserved(g) in history || event == Reserved(g);
      assert Dropped(g) in all <==> Dropped(g) in history || event == Dropped(g);
    }
  }

  lemma {:induction false} HistoriesAreSound(history: seq<Event>)
    requires Possible(history)
    ensures Sound(history, Reached(history))
  {
    if history != [] {
      var before, last := history[..|history| - 1], history[|history| - 1];
      HistoriesAreSound(before);
      SoundStep(before, last, Reached(before));
      assert before + [last] == history;
    }
  }

  lemma {:induction false} LatestWasRegistered(history: seq<Event>, runId: string)
    requires Latest(history, runId).Some?
    ensures var g := Latest(history, runId).value;
            g.runId == runId && (Registered(g) in history || Reserved(g) in history)
  {
    if !Registers(history[|history| - 1], runId) {
      LatestWasRegistered(history[..|history| - 1], runId);
    }
  }

  /**
   After any history a run id is in flight exactly when the guard of its most
   recent successful registration is undropped, and then under that number.
   */
  lemma {:induction false} InFlightIsLatest(history: seq<Event>, runId: string)
    requires Possible(history)
    ensures var r, latest := Reached(history), Latest(history, runId);
            && (runId in r.inFlight <==> latest.Some? && Undropped(history, latest.value))
            && (runId in r.inFlight ==> r.inFlight[runId] == latest.value.number)
  {
    if history != [] {
      var before, last := history[..|history| - 1], history[|history| - 1];
      InFlightIsLatest(before, runId);
      HistoriesAreSound(before);
      HistoriesAreSound(history);
      assert history == before + [last];
      if Latest(before, runId).Some? {
        LatestWasRegistered(before, runId);
      }
    }
  }

  /** Every cancel trips the token of the latest registration of its run id, and nothing else is ever tripped. */
  lemma {:induction false} CancelTripsLatest(history: seq<Event>)
    requires Possible(history)
    ensures Reached(history).tripped == Signalled(history)
  {
    if history != [] {
      var before, last := history[..|history| - 1], history[|history| - 1];
      CancelTripsLatest(before);
      if last.Cancelled? {
        InFlightIsLatest(before, last.runId);
      }
    }
  }

  /** While an id is only ever reserved with `try_register`, at most one live guard exists for it. */
  lemma {:induction false} ReservedIdsHaveOneGuard(history: seq<Event>, g: Guard)
    requires Possible(history) && Undropped(history, g)
    requires forall h: Guard | h.runId == g.runId :: Registered(h) !in history
    ensures Latest(history, g.runId) == Some(g)
  {
    var before, last := history[..|history| - 1], history[|history| - 1];
    assert history == before + [last];
    if last != Reserved(g) {
      ReservedIdsHaveOneGuard(before, g);
      InFlightIsLatest(before, g.runId);
    }
  }
}
