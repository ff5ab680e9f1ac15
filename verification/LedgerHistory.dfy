/**
 What one ledger holds after any history of live batches and import batches.

 A history is flattened to single writes tagged with their source. Both batch
 operations are proved to be folds of one-write steps, so how a history is cut
 into batches never matters, and the final document is characterised without
 mentioning any step function: which identities it holds and in which order,
 which write each holds, and which identities are still marked as imported.
 */
module LedgerHistory {
  import opened Common
  import opened PendingWrites

  datatype Source = Live | Import

  datatype Event = Event(source: Source, write: PendingWrite) {
    function Identity(): Identity { write.Identity() }
  }

  function Step(body: WritesBody, e: Event): WritesBody {
    if e.source.Live? then LiveOne(body, e.write) else ImportOne(body, e.write)
  }

  function Replay(body: WritesBody, events: seq<Event>): WritesBody {
    if events == [] then body
    else Step(Replay(body, events[..|events| - 1]), events[|events| - 1])
  }

  function Tagged(source: Source, batch: seq<PendingWrite>): (events: seq<Event>)
    ensures |events| == |batch|
  {
    seq(|batch|, i requires 0 <= i < |batch| => Event(source, batch[i]))
  }

  datatype Operation = Operation(source: Source, batch: seq<PendingWrite>)

  /** One committed update of the document. */
  function Apply(body: WritesBody, op: Operation): WritesBody {
    if op.source.Live? then LiveBatch(body, op.batch) else ImportBatch(body, op.batch).body
  }

  function Run(body: WritesBody, history: seq<Operation>): WritesBody {
    if history == [] then body
    else Apply(Run(body, history[..|history| - 1]), history[|history| - 1])
  }

  function Flatten(history: seq<Operation>): seq<Event> {
    if history == [] then []
    else
      var op := history[|history| - 1];
      Flatten(history[..|history| - 1]) + Tagged(op.source, op.batch)
  }

  /** Only control identities are ever marked; old documents carry no marker at all. */
  predicate MarksControl(body: WritesBody) {
    forall id | id in body.imported :: id.1 < 0
  }

  // ----------------------------------------------- Batches are folds of steps

  lemma {:induction false} ReplayAppend(body: WritesBody, a: seq<Event>, b: seq<Event>)
    ensures Replay(body, a + b) == Replay(Replay(body, a), b)
  {
    if b == [] {
      assert a + b == a;
    } else {
      ReplayAppend(body, a, b[..|b| - 1]);
      assert (a + b)[..|a + b| - 1] == a + b[..|b| - 1];
    }
  }

  lemma {:induction false} LiveBatchIsReplay(body: WritesBody, batch: seq<PendingWrite>)
    requires MarksControl(body)
    ensures Replay(body, Tagged(Live, batch)) == LiveBatch(body, batch)
  {
    if batch != [] {
      var init, w := batch[..|batch| - 1], batch[|batch| - 1];
      LiveBatchIsReplay(body, init);
      assert Tagged(Live, batch)[..|init|] == Tagged(Live, init);
      assert batch == init + [w];
    }
  }

  function Writes(groups: seq<Group>): (ws: seq<PendingWrite>)
    ensures |ws| == |groups|
  {
    seq(|groups|, i requires 0 <= i < |groups| => groups[i].write)
  }

  function ImportAll(body: WritesBody, batch: seq<PendingWrite>): WritesBody {
    Replay(body, Tagged(Import, batch))
  }

  lemma ImportAllSnoc(body: WritesBody, batch: seq<PendingWrite>, w: PendingWrite)
    ensures ImportAll(body, batch + [w]) == ImportOne(ImportAll(body, batch), w)
  {
    assert Tagged(Import, batch + [w])[..|batch|] == Tagged(Import, batch);
  }

  lemma ImportGroupBody(acc: Imported, g: Group)
    requires g.count >= 1
    ensures ImportGroup(acc, g).body == ImportOne(acc.body, g.write)
  {
  }

  lemma {:induction false} ImportGroupsIsReplay(body: WritesBody, groups: seq<Group>)
    requires Counted(groups)
    ensures ImportGroups(body, groups).body == ImportAll(body, Writes(groups))
  {
    if groups != [] {
      var n := |groups| - 1;
      ImportGroupsIsReplay(body, groups[..n]);
      ImportGroupBody(ImportGroups(body, groups[..n]), groups[n]);
      ImportAllSnoc(body, Writes(groups[..n]), groups[n].write);
      assert Writes(groups) == Writes(groups[..n]) + [groups[n].write];
    }
  }

  /** A write whose identity is already held may be imported before or after any other one. */
  lemma ImportCommutes(body: WritesBody, w: PendingWrite, u: PendingWrite)
    requires Holds(body.writes, w.Identity()) && w.Identity() != u.Identity()
    ensures ImportOne(ImportOne(body, u), w) == ImportOne(ImportOne(body, w), u)
  {
    var wu, uw := ImportOne(ImportOne(body, w), u), ImportOne(ImportOne(body, u), w);
    HoldsIsMembership(body.writes, w.Identity());
    PositionAfterImport(body, w, u);
    PositionAfterImport(body, u, w);
    assert wu.writes == uw.writes;
  }

  lemma PositionUnique(writes: seq<PendingWrite>, id: Identity, p: nat)
    requires p <= |writes| && (p < |writes| ==> writes[p].Identity() == id)
    requires forall i | 0 <= i < p :: writes[i].Identity() != id
    ensures Position(writes, id) == p
  {
    var q := Position(writes, id);
    assert p <= q;
  }

  lemma HoldsIsMembership(writes: seq<PendingWrite>, id: Identity)
    ensures Holds(writes, id) <==> exists i | 0 <= i < |writes| :: writes[i].Identity() == id
  {
    if i :| 0 <= i < |writes| && writes[i].Identity() == id {
      assert Position(writes, id) <= i;
    }
  }

  /** Importing `u` leaves the place of every other identity that is held. */
  lemma PositionAfterImport(body: WritesBody, u: PendingWrite, w: PendingWrite)
    requires u.Identity() != w.Identity()
    ensures var p, after := Position(body.writes, w.Identity()), ImportOne(body, u).writes;
            Position(after, w.Identity()) == if p < |body.writes| then p else |after|
  {
    var p, after := Position(body.writes, w.Identity()), ImportOne(body, u).writes;
    PositionUnique(after, w.Identity(), if p < |body.writes| then p else |after|);
  }

  lemma {:induction false} ImportKeepsHeld(body: WritesBody, batch: seq<PendingWrite>, id: Identity)
    requires Holds(body.writes, id) || exists w | w in batch :: w.Identity() == id
    ensures Holds(ImportAll(body, batch).writes, id)
  {
    if batch != [] {
      var init, w := batch[..|batch| - 1], batch[|batch| - 1];
      ImportAllSnoc(body, init, w);
      assert batch == init + [w];
      var mid := ImportAll(body, init);
      HoldsIsMembership(mid.writes, id);
      HoldsIsMembership(ImportOne(mid, w).writes, id);
      if Holds(body.writes, id) || exists v | v in init :: v.Identity() == id {
        ImportKeepsHeld(body, init, id);
        var i :| 0 <= i < |mid.writes| && mid.writes[i].Identity() == id;
        assert ImportOne(mid, w).writes[i].Identity() == id;
      } else {
        assert w.Identity() == id;
        var p := Position(mid.writes, id);
        assert ImportOne(mid, w).writes[p].Identity() == id;
      }
    }
  }

  /** A held identity's import commutes past a whole run of other identities. */
  lemma {:induction false} ImportCommutesAll(body: WritesBody, w: PendingWrite, batch: seq<PendingWrite>)
    requires Holds(body.writes, w.Identity())
    requires forall u | u in batch :: u.Identity() != w.Identity()
    ensures ImportOne(ImportAll(body, batch), w) == ImportAll(ImportOne(body, w), batch)
  {
    if batch != [] {
      var init, u := batch[..|batch| - 1], batch[|batch| - 1];
      assert batch == init + [u];
      ImportCommutesAll(body, w, init);
      ImportKeepsHeld(body, init, w.Identity());
      ImportCommutes(ImportAll(body, init), w, u);
      ImportAllSnoc(body, init, u);
      ImportAllSnoc(ImportOne(body, w), init, u);
    }
  }

  lemma ImportSupersedes(body: WritesBody, v: PendingWrite, w: PendingWrite)
    requires v.Identity() == w.Identity() && w.IsControlPlane()
    ensures ImportOne(ImportOne(body, v), w) == ImportOne(body, w)
  {
    var p := Position(body.writes, w.Identity());
    PositionUnique(ImportOne(body, v).writes, w.Identity(), p);
  }

  lemma ImportAllAppend(body: WritesBody, a: seq<PendingWrite>, b: seq<PendingWrite>)
    ensures ImportAll(body, a + b) == ImportAll(ImportAll(body, a), b)
  {
    assert Tagged(Import, a + b) == Tagged(Import, a) + Tagged(Import, b);
    ReplayAppend(body, Tagged(Import, a), Tagged(Import, b));
  }

  /** Adding a write to a group is importing it after everything grouped so far. */
  lemma AddToGroupsIsImport(body: WritesBody, groups: seq<Group>, w: PendingWrite)
    requires Distinct(groups)
    ensures ImportAll(body, Writes(AddToGroups(groups, w))) == ImportOne(ImportAll(body, Writes(groups)), w)
  {
    var p := GroupPosition(groups, w.Identity());
    if p == |groups| {
      assert Writes(AddToGroups(groups, w)) == Writes(groups) + [w];
      ImportAllSnoc(body, Writes(groups), w);
    } else if !w.IsControlPlane() {
      assert Writes(AddToGroups(groups, w)) == Writes(groups);
      assert groups[p].write in Writes(groups) by { assert Writes(groups)[p] == groups[p].write; }
      ImportKeepsHeld(body, Writes(groups), w.Identity());
    } else {
      var front, v, back := Writes(groups)[..p], groups[p].write, Writes(groups)[p + 1..];
      var mid := ImportAll(body, front);
      assert Writes(groups) == front + [v] + back;
      assert Writes(AddToGroups(groups, w)) == front + [w] + back;
      ImportAllAppend(body, front + [v], back);
      ImportAllAppend(body, front + [w], back);
      ImportAllSnoc(body, front, v);
      ImportAllSnoc(body, front, w);
      ImportKeepsHeld(body, front + [v], w.Identity());
      ImportCommutesAll(ImportOne(mid, v), w, back);
      ImportSupersedes(mid, v, w);
    }
  }

  lemma {:induction false} GroupingPreservesImport(body: WritesBody, incoming: seq<PendingWrite>)
    ensures ImportAll(body, Writes(Grouped(incoming))) == ImportAll(body, incoming)
  {
    if incoming != [] {
      var init, w := incoming[..|incoming| - 1], incoming[|incoming| - 1];
      GroupingPreservesImport(body, init);
      GroupedIsDistinct(init);
      AddToGroupsIsImport(body, Grouped(init), w);
      ImportAllSnoc(body, init, w);
      assert incoming == init + [w];
    }
  }

  /** A grouped import leaves the ledger that importing its records one at a time leaves. */
  lemma ImportBatchIsReplay(body: WritesBody, incoming: seq<PendingWrite>)
    ensures ImportBatch(body, incoming).body == Replay(body, Tagged(Import, incoming))
  {
    GroupedIsCounted(incoming);
    ImportGroupsIsReplay(body, Grouped(incoming));
    GroupingPreservesImport(body, incoming);
  }

  /** How an import is cut into batches does not matter: same order, values and markers. */
  lemma ImportCutIndependent(body: WritesBody, a: seq<PendingWrite>, b: seq<PendingWrite>)
    ensures ImportBatch(body, a + b).body == ImportBatch(ImportBatch(body, a).body, b).body
  {
    ImportBatchIsReplay(body, a + b);
    ImportBatchIsReplay(body, a);
    ImportBatchIsReplay(ImportBatch(body, a).body, b);
    ImportAllAppend(body, a, b);
  }

  lemma {:induction false} ReplayMarksControl(body: WritesBody, events: seq<Event>)
    requires MarksControl(body)
    ensures MarksControl(Replay(body, events))
  {
    if events != [] {
      ReplayMarksControl(body, events[..|events| - 1]);
    }
  }

  lemma ApplyIsReplay(body: WritesBody, op: Operation)
    requires MarksControl(body)
    ensures Apply(body, op) == Replay(body, Tagged(op.source, op.batch))
  {
    if op.source.Live? {
      assert op.source == Live;
      LiveBatchIsReplay(body, op.batch);
    } else {
      assert op.source == Import;
      ImportBatchIsReplay(body, op.batch);
    }
  }

  /** Any history of batches equals the history of its single writes. */
  lemma {:induction false} RunIsReplay(body: WritesBody, history: seq<Operation>)
    requires MarksControl(body)
    ensures Run(body, history) == Replay(body, Flatten(history))
  {
    if history != [] {
      var init, op := history[..|history| - 1], history[|history| - 1];
      RunIsReplay(body, init);
      ReplayMarksControl(body, Flatten(init));
      ReplayAppend(body, Flatten(init), Tagged(op.source, op.batch));
      ApplyIsReplay(Run(body, init), op);
    }
  }

  // --------------------------------------------- What a ledger started empty holds

  /** The identities touched, in order of first touch. */
  function Order(events: seq<Event>): seq<Identity> {
    if events == [] then []
    else
      var before, id := Order(events[..|events| - 1]), events[|events| - 1].Identity();
      if id in before then before else before + [id]
  }

  function LastFrom(events: seq<Event>, source: Source, id: Identity): Option<PendingWrite> {
    if events == [] then None
    else
      var e := events[|events| - 1];
      if e.source == source && e.Identity() == id then Some(e.write)
      else LastFrom(events[..|events| - 1], source, id)
  }

  function First(events: seq<Event>, id: Identity): Option<PendingWrite> {
    if events == [] then None
    else
      var before := First(events[..|events| - 1], id);
      var e := events[|events| - 1];
      if before.None? && e.Identity() == id then Some(e.write) else before
  }

  /**
   The rule the ledger promises: a control identity holds the last live write if
   any live write ever touched it and the last imported one otherwise; a data
   identity holds the first write from either source.
   */
  function Expected(events: seq<Event>, id: Identity): Option<PendingWrite> {
    if id.1 >= 0 then First(events, id)
    else if LastFrom(events, Live, id).Some? then LastFrom(events, Live, id)
    else LastFrom(events, Import, id)
  }

  ghost predicate Characterised(body: WritesBody, events: seq<Event>) {
    && |body.writes| == |Order(events)|
    && (forall i | 0 <= i < |body.writes| ::
          && body.writes[i].Identity() == Order(events)[i]
          && Expected(events, Order(events)[i]) == Some(body.writes[i]))
    && (forall id :: id in body.imported <==>
          id.1 < 0 && id in Order(events) && LastFrom(events, Live, id).None?)
  }

  lemma {:induction false} OrderDistinct(events: seq<Event>)
    ensures forall i, j | 0 <= i < j < |Order(events)| :: Order(events)[i] != Order(events)[j]
  {
    if events != [] {
      OrderDistinct(events[..|events| - 1]);
    }
  }

  lemma {:induction false} OrderIsTouched(events: seq<Event>, id: Identity)
    ensures id in Order(events) <==> First(events, id).Some?
    ensures id in Order(events) <==>
              LastFrom(events, Live, id).Some? || LastFrom(events, Import, id).Some?
  {
    if events != [] {
      OrderIsTouched(events[..|events| - 1], id);
    }
  }

  lemma {:induction false} ReplayCharacterised(events: seq<Event>)
    ensures Characterised(Replay(EMPTY_BODY, events), events)
  {
    if events != [] {
      var init, e := events[..|events| - 1], events[|events| - 1];
      ReplayCharacterised(init);
      OrderDistinct(init);
      StepCharacterised(Replay(EMPTY_BODY, init), init, e);
      assert events == init + [e];
    }
  }

  lemma ExpectedOther(init: seq<Event>, e: Event, id: Identity)
    requires id != e.Identity()
    ensures Expected(init + [e], id) == Expected(init, id)
    ensures LastFrom(init + [e], Live, id) == LastFrom(init, Live, id)
    ensures id in Order(init + [e]) <==> id in Order(init)
  {
    assert (init + [e])[..|init|] == init;
  }

  lemma ExpectedOwn(init: seq<Event>, e: Event)
    ensures var id, events := e.Identity(), init + [e];
            && id in Order(events)
            && LastFrom(events, Live, id) == (if e.source.Live? then Some(e.write) else LastFrom(init, Live, id))
            && Expected(events, id)
               == (if id.1 >= 0 then (if First(init, id).Some? then First(init, id) else Some(e.write))
                   else if e.source.Import? && LastFrom(init, Live, id).Some? then LastFrom(init, Live, id)
                   else Some(e.write))
  {
    assert (init + [e])[..|init|] == init;
  }

  lemma OrderStep(init: seq<Event>, e: Event)
    ensures Order(init + [e]) == if e.Identity() in Order(init) then Order(init) else Order(init) + [e.Identity()]
  {
    assert (init + [e])[..|init|] == init;
  }

  lemma HeldIsOrdered(body: WritesBody, init: seq<Event>, id: Identity)
    requires Characterised(body, init)
    ensures Holds(body.writes, id) <==> id in Order(init)
  {
    HoldsIsMembership(body.writes, id);
    if id in Order(init) {
      var i :| 0 <= i < |Order(init)| && Order(init)[i] == id;
      assert body.writes[i].Identity() == id;
    }
  }

  /** Each identity's write stays, or becomes, the expected one. */
  lemma StepWrites(body: WritesBody, init: seq<Event>, e: Event, i: nat)
    requires Characterised(body, init) && i < |Step(body, e).writes|
    requires forall i, j | 0 <= i < j < |Order(init)| :: Order(init)[i] != Order(init)[j]
    ensures |Step(body, e).writes| == |Order(init + [e])|
    ensures Step(body, e).writes[i].Identity() == Order(init + [e])[i]
    ensures Expected(init + [e], Order(init + [e])[i]) == Some(Step(body, e).writes[i])
  {
    var p := Position(body.writes, e.Identity());
    HeldIsOrdered(body, init, e.Identity());
    OrderIsTouched(init, e.Identity());
    OrderStep(init, e);
    ExpectedOwn(init, e);
    if i < |body.writes| && i != p {
      assert Order(init)[i] != e.Identity();
      ExpectedOther(init, e, Order(init)[i]);
    }
  }

  lemma StepMarks(body: WritesBody, init: seq<Event>, e: Event, id: Identity)
    requires Characterised(body, init)
    ensures id in Step(body, e).imported <==>
              id.1 < 0 && id in Order(init + [e]) && LastFrom(init + [e], Live, id).None?
  {
    HeldIsOrdered(body, init, e.Identity());
    OrderIsTouched(init, e.Identity());
    if id == e.Identity() {
      ExpectedOwn(init, e);
    } else {
      ExpectedOther(init, e, id);
    }
  }

  lemma StepCharacterised(body: WritesBody, init: seq<Event>, e: Event)
    requires Characterised(body, init)
    requires forall i, j | 0 <= i < j < |Order(init)| :: Order(init)[i] != Order(init)[j]
    ensures Characterised(Step(body, e), init + [e])
  {
    var after, order := Step(body, e), Order(init + [e]);
    HeldIsOrdered(body, init, e.Identity());
    OrderStep(init, e);
    assert |after.writes| == |order|;
    forall i | 0 <= i < |after.writes|
      ensures after.writes[i].Identity() == order[i] && Expected(init + [e], order[i]) == Some(after.writes[i])
    {
      StepWrites(body, init, e, i);
    }
    forall id
      ensures id in after.imported <==> id.1 < 0 && id in order && LastFrom(init + [e], Live, id).None?
    {
      StepMarks(body, init, e, id);
    }
  }

  /**
   The ledger after any history of live and import batches from an empty
   document: identities unique and in first-touch order, each holding exactly
   the promised write, marked as imported exactly when it is a control identity
   no live write ever touched.
   */
  lemma LedgerAfterHistory(history: seq<Operation>)
    ensures Characterised(Run(EMPTY_BODY, history), Flatten(history))
    ensures forall i, j | 0 <= i < j < |Run(EMPTY_BODY, history).writes| ::
              Run(EMPTY_BODY, history).writes[i].Identity() != Run(EMPTY_BODY, history).writes[j].Identity()
  {
    RunIsReplay(EMPTY_BODY, history);
    ReplayCharacterised(Flatten(history));
    OrderDistinct(Flatten(history));
  }

  // -------------------------------------------------------------- Re-importing

  /** An import of `batch` would find every identity settled. */
  ghost predicate Settled(body: WritesBody, w: PendingWrite) {
    Holds(body.writes, w.Identity()) && ImportOne(body, w) == body
  }

  lemma {:induction false} SettledImportIsNoOp(body: WritesBody, groups: seq<Group>)
    requires Counted(groups)
    requires forall g | g in groups :: Settled(body, g.write)
    ensures ImportGroups(body, groups) == Imported(body, 0, Total(groups))
  {
    if groups != [] {
      var n := |groups| - 1;
      assert groups[n] in groups;
      SettledImportIsNoOp(body, groups[..n]);
    }
  }

  lemma {:induction false} GroupsSettle(body: WritesBody, groups: seq<Group>)
    requires Distinct(groups)
    ensures forall g | g in groups :: Settled(ImportAll(body, Writes(groups)), g.write)
  {
    if groups != [] {
      var n := |groups| - 1;
      var w := groups[n].write;
      GroupsSettle(body, groups[..n]);
      assert Writes(groups) == Writes(groups[..n]) + [w];
      ImportAllSnoc(body, Writes(groups[..n]), w);
      var mid := ImportAll(body, Writes(groups[..n]));
      forall g | g in groups ensures Settled(ImportOne(mid, w), g.write) {
        var i :| 0 <= i < |groups| && groups[i] == g;
        ImportSettles(mid, w);
        if i < n {
          assert groups[i] in groups[..n];
          ImportKeepsSettled(mid, g.write, w);
        }
      }
    }
  }

  lemma ImportSettles(body: WritesBody, w: PendingWrite)
    ensures Settled(ImportOne(body, w), w)
  {
    PositionUnique(ImportOne(body, w).writes, w.Identity(), Position(body.writes, w.Identity()));
  }

  lemma ImportKeepsSettled(body: WritesBody, w: PendingWrite, u: PendingWrite)
    requires Settled(body, w) && w.Identity() != u.Identity()
    ensures Settled(ImportOne(body, u), w)
  {
    ImportCommutes(body, w, u);
    PositionAfterImport(body, u, w);
  }

  lemma LiveKeepsSettled(body: WritesBody, w: PendingWrite, v: PendingWrite)
    requires Settled(body, w)
    ensures Settled(LiveOne(body, v), w)
  {
    PositionUnique(LiveOne(body, v).writes, w.Identity(), Position(body.writes, w.Identity()));
  }

  lemma {:induction false} LiveReplayKeepsSettled(body: WritesBody, w: PendingWrite, live: seq<PendingWrite>)
    requires Settled(body, w)
    ensures Settled(Replay(body, Tagged(Live, live)), w)
  {
    if live != [] {
      var init := live[..|live| - 1];
      LiveReplayKeepsSettled(body, w, init);
      assert Tagged(Live, live)[..|init|] == Tagged(Live, init);
      LiveKeepsSettled(Replay(body, Tagged(Live, init)), w, live[|live| - 1]);
    }
  }

  /**
   Importing the same batch again writes nothing and reports every record as
   existing, whatever live writes landed in between.
   */
  lemma ReimportWritesNothing(body: WritesBody, incoming: seq<PendingWrite>, live: seq<PendingWrite>)
    requires MarksControl(body)
    ensures var between := LiveBatch(ImportBatch(body, incoming).body, live);
            ImportBatch(between, incoming) == Imported(between, 0, |incoming|)
  {
    GroupedIsCounted(incoming);
    GroupedIsDistinct(incoming);
    GroupedTotal(incoming);
    ImportGroupsIsReplay(body, Grouped(incoming));
    GroupsSettle(body, Grouped(incoming));
    var once := ImportBatch(body, incoming).body;
    ImportBatchIsReplay(body, incoming);
    ReplayMarksControl(body, Tagged(Import, incoming));
    LiveBatchIsReplay(once, live);
    forall g | g in Grouped(incoming) ensures Settled(LiveBatch(once, live), g.write) {
      LiveReplayKeepsSettled(once, g.write, live);
    }
    SettledImportIsNoOp(LiveBatch(once, live), Grouped(incoming));
  }
}
