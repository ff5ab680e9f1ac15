/**
 The pending-write ledger of one checkpoint, written by live runs and by the
 legacy importer. Each writer's loop is a method proved against a function; the
 functions are then shown to be nothing but folds of one-write steps, from which
 the contents of the ledger after every history follow.
 */
module PendingWrites {
  import opened Common
  import opened Json

  /** `(task_id, idx)`: what a write is deduplicated on within a checkpoint. */
  type Identity = (string, int)

  datatype PendingWrite =
    PendingWrite(node: string, taskId: string, idx: int, channel: string, payload: Value)
  {
    predicate IsControlPlane() { idx < 0 }

    function Identity(): Identity { (taskId, idx) }
  }

  /** The stored document: merged writes, and the control identities an importer last supplied. */
  datatype WritesBody = WritesBody(writes: seq<PendingWrite>, imported: set<Identity>)

  const EMPTY_BODY := WritesBody([], {})

  function Position(writes: seq<PendingWrite>, id: Identity): (p: nat)
    ensures p <= |writes|
    ensures p < |writes| ==> writes[p].Identity() == id
    ensures forall i | 0 <= i < p :: writes[i].Identity() != id
  {
    if writes == [] || writes[0].Identity() == id then 0 else 1 + Position(writes[1..], id)
  }

  predicate Holds(writes: seq<PendingWrite>, id: Identity) {
    Position(writes, id) < |writes|
  }

  // ---------------------------------------------------------------- One write

  /** `merge_writes` on one write: control replaces, data is written once. */
  function MergeOne(writes: seq<PendingWrite>, w: PendingWrite): seq<PendingWrite> {
    var p := Position(writes, w.Identity());
    if p == |writes| then writes + [w]
    else if w.IsControlPlane() then writes[p := w]
    else writes
  }

  function LiveOne(body: WritesBody, w: PendingWrite): WritesBody {
    WritesBody(MergeOne(body.writes, w),
               if w.IsControlPlane() then body.imported - {w.Identity()} else body.imported)
  }

  function ImportOne(body: WritesBody, w: PendingWrite): WritesBody {
    var p := Position(body.writes, w.Identity());
    if p == |body.writes| then
      WritesBody(body.writes + [w],
                 if w.IsControlPlane() then body.imported + {w.Identity()} else body.imported)
    else if w.IsControlPlane() && w.Identity() in body.imported then
      body.(writes := body.writes[p := w])
    else
      body
  }

  // --------------------------------------------------------------- One batch

  function MergeAll(writes: seq<PendingWrite>, batch: seq<PendingWrite>): seq<PendingWrite> {
    if batch == [] then writes
    else MergeOne(MergeAll(writes, batch[..|batch| - 1]), batch[|batch| - 1])
  }

  /** The identities a live batch claims, judged against the ledger before the batch. */
  function Claimed(writes: seq<PendingWrite>, batch: seq<PendingWrite>): set<Identity> {
    set w | w in batch && (w.IsControlPlane() || !Holds(writes, w.Identity())) :: w.Identity()
  }

  function LiveBatch(body: WritesBody, batch: seq<PendingWrite>): WritesBody {
    WritesBody(MergeAll(body.writes, batch), body.imported - Claimed(body.writes, batch))
  }

  /** One group per identity: the write that will be imported and how many records it stands for. */
  datatype Group = Group(write: PendingWrite, count: nat)

  function GroupPosition(groups: seq<Group>, id: Identity): (p: nat)
    ensures p <= |groups|
    ensures p < |groups| ==> groups[p].write.Identity() == id
    ensures forall i | 0 <= i < p :: groups[i].write.Identity() != id
  {
    if groups == [] || groups[0].write.Identity() == id then 0 else 1 + GroupPosition(groups[1..], id)
  }

  function AddToGroups(groups: seq<Group>, w: PendingWrite): seq<Group> {
    var p := GroupPosition(groups, w.Identity());
    if p == |groups| then groups + [Group(w, 1)]
    else groups[p := Group(if w.IsControlPlane() then w else groups[p].write, groups[p].count + 1)]
  }

  function Grouped(incoming: seq<PendingWrite>): seq<Group> {
    if incoming == [] then []
    else AddToGroups(Grouped(incoming[..|incoming| - 1]), incoming[|incoming| - 1])
  }

  /** The outcome of an import attempt: the new body and the two counters. */
  datatype Imported = Imported(body: WritesBody, written: nat, existing: nat)

  function ImportGroup(acc: Imported, g: Group): Imported
    requires g.count >= 1
  {
    var body' := ImportOne(acc.body, g.write);
    if Holds(acc.body.writes, g.write.Identity()) then
      if body' == acc.body then acc.(existing := acc.existing + g.count)
      else Imported(body', acc.written + g.count, acc.existing)
    else if g.write.IsControlPlane() then
      Imported(body', acc.written + g.count, acc.existing)
    else
      Imported(body', acc.written + 1, acc.existing + g.count - 1)
  }

  ghost predicate Counted(groups: seq<Group>) {
    forall g | g in groups :: g.count >= 1
  }

  function ImportGroups(body: WritesBody, groups: seq<Group>): Imported
    requires Counted(groups)
  {
    if groups == [] then Imported(body, 0, 0)
    else ImportGroup(ImportGroups(body, groups[..|groups| - 1]), groups[|groups| - 1])
  }

  lemma {:induction false} GroupedIsCounted(incoming: seq<PendingWrite>)
    ensures Counted(Grouped(incoming))
  {
    if incoming != [] {
      GroupedIsCounted(incoming[..|incoming| - 1]);
    }
  }

  function ImportBatch(body: WritesBody, incoming: seq<PendingWrite>): Imported {
    GroupedIsCounted(incoming);
    ImportGroups(body, Grouped(incoming))
  }

  // ------------------------------------------------------- The writers' loops

  method MergeWrites(existing: seq<PendingWrite>, incoming: seq<PendingWrite>)
    returns (merged: seq<PendingWrite>, changed: nat)
    ensures merged == MergeAll(existing, incoming)
    ensures changed == 0 ==> merged == existing
    ensures changed <= |incoming|
  {
    merged, changed := existing, 0;
    for i := 0 to |incoming|
      invariant merged == MergeAll(existing, incoming[..i])
      invariant changed == 0 ==> merged == existing
      invariant changed <= i
    {
      var write := incoming[i];
      assert incoming[..i + 1][..i] == incoming[..i];
      var p := Position(merged, write.Identity());
      if p < |merged| {
        if write.IsControlPlane() {
          merged := merged[p := write];
          changed := changed + 1;
        }
      } else {
        merged := merged + [write];
        changed := changed + 1;
      }
    }
    assert incoming[..|incoming|] == incoming;
  }

  /** The update closure of `put_live_writes`. */
  method PutLiveWrites(current: WritesBody, writes: seq<PendingWrite>) returns (body: WritesBody)
    ensures body == LiveBatch(current, writes)
  {
    var markers := current.imported;
    for i := 0 to |writes|
      invariant markers == current.imported - Claimed(current.writes, writes[..i])
    {
      var write := writes[i];
      assert writes[..i + 1] == writes[..i] + [write];
      if write.IsControlPlane() || !Holds(current.writes, write.Identity()) {
        markers := markers - {write.Identity()};
      }
    }
    assert writes[..|writes|] == writes;
    var merged, _ := MergeWrites(current.writes, writes);
    body := WritesBody(merged, markers);
  }

  method GroupIncoming(incoming: seq<PendingWrite>) returns (grouped: seq<Group>)
    ensures grouped == Grouped(incoming) && Counted(grouped)
  {
    grouped := [];
    for i := 0 to |incoming|
      invariant grouped == Grouped(incoming[..i])
    {
      var write := incoming[i];
      assert incoming[..i + 1][..i] == incoming[..i];
      var p := GroupPosition(grouped, write.Identity());
      if p < |grouped| {
        var last := if write.IsControlPlane() then write else grouped[p].write;
        grouped := grouped[p := Group(last, grouped[p].count + 1)];
      } else {
        grouped := grouped + [Group(write, 1)];
      }
    }
    assert incoming[..|incoming|] == incoming;
    GroupedIsCounted(incoming);
  }

  /** The update closure of `import_writes_if_absent`; `None` leaves the document as it is. */
  method ImportWritesIfAbsent(current: WritesBody, incoming: seq<PendingWrite>)
    returns (replacement: Option<WritesBody>, written: nat, existing: nat)
    ensures var r := ImportBatch(current, incoming);
            && written == r.written && existing == r.existing
            && replacement == if r.written > 0 then Some(r.body) else None
    ensures written + existing == |incoming|
    ensures replacement.None? <==> ImportBatch(current, incoming).body == current
  {
    var grouped := GroupIncoming(incoming);
    var body := current;
    written, existing := 0, 0;
    for i := 0 to |grouped|
      invariant Imported(body, written, existing) == ImportGroups(current, grouped[..i])
    {
      assert grouped[..i + 1][..i] == grouped[..i];
      assert grouped[i] in grouped;
      body, written, existing := ImportOneGroup(body, written, existing, grouped[i].write, grouped[i].count);
    }
    assert grouped[..|grouped|] == grouped;
    ImportCounts(current, incoming);
    replacement := if written > 0 then Some(body) else None;
  }

  /** The body of the importer's loop: one group against the ledger so far. */
  method ImportOneGroup(before: WritesBody, writtenBefore: nat, existingBefore: nat, write: PendingWrite, count: nat)
    returns (body: WritesBody, written: nat, existing: nat)
    requires count >= 1
    ensures Imported(body, written, existing)
            == ImportGroup(Imported(before, writtenBefore, existingBefore), Group(write, count))
  {
    body, written, existing := before, writtenBefore, existingBefore;
    var identity := write.Identity();
    var index := Position(body.writes, identity);
    if index < |body.writes| {
      if write.IsControlPlane() && identity in body.imported {
        if body.writes[index] == write {
          existing := existing + count;
        } else {
          body := body.(writes := body.writes[index := write]);
          written := written + count;
        }
      } else {
        existing := existing + count;
      }
    } else if write.IsControlPlane() {
      body := WritesBody(body.writes + [write], body.imported + {identity});
      written := written + count;
    } else {
      body := body.(writes := body.writes + [write]);
      written := written + 1;
      existing := existing + count - 1;
    }
  }

  // ---------------------------------------------------------------- Counters

  function Total(groups: seq<Group>): nat {
    if groups == [] then 0 else Total(groups[..|groups| - 1]) + groups[|groups| - 1].count
  }

  lemma {:induction false} TotalUpdate(groups: seq<Group>, p: nat, g: Group)
    requires p < |groups|
    ensures Total(groups[p := g]) == Total(groups) - groups[p].count + g.count
  {
    var n := |groups| - 1;
    if p < n {
      TotalUpdate(groups[..n], p, g);
      assert groups[p := g][..n] == groups[..n][p := g];
    } else {
      assert groups[p := g][..n] == groups[..n];
    }
  }

  lemma {:induction false} GroupedTotal(incoming: seq<PendingWrite>)
    ensures Total(Grouped(incoming)) == |incoming|
  {
    if incoming != [] {
      var init, w := incoming[..|incoming| - 1], incoming[|incoming| - 1];
      GroupedTotal(init);
      var groups := Grouped(init);
      var p := GroupPosition(groups, w.Identity());
      if p < |groups| {
        TotalUpdate(groups, p, Grouped(incoming)[p]);
      } else {
        assert Grouped(incoming)[..|groups|] == groups;
      }
    }
  }

  ghost predicate Distinct(groups: seq<Group>) {
    forall i, j | 0 <= i < j < |groups| :: groups[i].write.Identity() != groups[j].write.Identity()
  }

  lemma {:induction false} GroupedIsDistinct(incoming: seq<PendingWrite>)
    ensures Distinct(Grouped(incoming))
  {
    if incoming != [] {
      GroupedIsDistinct(incoming[..|incoming| - 1]);
    }
  }

  lemma {:induction false} ImportGroupsCount(body: WritesBody, groups: seq<Group>)
    requires Counted(groups)
    ensures var r := ImportGroups(body, groups);
            r.written + r.existing == Total(groups) && (r.written == 0 ==> r.body == body)
  {
    if groups != [] {
      ImportGroupsCount(body, groups[..|groups| - 1]);
    }
  }

  ghost predicate Grew(before: seq<PendingWrite>, after: seq<PendingWrite>, groups: seq<Group>) {
    || |after| > |before|
    || (|after| == |before| && exists i | 0 <= i < |before| ::
          after[i] != before[i] && exists g | g in groups :: after[i].Identity() == g.write.Identity())
  }

  lemma {:induction false} ImportGroupsGrows(body: WritesBody, groups: seq<Group>)
    requires Counted(groups) && Distinct(groups)
    ensures var r := ImportGroups(body, groups);
            |r.body.writes| >= |body.writes| && (r.written > 0 ==> Grew(body.writes, r.body.writes, groups))
  {
    if groups != [] {
      var n := |groups| - 1;
      ImportGroupsGrows(body, groups[..n]);
      var mid, r := ImportGroups(body, groups[..n]), ImportGroups(body, groups);
      if r.written > 0 && |r.body.writes| == |body.writes| {
        assert groups[n] in groups;
        if mid.written > 0 {
          var i :| 0 <= i < |body.writes| && mid.body.writes[i] != body.writes[i]
            && exists g | g in groups[..n] :: mid.body.writes[i].Identity() == g.write.Identity();
          assert r.body.writes[i] == mid.body.writes[i];
        } else {
          ImportGroupsCount(body, groups[..n]);
          var p := Position(body.writes, groups[n].write.Identity());
          assert r.body.writes[p] == groups[n].write;
        }
      }
    }
  }

  /**
   Every incoming record is counted exactly once, and the importer asks for a
   document write exactly when it changes the document.
   */
  lemma ImportCounts(body: WritesBody, incoming: seq<PendingWrite>)
    ensures var r := ImportBatch(body, incoming);
            r.written + r.existing == |incoming| && (r.written == 0 <==> r.body == body)
  {
    GroupedIsCounted(incoming);
    GroupedIsDistinct(incoming);
    GroupedTotal(incoming);
    ImportGroupsCount(body, Grouped(incoming));
    ImportGroupsGrows(body, Grouped(incoming));
  }
}
