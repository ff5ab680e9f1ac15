/**
 The importer of a whole legacy batch: catalog records are placed unless their id
 is taken, revisions and runs only beside their owner flow, and checkpoint and
 write records are handed on together at the end.
 */
module LegacyBatch {
  import opened Common
  import opened Json
  import opened CheckpointStore
  import opened LegacyRecords
  import opened LegacyCheckpoints

  /** A document of one of the catalog's collections. */
  datatype DocKey =
    | FlowDoc(id: string)
    | RevisionDoc(id: string)
    | RunDoc(id: string)
    | StateDoc(namespace: string, id: string)
    | SuggestionDoc(id: string)
    | DraftDoc(id: string)

  type Documents = map<DocKey, Value>

  predicate SafeDraftId(id: string) {
    && 0 < |id| <= 64
    && forall c | c in id :: 'a' <= c <= 'z' || 'A' <= c <= 'Z' || '0' <= c <= '9' || c == '-' || c == '_'
  }

  /** What becomes of a record: a document to store, a problem, or handing it on. */
  datatype Verdict = Keep(key: DocKey, doc: Value) | Reject(identity: Option<string>, message: string) | Defer

  const ORPHAN := "owner flow was not imported"

  function UnusableDraft(id: string): string { "'" + id + "' is not a usable draft id" }

  /** `owned` answers whether the record's flow was imported earlier in the batch or is in the catalog. */
  function Judge(r: LegacyRecord, owned: bool): Verdict {
    if r.ForCheckpointer() then Defer
    else
      match r
      case FlowRow(id, Decoded(flow)) => Keep(FlowDoc(id), flow)
      case FlowRow(id, Broken(m)) => Reject(Some(id), m)
      case RevisionRow(id, _, Decoded(revision)) =>
        if owned then Keep(RevisionDoc(id), revision) else Reject(Some(id), ORPHAN)
      case RevisionRow(id, _, Broken(m)) => Reject(Some(id), m)
      case RunRow(id, _, Decoded(run)) =>
        if owned then Keep(RunDoc(id), run) else Reject(Some(id), ORPHAN)
      case RunRow(id, _, Broken(m)) => Reject(Some(id), m)
      case StateRow(namespace, key, Decoded(value)) => Keep(StateDoc(namespace, key), value)
      case StateRow(_, key, Broken(m)) => Reject(Some(key), m)
      case SuggestionRow(id, Decoded(suggestion)) => Keep(SuggestionDoc(id), suggestion)
      case SuggestionRow(id, Broken(m)) => Reject(Some(id), m)
      case DraftFile(file, Decoded(draft)) =>
        if SafeDraftId(draft.id) then Keep(DraftDoc(draft.id), draft.body)
        else Reject(Some(file), UnusableDraft(draft.id))
      case DraftFile(file, Broken(m)) => Reject(Some(file), m)
      case Invalid(_, identity, m) => Reject(identity, m)
      case _ => Defer
  }

  /** How one record was counted. */
  datatype Entry =
    Wrote(kind: Kind) | Existed(kind: Kind) | Refused(kind: Kind, identity: Option<string>, message: string)

  function Entered(report: Report, e: Entry): Report {
    match e
    case Wrote(kind) => report.Tallied(kind, true)
    case Existed(kind) => report.Tallied(kind, false)
    case Refused(kind, identity, m) => report.Rejected(kind, identity, m)
  }

  /** The counts and problems of a list of entries. */
  ghost function Summed(entries: seq<Entry>): Report {
    if entries == [] then BLANK else Entered(Summed(entries[..|entries| - 1]), entries[|entries| - 1])
  }

  /** The catalog, the flows seen, what was counted, and what waits for the checkpointer. */
  datatype Work = Work(docs: Documents, flows: set<string>, entries: seq<Entry>, deferred: seq<LegacyRecord>)

  predicate Owned(r: LegacyRecord, flows: set<string>, docs: Documents) {
    (r.RevisionRow? || r.RunRow?) && (r.flowId in flows || FlowDoc(r.flowId) in docs)
  }

  function Enact(w: Work, r: LegacyRecord, v: Verdict): Work {
    match v
    case Defer => w.(deferred := w.deferred + [r])
    case Reject(identity, m) => w.(entries := w.entries + [Refused(r.Kind(), identity, m)])
    case Keep(key, doc) =>
      w.(docs := if key in w.docs then w.docs else w.docs[key := doc],
         flows := if r.FlowRow? then w.flows + {r.id} else w.flows,
         entries := w.entries + [if key in w.docs then Existed(r.Kind()) else Wrote(r.Kind())])
  }

  function ApplyOne(w: Work, r: LegacyRecord): Work {
    Enact(w, r, Judge(r, Owned(r, w.flows, w.docs)))
  }

  ghost function Worked(docs: Documents, records: seq<LegacyRecord>): Work {
    if records == [] then Work(docs, {}, [], [])
    else ApplyOne(Worked(docs, records[..|records| - 1]), records[|records| - 1])
  }

  class FlowCatalog {
    var docs: Documents

    constructor ()
      ensures docs == map[]
    {
      docs := map[];
    }

    /** Stores a document only when its id is free, and says whether it did. */
    method ImportIfAbsent(key: DocKey, doc: Value) returns (wrote: bool)
      modifies this
      ensures wrote == (key !in old(docs))
      ensures docs == if wrote then old(docs)[key := doc] else old(docs)
    {
      if key in docs {
        return false;
      }
      docs := docs[key := doc];
      return true;
    }
  }

  lemma SummedSnoc(entries: seq<Entry>, e: Entry)
    ensures Summed(entries + [e]) == Entered(Summed(entries), e)
  {
    assert (entries + [e])[..|entries|] == entries;
  }

  /** A record with a document to store: stored or already there, and counted so. */
  method PlaceRecord(catalog: FlowCatalog, r: LegacyRecord, key: DocKey, doc: Value, flows: set<string>, report: Report)
    returns (flows': set<string>, report': Report, ghost e: Entry)
    modifies catalog
    ensures catalog.docs == if key in old(catalog.docs) then old(catalog.docs) else old(catalog.docs)[key := doc]
    ensures flows' == if r.FlowRow? then flows + {r.id} else flows
    ensures e == (if key in old(catalog.docs) then Existed(r.Kind()) else Wrote(r.Kind())) &&
            report' == Entered(report, e)
  {
    var wrote := catalog.ImportIfAbsent(key, doc);
    report' := report.Tallied(r.Kind(), wrote);
    e := if wrote then Wrote(r.Kind()) else Existed(r.Kind());
    flows' := if r.FlowRow? then flows + {r.id} else flows;
  }

  method ImportRecord(catalog: FlowCatalog, r: LegacyRecord, flows: set<string>, report: Report,
                      ghost entries: seq<Entry>, ghost deferred: seq<LegacyRecord>)
    returns (flows': set<string>, report': Report, ghost entries': seq<Entry>)
    requires !Judge(r, Owned(r, flows, catalog.docs)).Defer? && report == Summed(entries)
    modifies catalog
    ensures Work(catalog.docs, flows', entries', deferred) ==
              ApplyOne(Work(old(catalog.docs), flows, entries, deferred), r)
    ensures report' == Summed(entries')
  {
    ghost var e;
    match Judge(r, Owned(r, flows, catalog.docs)) {
      case Keep(key, doc) =>
        flows', report', e := PlaceRecord(catalog, r, key, doc, flows, report);
      case Reject(identity, m) =>
        flows', report', e := flows, report.Rejected(r.Kind(), identity, m), Refused(r.Kind(), identity, m);
    }
    entries' := entries + [e];
    SummedSnoc(entries, e);
  }

  lemma JudgeDefers(r: LegacyRecord, owned: bool)
    ensures Judge(r, owned).Defer? <==> r.ForCheckpointer()
  {
  }

  ghost function Combined(report: Report, other: Report): Report {
    AddAll(report, Respond(other).tallies).(problems := report.problems + other.problems)
  }

  /** `apply_legacy_batch`; `null` for the checkpointer when the scope has none. */
  method ApplyLegacyBatch(records: seq<LegacyRecord>, catalog: FlowCatalog, checkpointer: DriverCheckpointer?)
    returns (r: Result<Response>)
    requires checkpointer != null ==> checkpointer.State().Valid()
    modifies catalog, checkpointer
    ensures checkpointer != null ==> checkpointer.State().Valid()
    ensures var work := Worked(old(catalog.docs), records);
            && catalog.docs == work.docs && AllForCheckpointer(work.deferred)
            && (work.deferred == [] ==>
                  && r == Ok(Respond(Summed(work.entries)))
                  && (checkpointer != null ==> checkpointer.State() == old(checkpointer.State())))
            && (work.deferred != [] && checkpointer == null ==> r.Err?)
            && (work.deferred != [] && checkpointer != null ==>
                  var done := CheckpointBatch(old(checkpointer.State()), work.deferred);
                  && checkpointer.State() == done.store
                  && r == if done.failed then Err else Ok(Respond(Combined(Summed(work.entries), done.report))))
  {
    ghost var start := catalog.docs;
    ghost var store := if checkpointer != null then checkpointer.State() else EMPTY_STORE;
    var flows, report, deferred := {}, BLANK, [];
    ghost var entries := [];
    for i := 0 to |records|
      invariant Work(catalog.docs, flows, entries, deferred) == Worked(start, records[..i]) && report == Summed(entries)
      invariant AllForCheckpointer(deferred)
      invariant checkpointer != null ==> checkpointer.State() == store
    {
      assert records[..i + 1][..i] == records[..i];
      JudgeDefers(records[i], Owned(records[i], flows, catalog.docs));
      if records[i].ForCheckpointer() {
        deferred := deferred + [records[i]];
      } else {
        flows, report, entries := ImportRecord(catalog, records[i], flows, report, entries, deferred);
      }
    }
    assert records[..|records|] == records;
    if deferred != [] {
      if checkpointer == null {
        return Err;
      }
      var response := ApplyCheckpointBatch(deferred, checkpointer);
      if response.Err? {
        return Err;
      }
      report := AddTallies(report, response.value);
    }
    r := Ok(Respond(report));
  }

  // ---------------------------------------------------------------- Conservation

  function EntriesOf(entries: seq<Entry>, kind: Kind): nat {
    if entries == [] then 0
    else EntriesOf(entries[..|entries| - 1], kind) + if entries[|entries| - 1].kind == kind then 1 else 0
  }

  lemma EnteredCounts(report: Report, e: Entry, kind: Kind)
    ensures var after := Entered(report, e);
            && after.Total(kind) == report.Total(kind) + (if e.kind == kind then 1 else 0)
            && (Explained(report, kind) ==> Explained(after, kind))
  {
    if e.Refused? {
      RejectedCounts(report, e.kind, e.identity, e.message, kind);
    }
  }

  /** Every entry is counted once under its kind, and there is one problem per refusal. */
  lemma {:induction false} SummedCounts(entries: seq<Entry>, kind: Kind)
    ensures Summed(entries).Total(kind) == EntriesOf(entries, kind) && Explained(Summed(entries), kind)
  {
    if entries != [] {
      SummedCounts(entries[..|entries| - 1], kind);
      EnteredCounts(Summed(entries[..|entries| - 1]), entries[|entries| - 1], kind);
    }
  }

  lemma ApplyOneEnters(w: Work, r: LegacyRecord, kind: Kind)
    ensures var after, one := ApplyOne(w, r), if r.Kind() == kind then 1 else 0;
            && EntriesOf(after.entries, kind) == EntriesOf(w.entries, kind) + (if r.ForCheckpointer() then 0 else one)
            && after.deferred == if r.ForCheckpointer() then w.deferred + [r] else w.deferred
  {
    JudgeDefers(r, Owned(r, w.flows, w.docs));
    var after := ApplyOne(w, r);
    assert |after.entries| > |w.entries| ==> after.entries[..|w.entries|] == w.entries;
  }

  /** Every record has its entry or is handed on. */
  lemma {:induction false} WorkedEnters(docs: Documents, records: seq<LegacyRecord>, kind: Kind)
    ensures var w := Worked(docs, records);
            && EntriesOf(w.entries, kind) + OfKind(w.deferred, kind) == OfKind(records, kind)
            && AllForCheckpointer(w.deferred)
  {
    if records != [] {
      var init, r := records[..|records| - 1], records[|records| - 1];
      WorkedEnters(docs, init, kind);
      ApplyOneEnters(Worked(docs, init), r, kind);
      OfKindSnoc(Worked(docs, init).deferred, r, kind);
    }
  }

  lemma CombinedCounts(report: Report, other: Report, kind: Kind)
    requires Explained(report, kind) && Explained(other, kind)
    ensures Combined(report, other).Total(kind) == report.Total(kind) + other.Total(kind)
    ensures Explained(Combined(report, other), kind)
  {
    AddAllStates(report, Respond(other).tallies, kind);
    ListedStates(other, 8, kind);
    AddAllInvalid(report, Respond(other).tallies, kind);
    ListedInvalidOf(other, 8, kind);
    ProblemsOfAppend(report.problems, other.problems, kind);
  }

  /** What `ApplyLegacyBatch` reports when it succeeds. */
  ghost function BatchReport(docs: Documents, s: Store, records: seq<LegacyRecord>): Option<Report> {
    WorkedEnters(docs, records, WriteKind);
    var w := Worked(docs, records);
    var done := CheckpointBatch(s, w.deferred);
    if w.deferred == [] then Some(Summed(w.entries))
    else if done.failed then None
    else Some(Combined(Summed(w.entries), done.report))
  }

  lemma BatchCounts(docs: Documents, s: Store, records: seq<LegacyRecord>, kind: Kind)
    requires BatchReport(docs, s, records).Some?
    ensures var report := BatchReport(docs, s, records).value;
            report.Total(kind) == OfKind(records, kind) && Explained(report, kind)
  {
    var w := Worked(docs, records);
    WorkedEnters(docs, records, kind);
    SummedCounts(w.entries, kind);
    if w.deferred != [] {
      CheckpointBatchConserves(s, w.deferred, kind);
      CombinedCounts(Summed(w.entries), CheckpointBatch(s, w.deferred).report, kind);
    }
  }

  /**
   When a batch succeeds, written + existing + invalid is the number of records
   of each kind, and there is one problem per invalid record.
   */
  lemma BatchConserves(docs: Documents, s: Store, records: seq<LegacyRecord>)
    requires BatchReport(docs, s, records).Some?
    ensures var response := Respond(BatchReport(docs, s, records).value);
            && (forall kind :: Stated(response.tallies, kind) == OfKind(records, kind))
            && |response.problems| == StatedInvalid(response.tallies)
  {
    var report := BatchReport(docs, s, records).value;
    forall kind
      ensures Stated(Respond(report).tallies, kind) == OfKind(records, kind) && Explained(report, kind)
    {
      BatchCounts(docs, s, records, kind);
      ResponseStates(report, kind);
    }
    ProblemsAreInvalids(report);
  }

  // ------------------------------------------------------------------ The catalog

  /** The document a record asks for, once its owner is there. */
  function Target(r: LegacyRecord): Option<(DocKey, Value)> {
    match Judge(r, true)
    case Keep(key, doc) => Some((key, doc))
    case _ => None
  }

  /** A revision or run waits for its owner flow; nothing else waits. */
  predicate Ready(r: LegacyRecord, docs: Documents) {
    (r.RevisionRow? || r.RunRow?) ==> FlowDoc(r.flowId) in docs
  }

  predicate Placed(r: LegacyRecord, docs: Documents) {
    Target(r).Some? && Ready(r, docs) ==> Target(r).value.0 in docs
  }

  lemma JudgeTarget(r: LegacyRecord, owned: bool)
    ensures Judge(r, owned).Keep? <==> Target(r).Some? && ((r.RevisionRow? || r.RunRow?) ==> owned)
    ensures Judge(r, owned).Keep? ==> Target(r).value == (Judge(r, owned).key, Judge(r, owned).doc)
    ensures Target(r).Some? && Target(r).value.0.FlowDoc? <==> r.FlowRow? && r.flow.Decoded?
    ensures r.FlowRow? && r.flow.Decoded? ==> Target(r).value.0 == FlowDoc(r.id)
  {
  }

  lemma EnactPlaces(w: Work, r: LegacyRecord, v: Verdict)
    requires v.Keep? && (r.FlowRow? ==> v.key == FlowDoc(r.id)) && forall f | f in w.flows :: FlowDoc(f) in w.docs
    ensures var after := Enact(w, r, v);
            && (forall f | f in after.flows :: FlowDoc(f) in after.docs)
            && after.docs == if v.key in w.docs then w.docs else w.docs[v.key := v.doc]
  {
  }

  lemma ApplyOnePlaces(w: Work, r: LegacyRecord)
    requires forall f | f in w.flows :: FlowDoc(f) in w.docs
    ensures var after := ApplyOne(w, r);
            && (forall f | f in after.flows :: FlowDoc(f) in after.docs)
            && after.docs == (if Target(r).Some? && Ready(r, w.docs) && Target(r).value.0 !in w.docs
                              then w.docs[Target(r).value.0 := Target(r).value.1] else w.docs)
  {
    var v := Judge(r, Owned(r, w.flows, w.docs));
    JudgeTarget(r, Owned(r, w.flows, w.docs));
    assert v.Keep? <==> Target(r).Some? && Ready(r, w.docs);
    if v.Keep? {
      EnactPlaces(w, r, v);
    }
  }

  /** A batch only adds documents, and each it adds is what one of its records asked for. */
  lemma {:induction false} CatalogOnlyGrows(docs: Documents, records: seq<LegacyRecord>)
    ensures var w := Worked(docs, records);
            && (forall f | f in w.flows :: FlowDoc(f) in w.docs)
            && (forall k | k in docs :: k in w.docs && w.docs[k] == docs[k])
            && (forall k | k in w.docs && k !in docs :: exists r | r in records :: Target(r) == Some((k, w.docs[k])))
  {
    if records != [] {
      var init, r := records[..|records| - 1], records[|records| - 1];
      CatalogOnlyGrows(docs, init);
      ApplyOnePlaces(Worked(docs, init), r);
      assert r in records;
      assert forall q | q in init :: q in records;
    }
  }

  lemma {:induction false} FlowsArePlaced(docs: Documents, records: seq<LegacyRecord>)
    ensures forall r | r in records && r.FlowRow? && r.flow.Decoded? :: FlowDoc(r.id) in Worked(docs, records).docs
  {
    if records != [] {
      var init, r := records[..|records| - 1], records[|records| - 1];
      FlowsArePlaced(docs, init);
      CatalogOnlyGrows(docs, init);
      ApplyOnePlaces(Worked(docs, init), r);
      assert records == init + [r];
    }
  }

  ghost predicate FlowsKnown(docs: Documents, records: seq<LegacyRecord>) {
    forall r | r in records && r.FlowRow? && r.flow.Decoded? :: FlowDoc(r.id) in docs
  }

  /** Once the batch's flows are there, a pass adds no flow and places every record that has an owner. */
  lemma {:induction false} KnownFlowsPass(docs: Documents, records: seq<LegacyRecord>)
    requires FlowsKnown(docs, records)
    ensures var w := Worked(docs, records);
            && (forall f :: FlowDoc(f) in w.docs <==> FlowDoc(f) in docs)
            && (forall r | r in records :: Placed(r, w.docs))
  {
    if records != [] {
      var init, r := records[..|records| - 1], records[|records| - 1];
      assert records == init + [r];
      KnownFlowsPass(docs, init);
      CatalogOnlyGrows(docs, init);
      ApplyOnePlaces(Worked(docs, init), r);
      forall q | q in records
        ensures Placed(q, Worked(docs, records).docs)
      {
        if q in init {
          assert Placed(q, Worked(docs, init).docs);
        }
      }
    }
  }

  lemma {:induction false} PlacedPass(docs: Documents, records: seq<LegacyRecord>)
    requires forall r | r in records :: Placed(r, docs)
    ensures Worked(docs, records).docs == docs
  {
    if records != [] {
      var init, r := records[..|records| - 1], records[|records| - 1];
      assert r in records;
      PlacedPass(docs, init);
      CatalogOnlyGrows(docs, init);
      ApplyOnePlaces(Worked(docs, init), r);
    }
  }

  /** A second pass may still place what came before its owner flow; a third changes nothing. */
  lemma SecondPassSettles(docs: Documents, records: seq<LegacyRecord>)
    ensures var twice := Worked(Worked(docs, records).docs, records).docs; Worked(twice, records).docs == twice
  {
    var once := Worked(docs, records).docs;
    FlowsArePlaced(docs, records);
    KnownFlowsPass(once, records);
    PlacedPass(Worked(once, records).docs, records);
  }

  /** A flow that decodes, with this id, stands among the first `n` records. */
  predicate FlowBefore(records: seq<LegacyRecord>, n: nat, flowId: string)
    requires n <= |records|
  {
    exists i | 0 <= i < n :: records[i].FlowRow? && records[i].flow.Decoded? && records[i].id == flowId
  }

  /** The owner is in the catalog, or the batch brings it in its first `n` records; nothing else has an owner. */
  predicate OwnerBefore(docs: Documents, records: seq<LegacyRecord>, n: nat, r: LegacyRecord)
    requires n <= |records|
  {
    (r.RevisionRow? || r.RunRow?) ==> FlowDoc(r.flowId) in docs || FlowBefore(records, n, r.flowId)
  }

  /** A record of the batch asks for the key and does not come before its owner. */
  predicate AskedInTime(docs: Documents, records: seq<LegacyRecord>, key: DocKey) {
    exists j | 0 <= j < |records| :: OwnerBefore(docs, records, j, records[j]) && AsksFor(records[j], key)
  }

  predicate AsksFor(r: LegacyRecord, key: DocKey) {
    Target(r).Some? && Target(r).value.0 == key
  }

  lemma AskedByInit(docs: Documents, records: seq<LegacyRecord>, key: DocKey)
    requires records != []
    ensures var n := |records| - 1;
            AskedInTime(docs, records, key) <==>
              || AskedInTime(docs, records[..n], key)
              || (OwnerBefore(docs, records, n, records[n]) && AsksFor(records[n], key))
  {
    var n := |records| - 1;
    var init := records[..n];
    forall j | 0 <= j < n
      ensures OwnerBefore(docs, records, j, records[j]) <==> OwnerBefore(docs, init, j, init[j])
    {
      SameFlowsBefore(records, n, j);
    }
    if AskedInTime(docs, init, key) {
      var j :| 0 <= j < |init| && OwnerBefore(docs, init, j, init[j]) && AsksFor(init[j], key);
      assert OwnerBefore(docs, records, j, records[j]) && AsksFor(records[j], key);
    }
    if AskedInTime(docs, records, key) {
      var j :| 0 <= j < |records| && OwnerBefore(docs, records, j, records[j]) && AsksFor(records[j], key);
      if j < n {
        assert OwnerBefore(docs, init, j, init[j]) && AsksFor(init[j], key);
      }
    }
  }

  lemma SameFlowsBefore(records: seq<LegacyRecord>, n: nat, j: nat)
    requires j <= n <= |records|
    ensures forall f :: FlowBefore(records, j, f) <==> FlowBefore(records[..n], j, f)
  {
    forall f
      ensures FlowBefore(records, j, f) <==> FlowBefore(records[..n], j, f)
    {
      if FlowBefore(records, j, f) {
        var i :| 0 <= i < j && records[i].FlowRow? && records[i].flow.Decoded? && records[i].id == f;
        assert records[..n][i] == records[i];
      }
    }
  }

  lemma FlowAsked(docs: Documents, records: seq<LegacyRecord>, f: string)
    ensures AskedInTime(docs, records, FlowDoc(f)) <==> FlowBefore(records, |records|, f)
  {
    forall j | 0 <= j < |records|
      ensures AsksFor(records[j], FlowDoc(f)) <==>
                records[j].FlowRow? && records[j].flow.Decoded? && records[j].id == f
    {
      JudgeTarget(records[j], true);
    }
    if FlowBefore(records, |records|, f) {
      var i :| 0 <= i < |records| && records[i].FlowRow? && records[i].flow.Decoded? && records[i].id == f;
      assert OwnerBefore(docs, records, i, records[i]) && AsksFor(records[i], FlowDoc(f));
    }
  }

  /** Which documents one pass leaves, read off the catalog and the batch. */
  lemma {:induction false} PlacedExactly(docs: Documents, records: seq<LegacyRecord>, key: DocKey)
    ensures key in Worked(docs, records).docs <==> key in docs || AskedInTime(docs, records, key)
  {
    if records != [] {
      var n := |records| - 1;
      var init, r := records[..n], records[n];
      PlacedExactly(docs, init, key);
      CatalogOnlyGrows(docs, init);
      ApplyOnePlaces(Worked(docs, init), r);
      if r.RevisionRow? || r.RunRow? {
        PlacedExactly(docs, init, FlowDoc(r.flowId));
        FlowAsked(docs, init, r.flowId);
        SameFlowsBefore(records, n, n);
      }
      assert Ready(r, Worked(docs, init).docs) <==> OwnerBefore(docs, records, n, r);
      AskedByInit(docs, records, key);
    }
  }

  /** What a record asks for is there, or asked for in time, unless its owner is nowhere. */
  predicate InTime(docs: Documents, records: seq<LegacyRecord>, r: LegacyRecord) {
    Target(r).Some? && OwnerBefore(docs, records, |records|, r) ==>
      Target(r).value.0 in docs || AskedInTime(docs, records, Target(r).value.0)
  }

  lemma PlacedIsInTime(docs: Documents, records: seq<LegacyRecord>, r: LegacyRecord)
    ensures Placed(r, Worked(docs, records).docs) <==> InTime(docs, records, r)
  {
    if r.RevisionRow? || r.RunRow? {
      PlacedExactly(docs, records, FlowDoc(r.flowId));
      FlowAsked(docs, records, r.flowId);
    }
    if Target(r).Some? {
      PlacedExactly(docs, records, Target(r).value.0);
    }
  }

  /**
   Importing a batch again changes no document exactly when every record whose
   owner flow is in the catalog or anywhere in the batch finds the document it
   asks for in the catalog, or asked for by a record that follows its owner.
   */
  lemma SecondPassChangesNothing(docs: Documents, records: seq<LegacyRecord>)
    ensures var once := Worked(docs, records).docs;
            Worked(once, records).docs == once <==> forall r | r in records :: InTime(docs, records, r)
  {
    var once := Worked(docs, records).docs;
    forall r | r in records
      ensures Placed(r, once) <==> InTime(docs, records, r)
    {
      PlacedIsInTime(docs, records, r);
    }
    FlowsArePlaced(docs, records);
    KnownFlowsPass(once, records);
    if forall r | r in records :: InTime(docs, records, r) {
      PlacedPass(once, records);
    }
  }

  /** In particular when every revision and run follows its owner flow, or finds it in the catalog. */
  lemma OwnersFirstSettles(docs: Documents, records: seq<LegacyRecord>)
    requires forall j | 0 <= j < |records| :: OwnerBefore(docs, records, j, records[j])
    ensures var once := Worked(docs, records).docs; Worked(once, records).docs == once
  {
    forall r | r in records
      ensures InTime(docs, records, r)
    {
      var j :| 0 <= j < |records| && records[j] == r;
      if Target(r).Some? {
        assert OwnerBefore(docs, records, j, records[j]) && AsksFor(records[j], Target(r).value.0);
      }
    }
    SecondPassChangesNothing(docs, records);
  }

  /** Without that condition one pass is not enough: a revision read before its flow is placed by the next pass. */
  lemma LateOwner(revision: Value, flow: Value)
    ensures var records := [RevisionRow("r", "f", Decoded(revision)), FlowRow("f", Decoded(flow))];
            var once := Worked(map[], records).docs;
            RevisionDoc("r") !in once && RevisionDoc("r") in Worked(once, records).docs
  {
    var first, second := RevisionRow("r", "f", Decoded(revision)), FlowRow("f", Decoded(flow));
    var records := [first, second];
    assert records[..1] == [first] && [first][..0] == [];
    var once := Worked(map[], records).docs;
    assert Worked(map[], [first]) == ApplyOne(Work(map[], {}, [], []), first);
    assert once == map[FlowDoc("f") := flow];
    assert Worked(once, [first]) == ApplyOne(Work(once, {}, [], []), first);
  }
}
