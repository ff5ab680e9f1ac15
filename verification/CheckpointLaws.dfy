/**
 What the checkpoint store promises over whole histories: every read answers as
 a plain append-only list per thread would, and the lineage walk is what its
 documentation says it is.
 */
module CheckpointLaws {
  import opened Common
  import opened Json
  import opened PendingWrites
  import opened CheckpointStore

  // ------------------------------------------------------- The reference lists

  /** One entry of the reference list: a record without its sequence number. */
  datatype Entry = Entry(subgraph: Namespace, checkpointId: string, stored: Option<Checkpoint>) {
    predicate Is(f: Filter) {
      && (f.subgraph.Some? ==> subgraph == f.subgraph.value)
      && (f.id.Some? ==> checkpointId == f.id.value)
    }
  }

  function Entries(rs: seq<Record>): (es: seq<Entry>)
    ensures |es| == |rs|
  {
    seq(|rs|, i requires 0 <= i < |rs| => Entry(rs[i].subgraph, rs[i].checkpointId, rs[i].stored))
  }

  function Without(es: seq<Entry>, ids: seq<string>): seq<Entry> {
    if es == [] then []
    else
      var e := es[|es| - 1];
      Without(es[..|es| - 1], ids) + if e.checkpointId in ids then [] else [e]
  }

  /** The last entry of the list that the filter admits. */
  function LastMatch(es: seq<Entry>, f: Filter): Option<Entry> {
    if es == [] then None
    else if es[|es| - 1].Is(f) then Some(es[|es| - 1])
    else LastMatch(es[..|es| - 1], f)
  }

  datatype Operation =
    | Append(checkpoint: Checkpoint)
    | DropThread(thread: string)
    | DropCheckpoints(thread: string, ids: seq<string>)
    | WriteLedger(key: LedgerKey, body: WritesBody)

  function Apply(s: Store, op: Operation): Store {
    match op
    case Append(c) => Put(s, c)
    case DropThread(t) => DeleteThread(s, t)
    case DropCheckpoints(t, ids) => DeleteCheckpoints(s, t, ids)
    case WriteLedger(key, body) => SetLedger(s, key, body)
  }

  function ApplyAll(ops: seq<Operation>): Store {
    if ops == [] then EMPTY_STORE else Apply(ApplyAll(ops[..|ops| - 1]), ops[|ops| - 1])
  }

  /** The reference: what each thread's list is after the same operations. */
  function Listed(ops: seq<Operation>, thread: string): seq<Entry> {
    if ops == [] then []
    else
      var before := Listed(ops[..|ops| - 1], thread);
      match ops[|ops| - 1]
      case Append(c) =>
        if c.threadId == thread then before + [Entry(c.namespace, c.checkpointId, Some(c))] else before
      case DropThread(t) => if t == thread then [] else before
      case DropCheckpoints(t, ids) => if t == thread then Without(before, ids) else before
      case WriteLedger(_, _) => before
  }

  // ------------------------------------------- Each operation on the listing

  lemma {:induction false} SameRecords(s: Store, s': Store, thread: string, n: nat)
    requires forall k | 0 <= k < n ::
               && (RecordKey(thread, k) in s.records <==> RecordKey(thread, k) in s'.records)
               && (RecordKey(thread, k) in s.records ==>
                     s.records[RecordKey(thread, k)] == s'.records[RecordKey(thread, k)])
    ensures Ascending(s, thread, ANY, n) == Ascending(s', thread, ANY, n)
  {
    if n > 0 {
      SameRecords(s, s', thread, n - 1);
    }
  }

  lemma {:induction false} NoRecords(s: Store, thread: string, n: nat)
    requires forall k | 0 <= k < n :: RecordKey(thread, k) !in s.records
    ensures Ascending(s, thread, ANY, n) == []
  {
    if n > 0 {
      NoRecords(s, thread, n - 1);
    }
  }

  lemma {:induction false} WithoutNamed(s: Store, thread: string, ids: seq<string>, n: nat)
    ensures Entries(Ascending(DeleteCheckpoints(s, thread, ids), thread, ANY, n))
            == Without(Entries(Ascending(s, thread, ANY, n)), ids)
  {
    if n > 0 {
      WithoutNamed(s, thread, ids, n - 1);
      var before, after := Ascending(s, thread, ANY, n - 1), Ascending(s, thread, ANY, n);
      var kept := DeleteCheckpoints(s, thread, ids);
      if |after| > |before| {
        assert Entries(after)[..|before|] == Entries(before);
        assert Entries(Ascending(kept, thread, ANY, n))
            == Entries(Ascending(kept, thread, ANY, n - 1))
             + if after[|before|].checkpointId in ids then [] else [Entries(after)[|before|]];
      }
    }
  }

  lemma PutAppends(s: Store, c: Checkpoint, thread: string)
    requires s.Valid()
    ensures Put(s, c).Valid()
    ensures Query(Put(s, c), thread, ANY)
            == Query(s, thread, ANY) + if c.threadId == thread then [RecordOf(c, s.Next(thread))] else []
  {
    var s' := Put(s, c);
    assert forall k | k in s.records :: k.seqNo < s.Next(k.thread);
    SameRecords(s, s', thread, s.Next(thread));
  }

  lemma DeletesKeepOthers(s: Store, thread: string, ids: seq<string>, other: string)
    requires other != thread
    ensures Query(DeleteThread(s, thread), other, ANY) == Query(s, other, ANY)
    ensures Query(DeleteCheckpoints(s, thread, ids), other, ANY) == Query(s, other, ANY)
    ensures forall ns, id :: Document(DeleteThread(s, thread), LedgerKey(other, ns, id)) ==
              Document(s, LedgerKey(other, ns, id))
    ensures forall ns, id ::
              Document(DeleteCheckpoints(s, thread, ids), LedgerKey(other, ns, id)) ==
              Document(s, LedgerKey(other, ns, id))
    ensures forall ns, id | id !in ids ::
              Document(DeleteCheckpoints(s, thread, ids), LedgerKey(thread, ns, id)) ==
                Document(s, LedgerKey(thread, ns, id))
  {
    SameRecords(s, DeleteThread(s, thread), other, s.Next(other));
    SameRecords(s, DeleteCheckpoints(s, thread, ids), other, s.Next(other));
  }

  /** After any history the stored records are exactly the reference list, in its order. */
  lemma {:induction false} ThreadIsList(ops: seq<Operation>, thread: string)
    ensures ApplyAll(ops).Valid()
    ensures Entries(Query(ApplyAll(ops), thread, ANY)) == Listed(ops, thread)
  {
    if ops != [] {
      var s := ApplyAll(ops[..|ops| - 1]);
      ThreadIsList(ops[..|ops| - 1], thread);
      match ops[|ops| - 1] {
        case Append(c) =>
          PutAppends(s, c, thread);
          if c.threadId == thread {
            assert Entries(Query(Put(s, c), thread, ANY))
                == Entries(Query(s, thread, ANY)) + [Entry(c.namespace, c.checkpointId, Some(c))];
          }
        case DropThread(t) =>
          DeleteKeepsValid(s, t, []);
          if t == thread {
            NoRecords(DeleteThread(s, t), thread, s.Next(thread));
          } else {
            DeletesKeepOthers(s, t, [], thread);
          }
        case DropCheckpoints(t, ids) =>
          DeleteKeepsValid(s, t, ids);
          if t == thread {
            WithoutNamed(s, t, ids, s.Next(thread));
          } else {
            DeletesKeepOthers(s, t, ids, thread);
          }
        case WriteLedger(key, body) =>
          SameRecords(s, SetLedger(s, key, body), thread, s.Next(thread));
      }
    }
  }

  // ----------------------------------------------- Reads against the reference

  lemma {:induction false} NewestIsLastMatch(s: Store, thread: string, f: Filter, n: nat)
    ensures var newest := NewestBelow(s, thread, f, n);
            LastMatch(Entries(Ascending(s, thread, ANY, n)), f)
            == if newest.None? then None
               else Some(Entry(newest.value.subgraph, newest.value.checkpointId, newest.value.stored))
  {
    if n > 0 {
      NewestIsLastMatch(s, thread, f, n - 1);
      var before, after := Ascending(s, thread, ANY, n - 1), Ascending(s, thread, ANY, n);
      if |after| > |before| {
        assert Entries(after)[..|before|] == Entries(before);
      }
    }
  }

  /** What a read makes of the entry it found: nothing, a checkpoint, or a decoding error. */
  function Answer(e: Option<Entry>): Result<Option<Checkpoint>> {
    if e.None? then Ok(None) else if e.value.stored.None? then Err else Ok(e.value.stored)
  }

  /** What reading a whole thread makes of its entries: their checkpoints in order, if all decode. */
  ghost function AnswerAll(es: seq<Entry>): Result<seq<Checkpoint>> {
    if exists e | e in es :: e.stored.None? then Err
    else Ok(seq(|es|, i requires 0 <= i < |es| => assert es[i] in es; es[i].stored.value))
  }

  lemma {:induction false} DecodesList(found: seq<Record>)
    ensures DecodeAll(found) == AnswerAll(Entries(found))
  {
    if found == [] {
      assert AnswerAll([]).value == [];
    } else {
      DecodesList(found[1..]);
      var es := Entries(found);
      assert Entries(found[1..]) == es[1..];
      assert forall e :: e in es <==> e == es[0] || e in es[1..];
      if AnswerAll(es).Ok? {
        assert AnswerAll(es).value == [es[0].stored.value] + AnswerAll(es[1..]).value;
      }
    }
  }

  /**
   After every history of puts, deletions and ledger writes, each of the three
   reads answers as the reference list does: the last match, and the list itself.
   */
  lemma ReadsAnswerFromTheList(ops: seq<Operation>, thread: string, id: Option<string>, ns: Namespace)
    ensures Get(ApplyAll(ops), thread, id) == Answer(LastMatch(Listed(ops, thread), Filter(None, id)))
    ensures GetScoped(ApplyAll(ops), thread, id, ns) == Answer(LastMatch(Listed(ops, thread), Filter(Some(ns), id)))
    ensures GetThread(ApplyAll(ops), thread) == AnswerAll(Listed(ops, thread))
  {
    var s := ApplyAll(ops);
    ThreadIsList(ops, thread);
    DecodesList(Query(s, thread, ANY));
    NewestIsLastMatch(s, thread, Filter(None, id), s.Next(thread));
    NewestIsLastMatch(s, thread, Filter(Some(ns), id), s.Next(thread));
  }

  // ---------------------------------------------------------------- The lineage

  predicate WithinLimit(n: nat, limit: Option<nat>) {
    limit.None? || n <= limit.value
  }

  /** The newest record of each id in turn: first the cursor's, then each one's parent. */
  ghost predicate Follows(s: Store, thread: string, ns: Namespace, cursor: Option<string>, cs: seq<Checkpoint>) {
    && (cs != [] ==> GetScoped(s, thread, cursor, ns) == Ok(Some(cs[0])))
    && (forall i | 0 < i < |cs| ::
          && GetScoped(s, thread, cs[i - 1].parent, ns) == Ok(Some(cs[i]))
          && cs[i - 1].parent == Some(cs[i].checkpointId))
  }

  ghost predicate Unrepeated(cs: seq<Checkpoint>, visited: set<string>) {
    && (forall i | 0 <= i < |cs| :: cs[i].checkpointId !in visited)
    && (forall i, j | 0 <= i < j < |cs| :: cs[i].checkpointId != cs[j].checkpointId)
  }

  ghost predicate IsLineage(s: Store, thread: string, ns: Namespace, cursor: Option<string>, visited: set<string>,
                            limit: Option<nat>, cs: seq<Checkpoint>) {
    WithinLimit(|cs|, limit) && Follows(s, thread, ns, cursor, cs) && Unrepeated(cs, visited)
  }

  lemma FollowsFrom(s: Store, thread: string, ns: Namespace, cursor: Option<string>, c: Checkpoint,
                    rest: seq<Checkpoint>)
    requires s.Valid() && GetScoped(s, thread, cursor, ns) == Ok(Some(c)) && c.parent.Some?
    requires Follows(s, thread, ns, c.parent, rest)
    ensures Follows(s, thread, ns, cursor, [c] + rest)
  {
    var cs := [c] + rest;
    ScopedAnswer(s, thread, c.parent.value, ns);
    forall i | 0 < i < |cs|
      ensures GetScoped(s, thread, cs[i - 1].parent, ns) == Ok(Some(cs[i]))
      ensures cs[i - 1].parent == Some(cs[i].checkpointId)
    {
      assert cs[i] == rest[i - 1];
      assert i > 1 ==> cs[i - 1] == rest[i - 2];
    }
  }

  lemma UnrepeatedFrom(c: Checkpoint, rest: seq<Checkpoint>, visited: set<string>)
    requires c.checkpointId !in visited && Unrepeated(rest, visited + {c.checkpointId})
    ensures Unrepeated([c] + rest, visited)
  {
    var cs := [c] + rest;
    forall i | 0 < i < |cs|
      ensures cs[i].checkpointId !in visited + {c.checkpointId}
    {
      assert cs[i] == rest[i - 1];
    }
  }

  /**
   Whatever the ledgers hold, a lineage starts where the cursor points, goes from
   each record to its parent, resolves every id to its newest record, repeats no
   id and respects the cap.
   */
  lemma {:induction false} TrailIsLineage(s: Store, thread: string, ns: Namespace, cursor: Option<string>,
                                          visited: set<string>, limit: Option<nat>)
    requires s.Valid()
    ensures IsLineage(s, thread, ns, cursor, visited, limit,
                      TrailFrom(s, thread, ns, cursor, visited, limit).checkpoints)
    decreases Ids(s, thread, ns) - visited
  {
    var found := GetScoped(s, thread, cursor, ns);
    if !Spent(limit) && found.Ok? && found.value.Some? {
      var c := found.value.value;
      if c.checkpointId !in visited && c.parent.Some? {
        ScopedFinds(s, thread, cursor, ns);
        TrailIsLineage(s, thread, ns, c.parent, visited + {c.checkpointId}, Less(limit));
        var rest := TrailFrom(s, thread, ns, c.parent, visited + {c.checkpointId}, Less(limit)).checkpoints;
        FollowsFrom(s, thread, ns, cursor, c, rest);
        UnrepeatedFrom(c, rest, visited);
      }
    }
  }

  function VisitedIds(cs: seq<Checkpoint>): set<string> {
    set c | c in cs :: c.checkpointId
  }

  /** Where a walk that passed these records would go next. */
  function Onward(cursor: Option<string>, cs: seq<Checkpoint>): Option<string> {
    if cs == [] then cursor else cs[|cs| - 1].parent
  }

  /** Nothing is there, or something already visited. */
  ghost predicate Stops(s: Store, thread: string, ns: Namespace, next: Option<string>, visited: set<string>) {
    var found := GetScoped(s, thread, next, ns);
    found.Ok? && (found.value.Some? ==> found.value.value.checkpointId in visited)
  }

  /**
   Why an uncapped lineage ended: at a record without parent, at a missing record
   or one already visited, or, when it is blocked, at one that does not decode.
   */
  ghost predicate Ends(s: Store, thread: string, ns: Namespace, cursor: Option<string>, visited: set<string>,
                       trail: Trail) {
    var cs, next := trail.checkpoints, Onward(cursor, trail.checkpoints);
    if trail.blocked then GetScoped(s, thread, next, ns).Err?
    else (cs != [] && next.None?) || Stops(s, thread, ns, next, visited + VisitedIds(cs))
  }

  lemma OnwardCons(c: Checkpoint, rest: seq<Checkpoint>, cursor: Option<string>, visited: set<string>)
    ensures Onward(cursor, [c] + rest) == Onward(c.parent, rest)
    ensures visited + VisitedIds([c] + rest) == visited + {c.checkpointId} + VisitedIds(rest)
  {
    assert VisitedIds([c] + rest) == {c.checkpointId} + VisitedIds(rest);
  }

  /** An uncapped lineage ends only there. */
  lemma {:induction false} TrailEndsOnlyThere(s: Store, thread: string, ns: Namespace, cursor: Option<string>,
                                              visited: set<string>)
    requires s.Valid()
    ensures Ends(s, thread, ns, cursor, visited, TrailFrom(s, thread, ns, cursor, visited, None))
    decreases Ids(s, thread, ns) - visited
  {
    var found := GetScoped(s, thread, cursor, ns);
    if found.Ok? && found.value.Some? {
      var c := found.value.value;
      if c.checkpointId !in visited && c.parent.Some? {
        ScopedFinds(s, thread, cursor, ns);
        TrailEndsOnlyThere(s, thread, ns, c.parent, visited + {c.checkpointId});
        OnwardCons(c, TrailFrom(s, thread, ns, c.parent, visited + {c.checkpointId}, None).checkpoints,
                   cursor, visited);
      }
    }
  }

  /** The first `cap` records of a lineage; one that is cut short is not blocked any more. */
  function Cut(trail: Trail, cap: nat): Trail {
    if cap <= |trail.checkpoints| then Trail(trail.checkpoints[..cap], false) else trail
  }

  /** Capping a lineage cuts it short and changes nothing else. */
  lemma {:induction false} CappedTrailIsPrefix(s: Store, thread: string, ns: Namespace, cursor: Option<string>,
                                               visited: set<string>, cap: nat)
    requires s.Valid()
    ensures TrailFrom(s, thread, ns, cursor, visited, Some(cap))
            == Cut(TrailFrom(s, thread, ns, cursor, visited, None), cap)
    decreases Ids(s, thread, ns) - visited
  {
    var found := GetScoped(s, thread, cursor, ns);
    if cap > 0 && found.Ok? && found.value.Some? {
      var c := found.value.value;
      if c.checkpointId !in visited && c.parent.Some? {
        ScopedFinds(s, thread, cursor, ns);
        CappedTrailIsPrefix(s, thread, ns, c.parent, visited + {c.checkpointId}, cap - 1);
        var rest := TrailFrom(s, thread, ns, c.parent, visited + {c.checkpointId}, None).checkpoints;
        assert cap <= |rest| + 1 ==> ([c] + rest)[..cap] == [c] + rest[..cap - 1];
      } else {
        assert [c][..1] == [c];
      }
    }
  }

  // --------------------------------------------------------------- The histories

  function Checkpoints(out: seq<CheckpointTuple>): seq<Checkpoint> {
    seq(|out|, i requires 0 <= i < |out| => out[i].checkpoint)
  }

  lemma CheckpointsOfTuples(s: Store, cs: seq<Checkpoint>)
    ensures Checkpoints(Tuples(s, cs)) == cs
  {
  }

  /** If it is an answer, its tuples are those of a lineage. */
  ghost predicate AnswersLineage(s: Store, thread: string, ns: Namespace, cursor: Option<string>, visited: set<string>,
                                 limit: Option<nat>, r: Result<seq<CheckpointTuple>>) {
    r.Ok? ==>
      && r.value == Tuples(s, Checkpoints(r.value))
      && IsLineage(s, thread, ns, cursor, visited, limit, Checkpoints(r.value))
  }

  /** The hop-by-hop walk, from anywhere. */
  lemma WalkIsLineage(s: Store, thread: string, ns: Namespace, cursor: Option<string>, visited: set<string>,
                      limit: Option<nat>)
    requires s.Valid()
    ensures AnswersLineage(s, thread, ns, cursor, visited, limit, Walk(s, thread, ns, cursor, visited, limit))
  {
    WalkIsTrail(s, thread, ns, cursor, visited, limit);
    TrailIsLineage(s, thread, ns, cursor, visited, limit);
    CheckpointsOfTuples(s, TrailFrom(s, thread, ns, cursor, visited, limit).checkpoints);
  }

  /** The bulk read, from the newest record. */
  lemma BulkIsLineage(s: Store, thread: string, ns: Namespace, limit: Option<nat>)
    requires s.Valid()
    ensures AnswersLineage(s, thread, ns, None, {}, limit, BulkAnswer(s, thread, ns, limit))
  {
    TrailIsLineage(s, thread, ns, None, {}, limit);
    CheckpointsOfTuples(s, Lineage(s, thread, ns, limit).checkpoints);
  }

  lemma WalkEndsOnlyThere(s: Store, thread: string, ns: Namespace, cursor: Option<string>, visited: set<string>)
    requires s.Valid()
    ensures var r := Walk(s, thread, ns, cursor, visited, None);
            r.Ok? ==> Ends(s, thread, ns, cursor, visited, Trail(Checkpoints(r.value), false))
  {
    WalkIsTrail(s, thread, ns, cursor, visited, None);
    TrailEndsOnlyThere(s, thread, ns, cursor, visited);
    CheckpointsOfTuples(s, TrailFrom(s, thread, ns, cursor, visited, None).checkpoints);
  }

  /** A scoped read fails only on a record of its scope. */
  lemma FailureIsInScope(s: Store, thread: string, ns: Namespace, id: Option<string>)
    requires GetScoped(s, thread, id, ns).Err?
    ensures Undecodable(s, thread, ns) && Ids(s, thread, ns) != {}
  {
    NewestIsHighest(s, thread, Filter(Some(ns), id), s.Next(thread));
    assert Newest(s, thread, Filter(Some(ns), id)).value.checkpointId in Ids(s, thread, ns);
  }

  lemma BulkEndsOnlyThere(s: Store, thread: string, ns: Namespace)
    requires s.Valid()
    ensures var r := BulkAnswer(s, thread, ns, None);
            r.Ok? ==> Ends(s, thread, ns, None, {}, Trail(Checkpoints(r.value), false))
  {
    var trail := Lineage(s, thread, ns, None);
    TrailEndsOnlyThere(s, thread, ns, None, {});
    CheckpointsOfTuples(s, trail.checkpoints);
    if trail.blocked {
      FailureIsInScope(s, thread, ns, Onward(None, trail.checkpoints));
    }
  }

  function Capped(out: seq<CheckpointTuple>, cap: nat): seq<CheckpointTuple> {
    if cap <= |out| then out[..cap] else out
  }

  lemma CutTuples(s: Store, trail: Trail, cap: nat)
    ensures Tuples(s, Cut(trail, cap).checkpoints) == Capped(Tuples(s, trail.checkpoints), cap)
  {
  }

  lemma {:induction false} CapKeepsAnswer(s: Store, thread: string, ns: Namespace, cursor: Option<string>,
                                          visited: set<string>, cap: nat)
    requires s.Valid() && Walk(s, thread, ns, cursor, visited, None).Ok?
    ensures Walk(s, thread, ns, cursor, visited, Some(cap)).Ok?
    decreases Ids(s, thread, ns) - visited
  {
    var found := GetScoped(s, thread, cursor, ns);
    if cap > 0 && found.value.Some? {
      var c := found.value.value;
      if c.checkpointId !in visited && c.parent.Some? {
        ScopedFinds(s, thread, cursor, ns);
        CapKeepsAnswer(s, thread, ns, c.parent, visited + {c.checkpointId}, cap - 1);
      }
    }
  }

  /**
   Capping a walk that succeeds cuts its answer short and changes nothing else;
   capping one that fails lets it succeed exactly when the cap ends before the
   first record or ledger that does not decode.
   */
  lemma CappedIsPrefix(s: Store, thread: string, ns: Namespace, cursor: Option<string>, visited: set<string>, cap: nat)
    requires s.Valid()
    ensures var all, r := Walk(s, thread, ns, cursor, visited, None), Walk(s, thread, ns, cursor, visited, Some(cap));
            var trail := TrailFrom(s, thread, ns, cursor, visited, None);
            && (all.Ok? ==> r == Ok(Capped(all.value, cap)))
            && ((forall id | id in visited :: Decodes(s, LedgerKey(thread, ns, id))) ==>
                  r == if Broken(s, Cut(trail, cap)) then Err else Ok(Capped(Tuples(s, trail.checkpoints), cap)))
  {
    WalkIsTrail(s, thread, ns, cursor, visited, None);
    WalkIsTrail(s, thread, ns, cursor, visited, Some(cap));
    CappedTrailIsPrefix(s, thread, ns, cursor, visited, cap);
    CutTuples(s, TrailFrom(s, thread, ns, cursor, visited, None), cap);
    if Walk(s, thread, ns, cursor, visited, None).Ok? {
      CapKeepsAnswer(s, thread, ns, cursor, visited, cap);
    }
  }

  /** Capping the bulk read cuts its answer short, and does not help where it fails. */
  lemma BulkCapIsPrefix(s: Store, thread: string, ns: Namespace, cap: nat)
    requires s.Valid()
    ensures var all := BulkAnswer(s, thread, ns, None);
            BulkAnswer(s, thread, ns, Some(cap)) == if all.Ok? then Ok(Capped(all.value, cap)) else Err
  {
    CappedTrailIsPrefix(s, thread, ns, None, {}, cap);
    CutTuples(s, Lineage(s, thread, ns, None), cap);
  }

  // ------------------------------------------------- Where the two histories differ

  const ONLY := Checkpoint("t", "new", None, [], [], Null)

  /** A thread whose lineage is one record, with an older record and one ledger beside it. */
  function Beside(older: Option<Checkpoint>, at: string, ledger: StoredLedger): Store {
    Store(map[RecordKey("t", 0) := Record("t", [], 0, "old", older), RecordKey("t", 1) := RecordOf(ONLY, 1)],
          map["t" := 2], map[LedgerKey("t", [], at) := ledger])
  }

  lemma OneRecordLineage(older: Option<Checkpoint>, at: string, ledger: StoredLedger)
    requires older.Some? ==>
               older.value.threadId == "t" && older.value.checkpointId == "old" && older.value.namespace == []
    ensures var s := Beside(older, at, ledger);
            s.Valid() && Ids(s, "t", []) != {} && Lineage(s, "t", [], None) == Trail([ONLY], false)
  {
    var s := Beside(older, at, ledger);
    assert s.records[RecordKey("t", 1)].checkpointId in Ids(s, "t", []);
    assert NewestBelow(s, "t", Filter(Some([]), None), 2) == Some(RecordOf(ONLY, 1));
  }

  /** A record off the lineage that does not decode fails the bulk read alone. */
  lemma UndecodableOffLineage()
    ensures exists s: Store, thread, ns ::
              s.Valid() && BulkAnswer(s, thread, ns, None).Err? && DefaultHistory(s, thread, ns, None).Ok?
  {
    var s := Beside(None, "new", Intact(EMPTY_BODY));
    OneRecordLineage(None, "new", Intact(EMPTY_BODY));
    assert s.records[RecordKey("t", 0)].stored.None?;
    assert Undecodable(s, "t", []);
    HistoriesAgree(s, "t", [], None);
    assert BulkAnswer(s, "t", [], None).Err? && DefaultHistory(s, "t", [], None).Ok?;
  }

  /** So does a ledger off the lineage whose writes do not decode, when every record does. */
  lemma CorruptOffLineage()
    ensures exists s: Store, thread, ns ::
              && s.Valid() && !Undecodable(s, thread, ns)
              && BulkAnswer(s, thread, ns, None).Err? && DefaultHistory(s, thread, ns, None).Ok?
  {
    var older := Some(Checkpoint("t", "old", None, [], [], Null));
    var s := Beside(older, "old", Corrupt);
    OneRecordLineage(older, "old", Corrupt);
    assert "new" != "old" by { assert "new"[0] != "old"[0]; }
    assert s.ledgers[LedgerKey("t", [], "old")].Corrupt?;
    assert CorruptLedger(s, "t", []);
    HistoriesAgree(s, "t", [], None);
    assert BulkAnswer(s, "t", [], None).Err? && DefaultHistory(s, "t", [], None).Ok? && !Undecodable(s, "t", []);
  }

  /** And a ledger on the lineage of which only the writes decode fails the hop-by-hop walk alone. */
  lemma WritesOnlyOnLineage()
    ensures exists s: Store, thread, ns ::
              s.Valid() && BulkAnswer(s, thread, ns, None).Ok? && DefaultHistory(s, thread, ns, None).Err?
  {
    var older := Some(Checkpoint("t", "old", None, [], [], Null));
    var s := Beside(older, "new", WritesOnly([]));
    OneRecordLineage(older, "new", WritesOnly([]));
    assert !Decodes(s, AddressOf([ONLY][0]));
    assert !CorruptLedger(s, "t", []) && !Undecodable(s, "t", []);
    HistoriesAgree(s, "t", [], None);
    assert BulkAnswer(s, "t", [], None).Ok? && DefaultHistory(s, "t", [], None).Err?;
  }
}
