/**
 The checkpoint store: an append-only collection of records ordered by a
 per-thread sequence counter, and the pending-write ledgers beside it.

 `Store` is the state of the three collections under one checkpointer namespace.
 A subgraph namespace is its own key: `subgraph_key` is injective, so the text it
 encodes to is not modelled.
 */
module CheckpointStore {
  import opened Common
  import opened Json
  import opened PendingWrites

  type Namespace = seq<string>

  /** Fields no operation here looks at (state, next nodes, metadata, ...) travel in `rest`. */
  datatype Checkpoint =
    Checkpoint(threadId: string, checkpointId: string, parent: Option<string>, namespace: Namespace,
               pendingWrites: seq<PendingWrite>, rest: Value)

  /** One document of the checkpoints collection; `stored` is `None` when its payload no longer decodes. */
  datatype Record =
    Record(thread: string, subgraph: Namespace, seqNo: nat, checkpointId: string, stored: Option<Checkpoint>)

  datatype Config = Config(threadId: string, checkpointId: Option<string>, namespace: Namespace) {
    /** The ledger it addresses, when it names a checkpoint. */
    function At(): LedgerKey {
      LedgerKey(threadId, namespace, if checkpointId.Some? then checkpointId.value else "")
    }
  }

  datatype CheckpointTuple =
    CheckpointTuple(config: Config, checkpoint: Checkpoint, parentConfig: Option<Config>,
                    pendingWrites: seq<PendingWrite>)

  datatype RecordKey = RecordKey(thread: string, seqNo: nat)

  datatype LedgerKey = LedgerKey(thread: string, namespace: Namespace, checkpointId: string)

  /**
   One document of the writes collection. A whole body that does not decode may
   still have a `writes` field that does, and the two reads differ in which they take.
   */
  datatype StoredLedger = Intact(body: WritesBody) | WritesOnly(writes: seq<PendingWrite>) | Corrupt

  datatype Store =
    Store(records: map<RecordKey, Record>, counters: map<string, nat>, ledgers: map<LedgerKey, StoredLedger>)
  {
    /** The number the next record of `thread` gets: all its records lie below. */
    function Next(thread: string): nat {
      if thread in counters then counters[thread] else 0
    }

    ghost predicate Valid() {
      forall k | k in records ::
        && records[k].thread == k.thread && records[k].seqNo == k.seqNo && k.seqNo < Next(k.thread)
        && (records[k].stored.Some? ==>
              && records[k].stored.value.threadId == k.thread
              && records[k].stored.value.checkpointId == records[k].checkpointId
              && records[k].stored.value.namespace == records[k].subgraph)
    }
  }

  const EMPTY_STORE := Store(map[], map[], map[])

  /** The conjunctions of equalities the reads use on top of the thread. */
  datatype Filter = Filter(subgraph: Option<Namespace>, id: Option<string>) {
    predicate Admits(r: Record) {
      && (subgraph.Some? ==> r.subgraph == subgraph.value)
      && (id.Some? ==> r.checkpointId == id.value)
    }
  }

  const ANY := Filter(None, None)

  // ------------------------------------------------------------------ Queries

  /** The records of `thread` numbered below `n` that `f` admits, ascending. */
  function Ascending(s: Store, thread: string, f: Filter, n: nat): seq<Record> {
    if n == 0 then []
    else
      var before := Ascending(s, thread, f, n - 1);
      if RecordKey(thread, n - 1) in s.records && f.Admits(s.records[RecordKey(thread, n - 1)])
      then before + [s.records[RecordKey(thread, n - 1)]] else before
  }

  function Query(s: Store, thread: string, f: Filter): seq<Record> {
    Ascending(s, thread, f, s.Next(thread))
  }

  /** The sort-descending, limit-one query. */
  function NewestBelow(s: Store, thread: string, f: Filter, n: nat): Option<Record> {
    if n == 0 then None
    else if RecordKey(thread, n - 1) in s.records && f.Admits(s.records[RecordKey(thread, n - 1)])
    then Some(s.records[RecordKey(thread, n - 1)])
    else NewestBelow(s, thread, f, n - 1)
  }

  /** It finds the highest-numbered record the filter admits, and misses none. */
  lemma {:induction false} NewestIsHighest(s: Store, thread: string, f: Filter, n: nat)
    ensures var r := NewestBelow(s, thread, f, n);
            && (r.None? ==> forall k | 0 <= k < n && RecordKey(thread, k) in s.records ::
                              !f.Admits(s.records[RecordKey(thread, k)]))
            && (r.Some? ==> exists k | 0 <= k < n && RecordKey(thread, k) in s.records ::
                              && r.value == s.records[RecordKey(thread, k)] && f.Admits(r.value)
                              && forall j | k < j < n && RecordKey(thread, j) in s.records ::
                                   !f.Admits(s.records[RecordKey(thread, j)]))
  {
    if n > 0 {
      NewestIsHighest(s, thread, f, n - 1);
    }
  }

  function Newest(s: Store, thread: string, f: Filter): Option<Record> {
    NewestBelow(s, thread, f, s.Next(thread))
  }

  function Decode(found: Option<Record>): Result<Option<Checkpoint>> {
    if found.None? then Ok(None)
    else if found.value.stored.None? then Err
    else Ok(found.value.stored)
  }

  function Get(s: Store, thread: string, id: Option<string>): Result<Option<Checkpoint>> {
    Decode(Newest(s, thread, Filter(None, id)))
  }

  function GetScoped(s: Store, thread: string, id: Option<string>, ns: Namespace): Result<Option<Checkpoint>> {
    Decode(Newest(s, thread, Filter(Some(ns), id)))
  }

  /** Every record decoded, or an error if one does not decode. */
  function DecodeAll(found: seq<Record>): Result<seq<Checkpoint>> {
    if found == [] then Ok([])
    else if found[0].stored.None? then Err
    else
      match DecodeAll(found[1..])
      case Err => Err
      case Ok(rest) => Ok([found[0].stored.value] + rest)
  }

  function GetThread(s: Store, thread: string): Result<seq<Checkpoint>> {
    DecodeAll(Query(s, thread, Filter(None, None)))
  }

  /** The stored document, if there is one. */
  function Document(s: Store, key: LedgerKey): Option<StoredLedger> {
    if key in s.ledgers then Some(s.ledgers[key]) else None
  }

  /** A typed read or update of the ledger gets past decoding. */
  predicate Decodes(s: Store, key: LedgerKey) {
    key in s.ledgers ==> s.ledgers[key].Intact?
  }

  /** The ledger's `writes` field, which is all the bulk read decodes. */
  function LedgerWrites(s: Store, key: LedgerKey): seq<PendingWrite> {
    if key !in s.ledgers then []
    else
      match s.ledgers[key]
      case Intact(body) => body.writes
      case WritesOnly(writes) => writes
      case Corrupt => []
  }

  function GetWrites(s: Store, key: LedgerKey): Result<seq<PendingWrite>> {
    if Decodes(s, key) then Ok(LedgerWrites(s, key)) else Err
  }

  // ---------------------------------------------------------- State transitions

  function RecordOf(c: Checkpoint, seqNo: nat): Record {
    Record(c.threadId, c.namespace, seqNo, c.checkpointId, Some(c))
  }

  function Put(s: Store, c: Checkpoint): Store {
    var n := s.Next(c.threadId);
    s.(records := s.records[RecordKey(c.threadId, n) := RecordOf(c, n)], counters := s.counters[c.threadId := n + 1])
  }

  function DeleteThread(s: Store, thread: string): Store {
    s.(records := s.records - (set k | k in s.records && k.thread == thread),
       ledgers := s.ledgers - (set k | k in s.ledgers && k.thread == thread))
  }

  /** The records a deletion by id removes, whatever namespace they are in. */
  function Named(s: Store, thread: string, ids: seq<string>): set<RecordKey> {
    set k | k in s.records && k.thread == thread && s.records[k].checkpointId in ids
  }

  function DeleteCheckpoints(s: Store, thread: string, ids: seq<string>): Store {
    s.(records := s.records - Named(s, thread, ids),
       ledgers := s.ledgers - (set k | k in s.ledgers && k.thread == thread && k.checkpointId in ids))
  }

  function SetLedger(s: Store, key: LedgerKey, body: WritesBody): Store {
    s.(ledgers := s.ledgers[key := Intact(body)])
  }

  /** The body an update starts from, when the document decodes. */
  function Ledger(s: Store, key: LedgerKey): WritesBody {
    if key in s.ledgers && s.ledgers[key].Intact? then s.ledgers[key].body else EMPTY_BODY
  }

  // ------------------------------------------------------ The hop-by-hop walk

  function AddressOf(c: Checkpoint): LedgerKey {
    LedgerKey(c.threadId, c.namespace, c.checkpointId)
  }

  function ResolvedWrites(s: Store, c: Checkpoint): seq<PendingWrite> {
    var stored := LedgerWrites(s, AddressOf(c));
    if stored == [] then c.pendingWrites else stored
  }

  function TupleOf(s: Store, c: Checkpoint): CheckpointTuple {
    CheckpointTuple(
      Config(c.threadId, Some(c.checkpointId), c.namespace), c,
      if c.parent.None? then None else Some(Config(c.threadId, c.parent, c.namespace)),
      ResolvedWrites(s, c))
  }

  /** Every checkpoint id that a scoped read of this thread can answer with. */
  function Ids(s: Store, thread: string, ns: Namespace): set<string> {
    set k | k in s.records && k.thread == thread && s.records[k].subgraph == ns :: s.records[k].checkpointId
  }

  lemma ScopedFinds(s: Store, thread: string, id: Option<string>, ns: Namespace)
    requires s.Valid()
    ensures var r := GetScoped(s, thread, id, ns);
            r.Ok? && r.value.Some? ==>
              var c := r.value.value;
              && c.checkpointId in Ids(s, thread, ns) && c.threadId == thread && c.namespace == ns
              && (id.Some? ==> c.checkpointId == id.value)
  {
    NewestIsHighest(s, thread, Filter(Some(ns), id), s.Next(thread));
  }

  predicate Spent(limit: Option<nat>) {
    limit == Some(0)
  }

  function Less(limit: Option<nat>): Option<nat>
    requires !Spent(limit)
  {
    if limit.None? then None else Some(limit.value - 1)
  }

  /**
   The trait's default `state_history`: one `get_scoped` and one `get_writes`
   per hop, a visited set, and a cap. The ledger is read before the visited set
   is asked.
   */
  function Walk(s: Store, thread: string, ns: Namespace, cursor: Option<string>, visited: set<string>,
                limit: Option<nat>): Result<seq<CheckpointTuple>>
    requires s.Valid()
    decreases Ids(s, thread, ns) - visited
  {
    if Spent(limit) then Ok([])
    else
      match GetScoped(s, thread, cursor, ns)
      case Err => Err
      case Ok(None) => Ok([])
      case Ok(Some(c)) =>
        if GetWrites(s, AddressOf(c)).Err? then Err
        else if c.checkpointId in visited then Ok([])
        else if c.parent.None? then Ok([TupleOf(s, c)])
        else
          ScopedFinds(s, thread, cursor, ns);
          match Walk(s, thread, ns, c.parent, visited + {c.checkpointId}, Less(limit))
          case Err => Err
          case Ok(rest) => Ok([TupleOf(s, c)] + rest)
  }

  function DefaultHistory(s: Store, thread: string, ns: Namespace, limit: Option<nat>): Result<seq<CheckpointTuple>>
    requires s.Valid()
  {
    Walk(s, thread, ns, None, {}, limit)
  }

  // --------------------------------------------------------------- The lineage

  /** The records a lineage passes, and whether a record that does not decode cut it short. */
  datatype Trail = Trail(checkpoints: seq<Checkpoint>, blocked: bool)

  /** From parent to parent, whatever the ledgers hold. */
  function TrailFrom(s: Store, thread: string, ns: Namespace, cursor: Option<string>, visited: set<string>,
                     limit: Option<nat>): Trail
    requires s.Valid()
    decreases Ids(s, thread, ns) - visited
  {
    if Spent(limit) then Trail([], false)
    else
      match GetScoped(s, thread, cursor, ns)
      case Err => Trail([], true)
      case Ok(None) => Trail([], false)
      case Ok(Some(c)) =>
        if c.checkpointId in visited then Trail([], false)
        else if c.parent.None? then Trail([c], false)
        else
          ScopedFinds(s, thread, cursor, ns);
          var rest := TrailFrom(s, thread, ns, c.parent, visited + {c.checkpointId}, Less(limit));
          Trail([c] + rest.checkpoints, rest.blocked)
  }

  /** The capped lineage of a namespace. */
  function Lineage(s: Store, thread: string, ns: Namespace, limit: Option<nat>): Trail
    requires s.Valid()
  {
    TrailFrom(s, thread, ns, None, {}, limit)
  }

  function Tuples(s: Store, cs: seq<Checkpoint>): (ts: seq<CheckpointTuple>)
    ensures |ts| == |cs|
  {
    seq(|cs|, i requires 0 <= i < |cs| => TupleOf(s, cs[i]))
  }

  /** Something on the trail does not decode: the record it stopped at, or the ledger of one it passed. */
  predicate Broken(s: Store, trail: Trail) {
    trail.blocked || exists i | 0 <= i < |trail.checkpoints| :: !Decodes(s, AddressOf(trail.checkpoints[i]))
  }

  lemma TuplesCons(s: Store, c: Checkpoint, rest: seq<Checkpoint>)
    ensures Tuples(s, [c] + rest) == [TupleOf(s, c)] + Tuples(s, rest)
  {
  }

  lemma BrokenCons(s: Store, c: Checkpoint, rest: Trail)
    ensures Broken(s, Trail([c] + rest.checkpoints, rest.blocked)) <==> !Decodes(s, AddressOf(c)) || Broken(s, rest)
  {
    var all := [c] + rest.checkpoints;
    assert all[0] == c;
    assert forall i | 0 <= i < |rest.checkpoints| :: all[i + 1] == rest.checkpoints[i];
    if Broken(s, rest) && !rest.blocked {
      var i :| 0 <= i < |rest.checkpoints| && !Decodes(s, AddressOf(rest.checkpoints[i]));
      assert !Decodes(s, AddressOf(all[i + 1]));
    }
  }

  /** The hop-by-hop walk answers with its lineage, or fails, exactly by what lies on the lineage. */
  lemma {:induction false} WalkIsTrail(s: Store, thread: string, ns: Namespace, cursor: Option<string>,
                                       visited: set<string>, limit: Option<nat>)
    requires s.Valid()
    ensures var r, trail := Walk(s, thread, ns, cursor, visited, limit),
                            TrailFrom(s, thread, ns, cursor, visited, limit);
            && (r.Ok? ==> !Broken(s, trail) && r.value == Tuples(s, trail.checkpoints))
            && (r.Err? && (forall id | id in visited :: Decodes(s, LedgerKey(thread, ns, id))) ==> Broken(s, trail))
    decreases Ids(s, thread, ns) - visited
  {
    var found := GetScoped(s, thread, cursor, ns);
    if !Spent(limit) && found.Ok? && found.value.Some? {
      var c := found.value.value;
      ScopedFinds(s, thread, cursor, ns);
      if c.checkpointId !in visited {
        if c.parent.None? || !Decodes(s, AddressOf(c)) {
          BrokenCons(s, c, Trail([], false));
          assert [c] + [] == [c];
          assert Tuples(s, [c]) == [TupleOf(s, c)];
        }
        if c.parent.Some? {
          var rest := TrailFrom(s, thread, ns, c.parent, visited + {c.checkpointId}, Less(limit));
          BrokenCons(s, c, rest);
          TuplesCons(s, c, rest.checkpoints);
          if Decodes(s, AddressOf(c)) {
            WalkIsTrail(s, thread, ns, c.parent, visited + {c.checkpointId}, Less(limit));
          }
        }
      }
    }
  }

  // ----------------------------------------------------------------- The store

  class DriverCheckpointer {
    var records: map<RecordKey, Record>
    var counters: map<string, nat>
    var ledgers: map<LedgerKey, StoredLedger>

    function State(): Store
      reads this
    {
      Store(records, counters, ledgers)
    }

    constructor ()
      ensures State() == EMPTY_STORE && State().Valid()
    {
      records, counters, ledgers := map[], map[], map[];
    }

    /** Advances the counter document and returns the number it reserved. */
    method NextSeq(thread: string) returns (seqNo: nat)
      modifies this`counters
      ensures seqNo == old(State()).Next(thread)
      ensures State() == old(State()).(counters := old(counters)[thread := seqNo + 1])
    {
      var next := if thread in counters then counters[thread] + 1 else 1;
      counters := counters[thread := next];
      seqNo := next - 1;
    }

    /** Fails only if the reserved key is taken, which a valid store rules out. */
    method PutCheckpoint(c: Checkpoint) returns (id: Result<string>)
      requires State().Valid()
      modifies this
      ensures id == Ok(c.checkpointId)
      ensures State() == Put(old(State()), c) && State().Valid()
    {
      var seqNo := NextSeq(c.threadId);
      if RecordKey(c.threadId, seqNo) in records {
        return Err;
      }
      records := records[RecordKey(c.threadId, seqNo) := RecordOf(c, seqNo)];
      return Ok(c.checkpointId);
    }

    method RemoveThread(thread: string)
      requires State().Valid()
      modifies this
      ensures State() == DeleteThread(old(State()), thread) && State().Valid()
    {
      records := records - (set k | k in records && k.thread == thread);
      ledgers := ledgers - (set k | k in ledgers && k.thread == thread);
    }

    method RemoveCheckpoints(thread: string, ids: seq<string>) returns (removed: nat)
      requires State().Valid()
      modifies this
      ensures State() == DeleteCheckpoints(old(State()), thread, ids) && State().Valid()
      ensures removed == |Named(old(State()), thread, ids)|
    {
      DeleteKeepsValid(State(), thread, ids);
      if ids == [] {
        assert Named(State(), thread, ids) == {};
        assert (set k | k in ledgers && k.thread == thread && k.checkpointId in ids) == {};
        return 0;
      }
      var doomed := set k | k in records && k.thread == thread && records[k].checkpointId in ids;
      records := records - doomed;
      ledgers := ledgers - (set k | k in ledgers && k.thread == thread && k.checkpointId in ids);
      removed := |doomed|;
    }

    /**
     A write against "the latest checkpoint" has no meaning and is refused, as is
     one to a ledger that does not decode.
     */
    method PutWrites(config: Config, writes: seq<PendingWrite>) returns (r: Result<()>)
      modifies this`ledgers
      ensures r.Err? <==> config.checkpointId.None? || (writes != [] && !Decodes(old(State()), config.At()))
      ensures r.Err? || writes == [] ==> State() == old(State())
      ensures r.Ok? && writes != [] ==>
                State() == SetLedger(old(State()), config.At(), LiveBatch(Ledger(old(State()), config.At()), writes))
    {
      if config.checkpointId.None? {
        return Err;
      }
      if writes != [] {
        var key := config.At();
        if !Decodes(State(), key) {
          return Err;
        }
        var body := PutLiveWrites(Ledger(State(), key), writes);
        ledgers := ledgers[key := Intact(body)];
      }
      return Ok(());
    }

    method ImportWrites(config: Config, incoming: seq<PendingWrite>) returns (r: Result<(nat, nat)>)
      modifies this`ledgers
      ensures r.Err? <==> config.checkpointId.None? || (incoming != [] && !Decodes(old(State()), config.At()))
      ensures r.Err? ==> State() == old(State())
      ensures r.Ok? ==>
                var done := ImportBatch(Ledger(old(State()), config.At()), incoming);
                && r.value == (done.written, done.existing)
                && State() == if done.written > 0 then SetLedger(old(State()), config.At(), done.body) else old(State())
    {
      if config.checkpointId.None? {
        return Err;
      }
      if incoming == [] {
        return Ok((0, 0));
      }
      var key := config.At();
      if !Decodes(State(), key) {
        return Err;
      }
      var replacement, written, existing := ImportWritesIfAbsent(Ledger(State(), key), incoming);
      if replacement.Some? {
        ledgers := ledgers[key := Intact(replacement.value)];
      }
      return Ok((written, existing));
    }

    /**
     The bulk read: it agrees with the hop-by-hop walk exactly when both, or
     neither, meet something that does not decode.
     */
    method StateHistory(thread: string, ns: Namespace, limit: Option<nat>)
      returns (r: Result<seq<CheckpointTuple>>)
      requires State().Valid()
      ensures r == BulkAnswer(State(), thread, ns, limit)
      ensures r == DefaultHistory(State(), thread, ns, limit) <==>
                (ScopeBroken(State(), thread, ns) <==> Broken(State(), Lineage(State(), thread, ns, limit)))
    {
      r := BulkHistory(State(), thread, ns, limit);
      HistoriesAgree(State(), thread, ns, limit);
    }
  }

  /** The ledger batches of one thread and namespace, by checkpoint id. */
  function ScopedLedgers(s: Store, thread: string, ns: Namespace): (writes: map<string, seq<PendingWrite>>)
    ensures forall id :: id in writes <==> LedgerKey(thread, ns, id) in s.ledgers
    ensures forall id | id in writes :: writes[id] == LedgerWrites(s, LedgerKey(thread, ns, id))
  {
    var named := set k | k in s.ledgers && k.thread == thread && k.namespace == ns :: k.checkpointId;
    map id | id in named && LedgerKey(thread, ns, id) in s.ledgers :: LedgerWrites(s, LedgerKey(thread, ns, id))
  }

  /**
   Two queries and an in-memory walk instead of two reads per hop. It decodes
   every record and the writes of every ledger of the namespace, on the lineage
   or off it, and takes nothing else from a ledger.
   */
  method BulkHistory(s: Store, thread: string, ns: Namespace, limit: Option<nat>)
    returns (r: Result<seq<CheckpointTuple>>)
    requires s.Valid()
    ensures r == BulkAnswer(s, thread, ns, limit)
  {
    var found := Query(s, thread, Filter(Some(ns), None));
    QueryIsScope(s, thread, ns);
    if found == [] {
      NewestIsLast(s, thread, Filter(Some(ns), None), s.Next(thread));
      return Ok([]);
    }
    if CorruptLedger(s, thread, ns) {
      return Err;
    }
    var writes := ScopedLedgers(s, thread, ns);
    var decoded, byId, cursor := IndexById(found);
    if !decoded {
      return Err;
    }
    ByIdIsScoped(s, thread, ns, byId);
    FirstHop(s, thread, ns, limit);
    var out := WalkInMemory(s, thread, ns, byId, writes, cursor, limit);
    IndexedWalkIsTrail(s, thread, ns, byId, cursor.value, {}, limit);
    assert byId - {} == byId;
    return Ok(out);
  }

  /** Last write wins for a re-used id; the cursor ends on the newest record. */
  method IndexById(found: seq<Record>)
    returns (decoded: bool, byId: map<string, Checkpoint>, cursor: Option<string>)
    requires forall r | r in found && r.stored.Some? :: r.stored.value.checkpointId == r.checkpointId
    ensures decoded <==> forall r | r in found :: r.stored.Some?
    ensures decoded && found != [] ==> cursor == Some(found[|found| - 1].checkpointId)
    ensures decoded ==> forall id :: id in byId <==> LastWithId(found, id).Some?
    ensures decoded ==> forall id | id in byId :: LastWithId(found, id) == Some(byId[id])
  {
    decoded, byId, cursor := true, map[], None;
    for i := 0 to |found|
      invariant forall j | 0 <= j < i :: found[j].stored.Some?
      invariant i > 0 ==> cursor == Some(found[i - 1].checkpointId)
      invariant forall id :: id in byId <==> LastWithId(found[..i], id).Some?
      invariant forall id | id in byId :: LastWithId(found[..i], id) == Some(byId[id])
    {
      assert found[..i + 1][..i] == found[..i];
      assert found[i] in found;
      if found[i].stored.None? {
        return false, byId, cursor;
      }
      var checkpoint := found[i].stored.value;
      cursor := Some(checkpoint.checkpointId);
      byId := byId[checkpoint.checkpointId := checkpoint];
    }
    assert found[..|found|] == found;
  }

  ghost predicate Answers(s: Store, thread: string, ns: Namespace, byId: map<string, Checkpoint>) {
    forall id :: GetScoped(s, thread, Some(id), ns) == Ok(if id in byId then Some(byId[id]) else None)
  }

  ghost predicate LedgersFor(s: Store, thread: string, ns: Namespace, ids: set<string>,
                             writes: map<string, seq<PendingWrite>>) {
    forall id | id in ids ::
      (if id in writes then writes[id] else []) == LedgerWrites(s, LedgerKey(thread, ns, id))
  }

  ghost predicate Addressed(thread: string, ns: Namespace, byId: map<string, Checkpoint>) {
    forall id | id in byId ::
      byId[id].threadId == thread && byId[id].checkpointId == id && byId[id].namespace == ns
  }

  ghost function IndexedWalk(s: Store, byId: map<string, Checkpoint>, cursor: Option<string>, limit: Option<nat>)
    : seq<CheckpointTuple>
    decreases byId.Keys
  {
    if cursor.None? || Spent(limit) || cursor.value !in byId then []
    else
      var c := byId[cursor.value];
      [TupleOf(s, c)] + IndexedWalk(s, byId - {cursor.value}, c.parent, Less(limit))
  }

  /** The lineage walk over the index; removing an id from it doubles as the cycle guard. */
  method WalkInMemory(s: Store, thread: string, ns: Namespace, indexed: map<string, Checkpoint>,
                      ledgers: map<string, seq<PendingWrite>>, start: Option<string>, limit: Option<nat>)
    returns (out: seq<CheckpointTuple>)
    requires Addressed(thread, ns, indexed) && LedgersFor(s, thread, ns, indexed.Keys, ledgers)
    ensures out == IndexedWalk(s, indexed, start, limit)
  {
    out := [];
    var byId, writes, cursor := indexed, ledgers, start;
    ghost var left := limit;
    while cursor.Some?
      invariant Addressed(thread, ns, byId) && LedgersFor(s, thread, ns, byId.Keys, writes)
      invariant left == if limit.None? then None else Some(limit.value - |out|)
      invariant limit.Some? ==> |out| <= limit.value
      invariant IndexedWalk(s, indexed, start, limit) == out + IndexedWalk(s, byId, cursor, left)
      decreases byId.Keys
    {
      var id := cursor.value;
      if limit.Some? && |out| >= limit.value {
        break;
      }
      if id !in byId {
        break;
      }
      var checkpoint := byId[id];
      ForgetId(s, thread, ns, byId, writes, id);
      IndexedStep(s, byId, id, left);
      byId := byId - {id};
      var batch := if id in writes then writes[id] else [];
      writes := writes - {id};
      var pending := if batch != [] then batch else checkpoint.pendingWrites;
      var config := Config(checkpoint.threadId, Some(checkpoint.checkpointId), checkpoint.namespace);
      var parentConfig := if checkpoint.parent.None? then None else Some(config.(checkpointId := checkpoint.parent));
      var tuple := CheckpointTuple(config, checkpoint, parentConfig, pending);
      cursor, left := checkpoint.parent, Less(left);
      Regroup(out, tuple, IndexedWalk(s, byId, cursor, left));
      out := out + [tuple];
    }
  }

  lemma Regroup<T>(a: seq<T>, x: T, b: seq<T>)
    ensures a + ([x] + b) == a + [x] + b
  {
  }

  lemma IndexedStep(s: Store, byId: map<string, Checkpoint>, id: string, limit: Option<nat>)
    requires id in byId && !Spent(limit)
    ensures IndexedWalk(s, byId, Some(id), limit)
            == [TupleOf(s, byId[id])] + IndexedWalk(s, byId - {id}, byId[id].parent, Less(limit))
  {
  }

  /** The write batch of an indexed id is the one the store would read, and the rest of the index keeps its own. */
  lemma ForgetId(s: Store, thread: string, ns: Namespace, byId: map<string, Checkpoint>,
                 writes: map<string, seq<PendingWrite>>, id: string)
    requires Addressed(thread, ns, byId) && LedgersFor(s, thread, ns, byId.Keys, writes) && id in byId
    ensures Addressed(thread, ns, byId - {id}) && LedgersFor(s, thread, ns, (byId - {id}).Keys, writes - {id})
    ensures var c, batch := byId[id], if id in writes then writes[id] else [];
            && ResolvedWrites(s, c) == (if batch != [] then batch else c.pendingWrites)
  {
  }

  /** Walking the index is following the lineage in the store, hop by hop. */
  lemma {:induction false} IndexedWalkIsTrail(s: Store, thread: string, ns: Namespace,
                                              byId: map<string, Checkpoint>, id: string, visited: set<string>,
                                              limit: Option<nat>)
    requires s.Valid() && Answers(s, thread, ns, byId)
    ensures var trail := TrailFrom(s, thread, ns, Some(id), visited, limit);
            !trail.blocked && Tuples(s, trail.checkpoints) == IndexedWalk(s, byId - visited, Some(id), limit)
    decreases byId.Keys - visited
  {
    assert GetScoped(s, thread, Some(id), ns) == Ok(if id in byId then Some(byId[id]) else None);
    ScopedAnswer(s, thread, id, ns);
    if !Spent(limit) && id in byId && id !in visited {
      var c := byId[id];
      assert byId - visited - {id} == byId - (visited + {id});
      if c.parent.Some? {
        IndexedWalkIsTrail(s, thread, ns, byId, c.parent.value, visited + {id}, Less(limit));
        TuplesCons(s, c, TrailFrom(s, thread, ns, c.parent, visited + {id}, Less(limit)).checkpoints);
      } else {
        TuplesCons(s, c, []);
        assert [c] + [] == [c];
      }
    }
  }

  /** Some record of the namespace cannot be decoded. */
  predicate Undecodable(s: Store, thread: string, ns: Namespace) {
    exists k | k in s.records :: k.thread == thread && s.records[k].subgraph == ns && s.records[k].stored.None?
  }

  /** The `writes` field of some ledger of the namespace cannot be decoded. */
  predicate CorruptLedger(s: Store, thread: string, ns: Namespace) {
    exists k | k in s.ledgers :: k.thread == thread && k.namespace == ns && s.ledgers[k].Corrupt?
  }

  /** The namespace has a record, and something the bulk read decodes is broken. */
  predicate ScopeBroken(s: Store, thread: string, ns: Namespace) {
    && Ids(s, thread, ns) != {}
    && (Undecodable(s, thread, ns) || CorruptLedger(s, thread, ns))
  }

  function BulkAnswer(s: Store, thread: string, ns: Namespace, limit: Option<nat>): Result<seq<CheckpointTuple>>
    requires s.Valid()
  {
    if ScopeBroken(s, thread, ns) then Err else Ok(Tuples(s, Lineage(s, thread, ns, limit).checkpoints))
  }

  /**
   The two histories agree exactly when the namespace holds something broken
   that the bulk read decodes and the capped lineage something broken that the
   hop-by-hop walk decodes, or neither does.
   */
  lemma HistoriesAgree(s: Store, thread: string, ns: Namespace, limit: Option<nat>)
    requires s.Valid()
    ensures BulkAnswer(s, thread, ns, limit) == DefaultHistory(s, thread, ns, limit) <==>
              (ScopeBroken(s, thread, ns) <==> Broken(s, Lineage(s, thread, ns, limit)))
    ensures DefaultHistory(s, thread, ns, limit).Err? <==> Broken(s, Lineage(s, thread, ns, limit))
  {
    WalkIsTrail(s, thread, ns, None, {}, limit);
  }

  function LastWithId(rs: seq<Record>, id: string): Option<Checkpoint> {
    if rs == [] then None
    else if rs[|rs| - 1].checkpointId == id then rs[|rs| - 1].stored
    else LastWithId(rs[..|rs| - 1], id)
  }

  lemma {:induction false} AscendingContents(s: Store, thread: string, f: Filter, n: nat)
    ensures forall r | r in Ascending(s, thread, f, n) ::
              f.Admits(r) && exists k | 0 <= k < n ::
                RecordKey(thread, k) in s.records && s.records[RecordKey(thread, k)] == r
    ensures forall k | 0 <= k < n && RecordKey(thread, k) in s.records && f.Admits(s.records[RecordKey(thread, k)]) ::
              s.records[RecordKey(thread, k)] in Ascending(s, thread, f, n)
  {
    if n > 0 {
      AscendingContents(s, thread, f, n - 1);
    }
  }

  lemma QueryIsScope(s: Store, thread: string, ns: Namespace)
    requires s.Valid()
    ensures var found := Query(s, thread, Filter(Some(ns), None));
            && (Undecodable(s, thread, ns) <==> exists r | r in found :: r.stored.None?)
            && (forall r | r in found && r.stored.Some? :: r.stored.value.checkpointId == r.checkpointId)
            && (found == [] <==> Ids(s, thread, ns) == {})
  {
    var found := Query(s, thread, Filter(Some(ns), None));
    AscendingContents(s, thread, Filter(Some(ns), None), s.Next(thread));
    if found != [] {
      assert found[0] in found;
      var k :| 0 <= k < s.Next(thread) && RecordKey(thread, k) in s.records &&
               s.records[RecordKey(thread, k)] == found[0];
      assert found[0].checkpointId in Ids(s, thread, ns);
    }
    if id :| id in Ids(s, thread, ns) {
      var k :| k in s.records && k.thread == thread && s.records[k].subgraph == ns;
      assert k == RecordKey(thread, k.seqNo) && s.records[k] in found;
    }
  }

  lemma {:induction false} NewestIsLast(s: Store, thread: string, f: Filter, n: nat)
    ensures var found := Ascending(s, thread, f, n);
            NewestBelow(s, thread, f, n) == if found == [] then None else Some(found[|found| - 1])
  {
    if n > 0 {
      NewestIsLast(s, thread, f, n - 1);
    }
  }

  /** The newest record with an id is the last one with it in the namespace's listing. */
  lemma {:induction false} NewestWithId(s: Store, thread: string, ns: Namespace, id: string, n: nat)
    ensures var found, newest := Ascending(s, thread, Filter(Some(ns), None), n),
                                 NewestBelow(s, thread, Filter(Some(ns), Some(id)), n);
            && LastWithId(found, id) == (if newest.None? then None else newest.value.stored)
            && (newest.Some? ==> newest.value in found)
  {
    if n > 0 {
      NewestWithId(s, thread, ns, id, n - 1);
    }
  }

  lemma ByIdIsScoped(s: Store, thread: string, ns: Namespace, byId: map<string, Checkpoint>)
    requires s.Valid() && !Undecodable(s, thread, ns)
    requires var found := Query(s, thread, Filter(Some(ns), None));
             && (forall id :: id in byId <==> LastWithId(found, id).Some?)
             && (forall id | id in byId :: LastWithId(found, id) == Some(byId[id]))
    ensures Answers(s, thread, ns, byId) && Addressed(thread, ns, byId)
  {
    QueryIsScope(s, thread, ns);
    forall id ensures GetScoped(s, thread, Some(id), ns) == Ok(if id in byId then Some(byId[id]) else None) {
      NewestWithId(s, thread, ns, id, s.Next(thread));
      ScopedAnswer(s, thread, id, ns);
    }
    forall id | id in byId
      ensures byId[id].threadId == thread && byId[id].checkpointId == id && byId[id].namespace == ns
    {
      ScopedAnswer(s, thread, id, ns);
    }
  }

  lemma DeleteKeepsValid(s: Store, thread: string, ids: seq<string>)
    requires s.Valid()
    ensures DeleteCheckpoints(s, thread, ids).Valid() && DeleteThread(s, thread).Valid()
  {
  }

  /** What a scoped read answers with is addressed as it was asked for. */
  lemma ScopedAnswer(s: Store, thread: string, id: string, ns: Namespace)
    requires s.Valid()
    ensures var r := GetScoped(s, thread, Some(id), ns);
            r.Ok? && r.value.Some? ==>
              r.value.value.threadId == thread && r.value.value.checkpointId == id && r.value.value.namespace == ns
  {
    ScopedFinds(s, thread, Some(id), ns);
  }

  lemma {:induction false} NewestHasItsId(s: Store, thread: string, ns: Namespace, n: nat)
    ensures var newest := NewestBelow(s, thread, Filter(Some(ns), None), n);
            newest.Some? ==> NewestBelow(s, thread, Filter(Some(ns), Some(newest.value.checkpointId)), n) == newest
  {
    if n > 0 {
      NewestHasItsId(s, thread, ns, n - 1);
    }
  }

  /** Starting at the newest record is starting at its id. */
  lemma FirstHop(s: Store, thread: string, ns: Namespace, limit: Option<nat>)
    requires s.Valid()
    ensures var found := Query(s, thread, Filter(Some(ns), None));
            found != [] ==> Lineage(s, thread, ns, limit)
                            == TrailFrom(s, thread, ns, Some(found[|found| - 1].checkpointId), {}, limit)
  {
    NewestIsLast(s, thread, Filter(Some(ns), None), s.Next(thread));
    NewestHasItsId(s, thread, ns, s.Next(thread));
  }
}
