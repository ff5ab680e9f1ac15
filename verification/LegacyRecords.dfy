/**
 Records read from an older store, and the accounting of a batch of them. Texts
 that the importer decodes appear here already decoded, or as the decoder's message.
 */
module LegacyRecords {
  import opened Common
  import opened Json
  import opened PendingWrites
  import opened CheckpointStore

  datatype Kind =
    FlowKind | RevisionKind | RunKind | StateKind | SuggestionKind | DraftKind | CheckpointKind | WriteKind

  /** The order in which an ordered map keyed by kind lists its entries. */
  function Rank(kind: Kind): nat {
    match kind
    case FlowKind => 0
    case RevisionKind => 1
    case RunKind => 2
    case StateKind => 3
    case SuggestionKind => 4
    case DraftKind => 5
    case CheckpointKind => 6
    case WriteKind => 7
  }

  function KindAt(rank: nat): Kind {
    if rank == 0 then FlowKind
    else if rank == 1 then RevisionKind
    else if rank == 2 then RunKind
    else if rank == 3 then StateKind
    else if rank == 4 then SuggestionKind
    else if rank == 5 then DraftKind
    else if rank == 6 then CheckpointKind
    else WriteKind
  }

  datatype Decoded<+T> = Decoded(value: T) | Broken(message: string)

  datatype AddressedWrite = AddressedWrite(at: LedgerKey, write: PendingWrite)

  datatype DraftDocument = DraftDocument(id: string, body: Value)

  datatype LegacyRecord =
    | FlowRow(id: string, flow: Decoded<Value>)
    | RevisionRow(id: string, flowId: string, revision: Decoded<Value>)
    | RunRow(id: string, flowId: string, run: Decoded<Value>)
    | StateRow(namespace: string, key: string, state: Decoded<Value>)
    | SuggestionRow(id: string, suggestion: Decoded<Value>)
    | DraftFile(fileName: string, draft: Decoded<DraftDocument>)
    | CheckpointRow(checkpoint: Decoded<Checkpoint>)
    | SqliteWrite(taskId: string, write: Decoded<AddressedWrite>)
    | FileWrite(threadId: string, write: Decoded<AddressedWrite>)
    | Invalid(kind: Kind, identity: Option<string>, message: string)
  {
    function Kind(): Kind {
      match this
      case FlowRow(_, _) => FlowKind
      case RevisionRow(_, _, _) => RevisionKind
      case RunRow(_, _, _) => RunKind
      case StateRow(_, _, _) => StateKind
      case SuggestionRow(_, _) => SuggestionKind
      case DraftFile(_, _) => DraftKind
      case CheckpointRow(_) => CheckpointKind
      case SqliteWrite(_, _) => WriteKind
      case FileWrite(_, _) => WriteKind
      case Invalid(kind, _, _) => kind
    }

    predicate ForCheckpointer() {
      Kind().CheckpointKind? || Kind().WriteKind?
    }
  }

  datatype Problem = Problem(kind: Kind, identity: Option<string>, message: string)

  datatype Tally = Tally(kind: Kind, written: nat, existing: nat, invalid: nat)

  datatype Response = Response(tallies: seq<Tally>, problems: seq<Problem>)

  type Counter = map<Kind, nat>

  function Count(m: Counter, kind: Kind): nat {
    if kind in m then m[kind] else 0
  }

  function Bump(m: Counter, kind: Kind, n: nat): Counter {
    m[kind := Count(m, kind) + n]
  }

  function Clipped(text: string, n: nat): string {
    if |text| <= n then text else text[..n]
  }

  /** The running counts, one counter each for what was written, found existing and invalid, and the problems. */
  datatype Report = Report(written: Counter, existing: Counter, invalid: Counter, problems: seq<Problem>) {
    function Total(kind: Kind): nat {
      Count(written, kind) + Count(existing, kind) + Count(invalid, kind)
    }

    function Tallied(kind: Kind, wrote: bool): Report {
      if wrote then this.(written := Bump(written, kind, 1)) else this.(existing := Bump(existing, kind, 1))
    }

    function Rejected(kind: Kind, identity: Option<string>, message: string): Report {
      var clipped := if identity.None? then None else Some(Clipped(identity.value, 128));
      this.(invalid := Bump(invalid, kind, 1), problems := problems + [Problem(kind, clipped, Clipped(message, 240))])
    }

    function Add(t: Tally): Report {
      this.(written := Bump(written, t.kind, t.written),
            existing := Bump(existing, t.kind, t.existing),
            invalid := Bump(invalid, t.kind, t.invalid))
    }

    predicate Touched(kind: Kind) {
      kind in written || kind in existing || kind in invalid
    }

    function TallyOf(kind: Kind): Tally {
      Tally(kind, Count(written, kind), Count(existing, kind), Count(invalid, kind))
    }
  }

  const BLANK := Report(map[], map[], map[], [])

  // ------------------------------------------------------------------ Responses

  function Listed(report: Report, n: nat): seq<Tally> {
    if n == 0 then []
    else
      var before, kind := Listed(report, n - 1), KindAt(n - 1);
      if report.Touched(kind) then before + [report.TallyOf(kind)] else before
  }

  function Respond(report: Report): Response {
    Response(Listed(report, 8), report.problems)
  }

  /** The records a list of tallies speaks for. */
  function Stated(tallies: seq<Tally>, kind: Kind): nat {
    if tallies == [] then 0
    else
      var before, last := Stated(tallies[..|tallies| - 1], kind), tallies[|tallies| - 1];
      if last.kind == kind then before + last.written + last.existing + last.invalid else before
  }

  function StatedInvalid(tallies: seq<Tally>): nat {
    if tallies == [] then 0 else StatedInvalid(tallies[..|tallies| - 1]) + tallies[|tallies| - 1].invalid
  }

  lemma StatedSnoc(tallies: seq<Tally>, last: Tally, kind: Kind)
    ensures Stated(tallies + [last], kind)
            == Stated(tallies, kind) + if last.kind == kind then last.written + last.existing + last.invalid else 0
    ensures StatedInvalid(tallies + [last]) == StatedInvalid(tallies) + last.invalid
  {
    assert (tallies + [last])[..|tallies|] == tallies;
  }

  lemma RankOfKind(kind: Kind, rank: nat)
    requires rank < 8
    ensures KindAt(rank) == kind <==> Rank(kind) == rank
  {
  }

  lemma {:induction false} ListedStates(report: Report, n: nat, kind: Kind)
    requires n <= 8
    ensures Stated(Listed(report, n), kind) == if Rank(kind) < n then report.Total(kind) else 0
  {
    if n > 0 {
      ListedStates(report, n - 1, kind);
      RankOfKind(kind, n - 1);
      StatedSnoc(Listed(report, n - 1), report.TallyOf(KindAt(n - 1)), kind);
    }
  }

  lemma {:induction false} ListedContents(report: Report, n: nat, kind: Kind)
    requires n <= 8
    ensures report.TallyOf(kind) in Listed(report, n) <==> Rank(kind) < n && report.Touched(kind)
    ensures forall t | t in Listed(report, n) :: t == report.TallyOf(t.kind)
  {
    if n > 0 {
      ListedContents(report, n - 1, kind);
    }
  }

  /** A response carries, for every kind that was touched, exactly what was counted for it. */
  lemma ResponseStates(report: Report, kind: Kind)
    ensures Stated(Respond(report).tallies, kind) == report.Total(kind)
    ensures report.Touched(kind) <==> report.TallyOf(kind) in Respond(report).tallies
    ensures forall t | t in Respond(report).tallies :: t == report.TallyOf(t.kind)
  {
    ListedStates(report, 8, kind);
    ListedContents(report, 8, kind);
  }

  function AddAll(report: Report, tallies: seq<Tally>): Report {
    if tallies == [] then report else AddAll(report, tallies[..|tallies| - 1]).Add(tallies[|tallies| - 1])
  }

  /** The tallies of one response added to the counts of another, one after another. */
  method AddTallies(report: Report, response: Response) returns (r: Report)
    ensures r == AddAll(report, response.tallies).(problems := report.problems + response.problems)
  {
    r := report;
    for i := 0 to |response.tallies|
      invariant r == AddAll(report, response.tallies[..i]) && r.problems == report.problems
    {
      assert response.tallies[..i + 1][..i] == response.tallies[..i];
      r := r.Add(response.tallies[i]);
    }
    assert response.tallies[..|response.tallies|] == response.tallies;
    r := r.(problems := r.problems + response.problems);
  }

  lemma {:induction false} AddAllStates(report: Report, tallies: seq<Tally>, kind: Kind)
    ensures AddAll(report, tallies).Total(kind) == report.Total(kind) + Stated(tallies, kind)
  {
    if tallies != [] {
      AddAllStates(report, tallies[..|tallies| - 1], kind);
    }
  }

  function StatedInvalidOf(tallies: seq<Tally>, kind: Kind): nat {
    if tallies == [] then 0
    else StatedInvalidOf(tallies[..|tallies| - 1], kind) +
         if tallies[|tallies| - 1].kind == kind then tallies[|tallies| - 1].invalid else 0
  }

  lemma {:induction false} AddAllInvalid(report: Report, tallies: seq<Tally>, kind: Kind)
    ensures Count(AddAll(report, tallies).invalid, kind) == Count(report.invalid, kind) + StatedInvalidOf(tallies, kind)
  {
    if tallies != [] {
      AddAllInvalid(report, tallies[..|tallies| - 1], kind);
    }
  }

  lemma {:induction false} ListedInvalidOf(report: Report, n: nat, kind: Kind)
    requires n <= 8
    ensures StatedInvalidOf(Listed(report, n), kind) == if Rank(kind) < n then Count(report.invalid, kind) else 0
  {
    if n > 0 {
      ListedInvalidOf(report, n - 1, kind);
      RankOfKind(kind, n - 1);
      var before, t := Listed(report, n - 1), report.TallyOf(KindAt(n - 1));
      assert (before + [t])[..|before|] == before;
    }
  }

  // ----------------------------------------------------------------- Accounting

  function OfKind(records: seq<LegacyRecord>, kind: Kind): nat {
    if records == [] then 0
    else OfKind(records[..|records| - 1], kind) + if records[|records| - 1].Kind() == kind then 1 else 0
  }

  lemma OfKindSnoc(records: seq<LegacyRecord>, record: LegacyRecord, kind: Kind)
    ensures OfKind(records + [record], kind) == OfKind(records, kind) + if record.Kind() == kind then 1 else 0
  {
    assert (records + [record])[..|records|] == records;
  }

  function ProblemsOf(problems: seq<Problem>, kind: Kind): nat {
    if problems == [] then 0
    else ProblemsOf(problems[..|problems| - 1], kind) + if problems[|problems| - 1].kind == kind then 1 else 0
  }

  lemma {:induction false} ProblemsOfAppend(a: seq<Problem>, b: seq<Problem>, kind: Kind)
    ensures ProblemsOf(a + b, kind) == ProblemsOf(a, kind) + ProblemsOf(b, kind)
  {
    if b == [] {
      assert a + b == a;
    } else {
      assert (a + b)[..|a + b| - 1] == a + b[..|b| - 1];
      ProblemsOfAppend(a, b[..|b| - 1], kind);
    }
  }

  /** There is one problem of the kind per invalid record of the kind. */
  predicate Explained(report: Report, kind: Kind) {
    ProblemsOf(report.problems, kind) == Count(report.invalid, kind)
  }

  lemma RejectedCounts(report: Report, rejected: Kind, identity: Option<string>, message: string, kind: Kind)
    ensures var after := report.Rejected(rejected, identity, message);
            && after.Total(kind) == report.Total(kind) + (if kind == rejected then 1 else 0)
            && (Explained(report, kind) ==> Explained(after, kind))
  {
    var problem := report.Rejected(rejected, identity, message).problems[|report.problems|];
    ProblemsOfAppend(report.problems, [problem], kind);
  }

  function ProblemsBelow(problems: seq<Problem>, n: nat): nat {
    if n == 0 then 0 else ProblemsBelow(problems, n - 1) + ProblemsOf(problems, KindAt(n - 1))
  }

  lemma {:induction false} ProblemsBelowSnoc(problems: seq<Problem>, n: nat)
    requires problems != [] && n <= 8
    ensures ProblemsBelow(problems, n)
            == ProblemsBelow(problems[..|problems| - 1], n) + if Rank(problems[|problems| - 1].kind) < n then 1 else 0
  {
    if n > 0 {
      ProblemsBelowSnoc(problems, n - 1);
    }
  }

  lemma {:induction false} NoProblems(n: nat)
    ensures ProblemsBelow([], n) == 0
  {
    if n > 0 {
      NoProblems(n - 1);
    }
  }

  lemma {:induction false} EveryProblemHasAKind(problems: seq<Problem>)
    ensures ProblemsBelow(problems, 8) == |problems|
  {
    if problems == [] {
      NoProblems(8);
    } else {
      ProblemsBelowSnoc(problems, 8);
      EveryProblemHasAKind(problems[..|problems| - 1]);
    }
  }

  lemma {:induction false} ListedInvalid(report: Report, n: nat)
    requires n <= 8 && forall kind :: Explained(report, kind)
    ensures StatedInvalid(Listed(report, n)) == ProblemsBelow(report.problems, n)
  {
    if n > 0 {
      ListedInvalid(report, n - 1);
      StatedSnoc(Listed(report, n - 1), report.TallyOf(KindAt(n - 1)), KindAt(n - 1));
      assert Explained(report, KindAt(n - 1));
    }
  }

  /** When every kind is explained, a response lists as many problems as its tallies say are invalid. */
  lemma ProblemsAreInvalids(report: Report)
    requires forall kind :: Explained(report, kind)
    ensures |Respond(report).problems| == StatedInvalid(Respond(report).tallies)
  {
    ListedInvalid(report, 8);
    EveryProblemHasAKind(report.problems);
  }
}
