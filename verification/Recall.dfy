/**
 Which lessons a planner is shown: all of the requested kind when they fit, and
 otherwise every constraint and the best of the rest. A help rate is the exact
 quotient of its two counts.
 */
module Recall {
  import opened Common
  import opened TextOrder

  datatype LessonKind = Strategy | Constraint | FailureMode | Calibration

  datatype Lesson =
    Lesson(id: string, kind: LessonKind, trigger: string, mechanism: string, claim: string, applied: nat, helped: nat)
  {
    function Rate(): real {
      if applied == 0 then 0.0 else helped as real / applied as real
    }

    /** Useful at least once, never tried, tried and never useful. */
    function Band(): nat {
      if applied > 0 && helped > 0 then 0 else if applied == 0 then 1 else 2
    }

    predicate Above(other: Lesson) {
      || Band() < other.Band()
      || (Band() == other.Band() && (Rate() > other.Rate() || (Rate() == other.Rate() && Before(id, other.id))))
    }
  }

  lemma AboveIsTotal(a: Lesson, b: Lesson)
    ensures a.id != b.id ==> a.Above(b) || b.Above(a)
    ensures !(a.Above(b) && b.Above(a)) && !a.Above(a)
  {
    BeforeIsTotal(a.id, b.id);
    BeforeIsTotal(a.id, a.id);
  }

  lemma AboveIsTransitive(a: Lesson, b: Lesson, c: Lesson)
    requires a.Above(b) && b.Above(c)
    ensures a.Above(c)
  {
    if Before(a.id, b.id) && Before(b.id, c.id) {
      BeforeIsTransitive(a.id, b.id, c.id);
    }
  }

  /** Useful lessons rank above untried ones, those above useless ones, and a higher rate ranks higher. */
  lemma RanksByUse(a: Lesson, b: Lesson)
    ensures a.applied > 0 && a.helped > 0 && (b.applied == 0 || b.helped == 0) ==> a.Above(b)
    ensures a.applied == 0 && b.applied > 0 && b.helped == 0 ==> a.Above(b)
    ensures a.applied > 0 && b.applied > 0 && b.helped > 0 && a.helped * b.applied > b.helped * a.applied ==> a.Above(b)
  {
    if a.applied > 0 && b.applied > 0 && b.helped > 0 && a.helped * b.applied > b.helped * a.applied {
      assert a.helped > 0;
      RateOrder(a, b);
    }
  }

  lemma RateOrder(a: Lesson, b: Lesson)
    requires a.applied > 0 && b.applied > 0 && a.helped * b.applied > b.helped * a.applied
    ensures a.Rate() > b.Rate()
  {
    var x, y, u, v := a.helped as real, a.applied as real, b.helped as real, b.applied as real;
    assert x * v > u * y;
    assert x / y - u / v == (x * v - u * y) / (y * v);
  }

  // -------------------------------------------------------------------- Retrieval

  predicate Wanted(l: Lesson, kind: Option<LessonKind>) {
    kind.Some? ==> l.kind == kind.value
  }

  function Pool(lessons: seq<Lesson>, kind: Option<LessonKind>): seq<Lesson> {
    if lessons == [] then []
    else Pool(lessons[..|lessons| - 1], kind)
         + if Wanted(lessons[|lessons| - 1], kind) then [lessons[|lessons| - 1]] else []
  }

  /** Puts a lesson after everything it does not rank above. */
  function Insert(ranked: seq<Lesson>, l: Lesson): seq<Lesson> {
    if ranked == [] then [l]
    else if l.Above(ranked[0]) then [l] + ranked
    else [ranked[0]] + Insert(ranked[1..], l)
  }

  function Ranked(lessons: seq<Lesson>): seq<Lesson> {
    if lessons == [] then [] else Insert(Ranked(lessons[..|lessons| - 1]), lessons[|lessons| - 1])
  }

  function Constraints(lessons: seq<Lesson>): seq<Lesson> {
    if lessons == [] then []
    else Constraints(lessons[..|lessons| - 1])
         + if lessons[|lessons| - 1].kind.Constraint? then [lessons[|lessons| - 1]] else []
  }

  function Others(lessons: seq<Lesson>): seq<Lesson> {
    if lessons == [] then []
    else Others(lessons[..|lessons| - 1])
         + if lessons[|lessons| - 1].kind.Constraint? then [] else [lessons[|lessons| - 1]]
  }

  function Take(lessons: seq<Lesson>, k: nat): seq<Lesson> {
    if |lessons| <= k then lessons else lessons[..k]
  }

  function Retrieved(lessons: seq<Lesson>, kind: Option<LessonKind>, k: nat): seq<Lesson> {
    var pool := Ranked(Pool(lessons, kind));
    Constraints(pool) + Take(Others(pool), k)
  }

  /** Filters, sorts, sets the constraints apart, and cuts the rest off at `k`. */
  method Retrieve(lessons: seq<Lesson>, kind: Option<LessonKind>, k: nat) returns (out: seq<Lesson>)
    ensures out == Retrieved(lessons, kind, k)
  {
    var pool := [];
    for i := 0 to |lessons|
      invariant pool == Pool(lessons[..i], kind)
    {
      assert lessons[..i + 1][..i] == lessons[..i];
      if Wanted(lessons[i], kind) {
        pool := pool + [lessons[i]];
      }
    }
    assert lessons[..|lessons|] == lessons;
    pool := Sort(pool);
    var always, rest := Partition(pool);
    out := always + if |rest| <= k then rest else rest[..k];
  }

  method Sort(pool: seq<Lesson>) returns (ranked: seq<Lesson>)
    ensures ranked == Ranked(pool)
  {
    ranked := [];
    for i := 0 to |pool|
      invariant ranked == Ranked(pool[..i])
    {
      assert pool[..i + 1][..i] == pool[..i];
      ranked := InsertInto(ranked, pool[i]);
    }
    assert pool[..|pool|] == pool;
  }

  method Partition(ranked: seq<Lesson>) returns (always: seq<Lesson>, rest: seq<Lesson>)
    ensures always == Constraints(ranked) && rest == Others(ranked)
  {
    always, rest := [], [];
    for i := 0 to |ranked|
      invariant always == Constraints(ranked[..i]) && rest == Others(ranked[..i])
    {
      assert ranked[..i + 1][..i] == ranked[..i];
      if ranked[i].kind.Constraint? {
        always := always + [ranked[i]];
      } else {
        rest := rest + [ranked[i]];
      }
    }
    assert ranked[..|ranked|] == ranked;
  }

  method InsertInto(ranked: seq<Lesson>, l: Lesson) returns (r: seq<Lesson>)
    ensures r == Insert(ranked, l)
  {
    var i := 0;
    while i < |ranked| && !l.Above(ranked[i])
      invariant 0 <= i <= |ranked|
      invariant Insert(ranked, l) == ranked[..i] + Insert(ranked[i..], l)
    {
      assert ranked[i..][1..] == ranked[i + 1..];
      assert ranked[..i] + ([ranked[i]] + Insert(ranked[i + 1..], l)) == ranked[..i + 1] + Insert(ranked[i + 1..], l);
      i := i + 1;
    }
    r := ranked[..i] + [l] + ranked[i..];
  }

  // ------------------------------------------------------------------- Properties

  ghost predicate UniqueIds(lessons: seq<Lesson>) {
    forall i, j | 0 <= i < j < |lessons| :: lessons[i].id != lessons[j].id
  }

  ghost predicate InOrder(lessons: seq<Lesson>) {
    forall i, j | 0 <= i < j < |lessons| :: lessons[i].Above(lessons[j])
  }

  lemma {:induction false} PoolIsFilter(lessons: seq<Lesson>, kind: Option<LessonKind>)
    ensures forall l :: l in Pool(lessons, kind) <==> l in lessons && Wanted(l, kind)
    ensures UniqueIds(lessons) ==> UniqueIds(Pool(lessons, kind))
  {
    if lessons != [] {
      var init, last := lessons[..|lessons| - 1], lessons[|lessons| - 1];
      PoolIsFilter(init, kind);
      assert lessons == init + [last];
      if UniqueIds(lessons) {
        assert forall x | x in init :: x.id != last.id;
      }
    }
  }

  lemma {:induction false} InsertKeeps(ranked: seq<Lesson>, l: Lesson)
    ensures forall x :: x in Insert(ranked, l) <==> x in ranked || x == l
  {
    if ranked != [] && !l.Above(ranked[0]) {
      InsertKeeps(ranked[1..], l);
      assert ranked == [ranked[0]] + ranked[1..];
    }
  }

  lemma {:induction false} InsertKeepsOrder(ranked: seq<Lesson>, l: Lesson)
    requires InOrder(ranked) && forall x | x in ranked :: x.id != l.id
    ensures InOrder(Insert(ranked, l))
  {
    if ranked != [] {
      AboveIsTotal(l, ranked[0]);
      if l.Above(ranked[0]) {
        forall i | 0 < i < |ranked|
          ensures l.Above(ranked[i])
        {
          AboveIsTransitive(l, ranked[0], ranked[i]);
        }
      } else {
        InsertKeepsOrder(ranked[1..], l);
        InsertKeeps(ranked[1..], l);
        assert forall x | x in ranked[1..] :: ranked[0].Above(x);
      }
    }
  }

  lemma {:induction false} RankedKeeps(lessons: seq<Lesson>)
    ensures forall x :: x in Ranked(lessons) <==> x in lessons
    ensures UniqueIds(lessons) ==> InOrder(Ranked(lessons))
  {
    if lessons != [] {
      var init, last := lessons[..|lessons| - 1], lessons[|lessons| - 1];
      RankedKeeps(init);
      InsertKeeps(Ranked(init), last);
      assert lessons == init + [last];
      if UniqueIds(lessons) {
        InsertKeepsOrder(Ranked(init), last);
      }
    }
  }

  /** A ranking is determined by what it contains. */
  lemma {:induction false} RankingIsUnique(a: seq<Lesson>, b: seq<Lesson>)
    requires InOrder(a) && InOrder(b) && forall x :: x in a <==> x in b
    ensures a == b
  {
    assert a != [] ==> a[0] in b;
    assert b != [] ==> b[0] in a;
    if a != [] {
      FirstIsTop(a, b[0]);
      FirstIsTop(b, a[0]);
      AboveIsTotal(a[0], b[0]);
      TailContents(a);
      TailContents(b);
      RankingIsUnique(a[1..], b[1..]);
      assert a == [a[0]] + a[1..] && b == [b[0]] + b[1..];
    }
  }

  lemma FirstIsTop(a: seq<Lesson>, x: Lesson)
    requires InOrder(a) && x in a
    ensures x == a[0] || a[0].Above(x)
  {
  }

  lemma TailContents(a: seq<Lesson>)
    requires InOrder(a) && a != []
    ensures forall x :: x in a[1..] <==> x in a && x != a[0]
  {
    AboveIsTotal(a[0], a[0]);
    assert a == [a[0]] + a[1..];
  }

  lemma CountsOnce(lessons: seq<Lesson>, x: Lesson)
    requires UniqueIds(lessons)
    ensures multiset(lessons)[x] <= 1
  {
    if x in lessons {
      var p :| 0 <= p < |lessons| && lessons[p] == x;
      assert lessons == lessons[..p] + [x] + lessons[p + 1..];
      assert x !in lessons[..p] && x !in lessons[p + 1..];
      assert multiset(lessons) == multiset(lessons[..p]) + multiset([x]) + multiset(lessons[p + 1..]);
    }
  }

  lemma Repeats(lessons: seq<Lesson>, i: nat, j: nat)
    requires i < j < |lessons|
    ensures lessons[i] == lessons[j] ==> multiset(lessons)[lessons[i]] >= 2
  {
    assert lessons == lessons[..j] + lessons[j..];
    assert lessons[i] in lessons[..j] && lessons[j] in lessons[j..];
    assert multiset(lessons) == multiset(lessons[..j]) + multiset(lessons[j..]);
  }

  lemma UniqueIdsPermute(a: seq<Lesson>, b: seq<Lesson>)
    requires UniqueIds(a) && multiset(a) == multiset(b)
    ensures UniqueIds(b)
  {
    forall i, j | 0 <= i < j < |b|
      ensures b[i].id != b[j].id
    {
      CountsOnce(a, b[i]);
      Repeats(b, i, j);
      assert b[i] != b[j];
      assert b[i] in multiset(a) && b[j] in multiset(a);
    }
  }

  /** The answer does not depend on the order lessons come in. */
  lemma OrderDoesNotMatter(a: seq<Lesson>, b: seq<Lesson>, kind: Option<LessonKind>, k: nat)
    requires UniqueIds(a) && multiset(a) == multiset(b)
    ensures Retrieved(a, kind, k) == Retrieved(b, kind, k)
  {
    UniqueIdsPermute(a, b);
    forall x
      ensures x in a <==> x in b
    {
      assert x in a <==> x in multiset(a);
      assert x in b <==> x in multiset(b);
    }
    PoolIsFilter(a, kind);
    PoolIsFilter(b, kind);
    RankedKeeps(Pool(a, kind));
    RankedKeeps(Pool(b, kind));
    RankingIsUnique(Ranked(Pool(a, kind)), Ranked(Pool(b, kind)));
  }

  lemma {:induction false} PartitionKeeps(lessons: seq<Lesson>)
    ensures forall x :: x in Constraints(lessons) <==> x in lessons && x.kind.Constraint?
    ensures forall x :: x in Others(lessons) <==> x in lessons && !x.kind.Constraint?
  {
    if lessons != [] {
      var init, last := lessons[..|lessons| - 1], lessons[|lessons| - 1];
      PartitionKeeps(init);
      assert lessons == init + [last];
    }
  }

  lemma {:induction false} OthersInOrder(lessons: seq<Lesson>)
    requires InOrder(lessons)
    ensures InOrder(Others(lessons))
  {
    if lessons != [] {
      var init, last := lessons[..|lessons| - 1], lessons[|lessons| - 1];
      OthersInOrder(init);
      PartitionKeeps(init);
      assert forall x | x in init :: x.Above(last);
    }
  }

  /** Every constraint of the requested kind is kept, and nothing comes back that was not asked for. */
  lemma KeepsConstraints(lessons: seq<Lesson>, kind: Option<LessonKind>, k: nat, l: Lesson)
    ensures l in lessons && Wanted(l, kind) && l.kind.Constraint? ==> l in Retrieved(lessons, kind, k)
    ensures l in Retrieved(lessons, kind, k) ==> l in lessons && Wanted(l, kind)
    ensures |Others(Ranked(Pool(lessons, kind)))| <= k && l in lessons && Wanted(l, kind) ==>
              l in Retrieved(lessons, kind, k)
  {
    PoolIsFilter(lessons, kind);
    RankedKeeps(Pool(lessons, kind));
    PartitionKeeps(Ranked(Pool(lessons, kind)));
  }

  /** Every other lesson left out ranks below every other lesson kept. */
  lemma OmittedRankBelow(lessons: seq<Lesson>, kind: Option<LessonKind>, k: nat, kept: Lesson, omitted: Lesson)
    requires UniqueIds(lessons)
    requires kept in Retrieved(lessons, kind, k) && !kept.kind.Constraint?
    requires omitted in lessons && Wanted(omitted, kind) && omitted !in Retrieved(lessons, kind, k)
    ensures kept.Above(omitted)
  {
    PoolIsFilter(lessons, kind);
    var ranked := Ranked(Pool(lessons, kind));
    RankedKeeps(Pool(lessons, kind));
    PartitionKeeps(ranked);
    OthersInOrder(ranked);
    var rest := Others(ranked);
    var taken := Take(rest, k);
    assert taken == rest[..|taken|];
    assert omitted in rest && kept in taken;
    var i :| 0 <= i < |taken| && taken[i] == kept;
    var j :| 0 <= j < |rest| && rest[j] == omitted;
    assert j < |taken| ==> taken[j] in taken;
  }
}
