/**
 The canonical form that a graph's content hash is taken over: every object's keys
 in order, at every depth, and everything else as it was.
 */
module GraphHash {
  import opened Json
  import opened TextOrder

  // --------------------------------------------------------------------- Sorting

  ghost predicate Sorted(ms: Members) {
    forall i, j | 0 <= i < j < |ms| :: Before(ms[i].0, ms[j].0)
  }

  ghost predicate Unique(ms: Members) {
    forall i, j | 0 <= i < j < |ms| :: ms[i].0 != ms[j].0
  }

  function Pairs(ms: Members): set<(string, Value)> {
    set m | m in ms
  }

  function Insert(ms: Members, m: (string, Value)): Members {
    if ms == [] then [m]
    else if Before(m.0, ms[0].0) then [m] + ms
    else [ms[0]] + Insert(ms[1..], m)
  }

  function SortByKey(ms: Members): Members {
    if ms == [] then [] else Insert(SortByKey(ms[1..]), ms[0])
  }

  lemma PairsOfCons(m: (string, Value), ms: Members)
    ensures Pairs([m] + ms) == {m} + Pairs(ms)
  {
  }

  lemma PairsOfEmpty(ms: Members)
    ensures Pairs(ms) == {} <==> ms == []
  {
    if ms != [] {
      assert ms[0] in Pairs(ms);
    }
  }

  lemma {:induction false} InsertKeeps(ms: Members, m: (string, Value))
    ensures |Insert(ms, m)| == |ms| + 1 && Pairs(Insert(ms, m)) == Pairs(ms) + {m}
  {
    PairsOfCons(m, ms);
    if ms == [] {
      assert Insert(ms, m) == [m] + ms;
    } else if !Before(m.0, ms[0].0) {
      InsertKeeps(ms[1..], m);
      PairsOfCons(ms[0], ms[1..]);
      PairsOfCons(ms[0], Insert(ms[1..], m));
      assert ms == [ms[0]] + ms[1..];
    }
  }

  lemma {:induction false} InsertSorts(ms: Members, m: (string, Value))
    requires Sorted(ms) && forall x | x in ms :: x.0 != m.0
    ensures Sorted(Insert(ms, m))
  {
    if ms != [] {
      BeforeIsTotal(m.0, ms[0].0);
      if Before(m.0, ms[0].0) {
        forall i | 0 < i < |ms|
          ensures Before(m.0, ms[i].0)
        {
          BeforeIsTransitive(m.0, ms[0].0, ms[i].0);
        }
      } else {
        var rest := Insert(ms[1..], m);
        InsertSorts(ms[1..], m);
        InsertKeeps(ms[1..], m);
        forall i | 0 <= i < |rest|
          ensures Before(ms[0].0, rest[i].0)
        {
          assert rest[i] in Pairs(rest);
        }
      }
    }
  }

  lemma {:induction false} SortKeeps(ms: Members)
    ensures |SortByKey(ms)| == |ms| && Pairs(SortByKey(ms)) == Pairs(ms)
  {
    if ms != [] {
      SortKeeps(ms[1..]);
      InsertKeeps(SortByKey(ms[1..]), ms[0]);
      assert ms == [ms[0]] + ms[1..];
    }
  }

  lemma {:induction false} SortSorts(ms: Members)
    requires Unique(ms)
    ensures Sorted(SortByKey(ms))
  {
    if ms != [] {
      var rest := SortByKey(ms[1..]);
      SortSorts(ms[1..]);
      SortKeeps(ms[1..]);
      forall x | x in rest
        ensures x.0 != ms[0].0
      {
        assert x in Pairs(rest);
        var i :| 0 <= i < |ms[1..]| && ms[1..][i] == x;
        assert ms[i + 1] == x;
      }
      InsertSorts(rest, ms[0]);
    }
  }

  /** A list in key order is determined by what it contains. */
  lemma {:induction false} SortedIsUnique(a: Members, b: Members)
    requires Sorted(a) && Sorted(b) && Pairs(a) == Pairs(b)
    ensures a == b
  {
    PairsOfEmpty(a);
    PairsOfEmpty(b);
    if a != [] {
      assert a[0] in Pairs(b);
      assert b[0] in Pairs(a);
      FirstIsLeast(a, b[0]);
      FirstIsLeast(b, a[0]);
      BeforeIsTotal(a[0].0, b[0].0);
      assert a[0] == b[0];
      TailPairs(a);
      TailPairs(b);
      SortedIsUnique(a[1..], b[1..]);
      assert a == [a[0]] + a[1..] && b == [b[0]] + b[1..];
    }
  }

  lemma FirstIsLeast(ms: Members, x: (string, Value))
    requires Sorted(ms) && x in ms
    ensures x == ms[0] || Before(ms[0].0, x.0)
  {
  }

  lemma TailPairs(ms: Members)
    requires Sorted(ms) && ms != []
    ensures Pairs(ms[1..]) == Pairs(ms) - {ms[0]}
  {
    forall x | x in ms[1..]
      ensures x != ms[0]
    {
      BeforeIsTotal(ms[0].0, ms[0].0);
    }
    assert ms == [ms[0]] + ms[1..];
  }

  // -------------------------------------------------------------- Canonical form

  /** Object keys are unique at every depth, as a map's are. */
  ghost predicate WellKeyed(v: Value) {
    match v
    case Object(ms) => Unique(ms) && forall i | 0 <= i < |ms| :: WellKeyed(ms[i].1)
    case Array(items) => forall i | 0 <= i < |items| :: WellKeyed(items[i])
    case _ => true
  }

  function Canonical(v: Value): Value {
    match v
    case Object(ms) => Object(SortByKey(seq(|ms|, i requires 0 <= i < |ms| => (ms[i].0, Canonical(ms[i].1)))))
    case Array(items) => Array(seq(|items|, i requires 0 <= i < |items| => Canonical(items[i])))
    case _ => v
  }

  function KeyPosition(ms: Members, key: string): (p: nat)
    ensures p <= |ms|
    ensures p < |ms| ==> ms[p].0 == key
    ensures forall i | 0 <= i < p :: ms[i].0 != key
  {
    if ms == [] || ms[0].0 == key then 0 else 1 + KeyPosition(ms[1..], key)
  }

  /** Equal but for the order of object keys, at every depth. */
  ghost predicate Same(v: Value, w: Value)
    decreases v
  {
    match v
    case Object(ms) =>
      w.Object? && |w.members| == |ms| &&
      (forall i | 0 <= i < |ms| ::
         var j := KeyPosition(w.members, ms[i].0);
         j < |w.members| && Same(ms[i].1, w.members[j].1))
    case Array(items) =>
      w.Array? && |w.items| == |items| && forall i | 0 <= i < |items| :: Same(items[i], w.items[i])
    case _ => v == w
  }

  function CanonicalMembers(ms: Members): (cs: Members)
    ensures |cs| == |ms|
  {
    seq(|ms|, i requires 0 <= i < |ms| => (ms[i].0, Canonical(ms[i].1)))
  }

  lemma CanonicalObject(ms: Members)
    ensures Canonical(Object(ms)) == Object(SortByKey(CanonicalMembers(ms)))
  {
    assert CanonicalMembers(ms) == seq(|ms|, i requires 0 <= i < |ms| => (ms[i].0, Canonical(ms[i].1)));
  }

  lemma {:induction false} PairsCount(ms: Members)
    requires Unique(ms)
    ensures |Pairs(ms)| == |ms|
  {
    if ms != [] {
      PairsCount(ms[1..]);
      PairsOfCons(ms[0], ms[1..]);
      assert ms == [ms[0]] + ms[1..];
      assert ms[0] !in ms[1..];
    }
  }

  lemma {:induction false} SubsetOfSameSize<T>(a: set<T>, b: set<T>)
    requires a <= b && |a| == |b|
    ensures a == b
  {
    if a != {} {
      var x :| x in a;
      SubsetOfSameSize(a - {x}, b - {x});
    }
  }

  /** The sorted members agree exactly when the members do, as sets. */
  lemma SortedMembersAgree(a: Members, b: Members)
    requires Unique(a) && Unique(b)
    ensures SortByKey(a) == SortByKey(b) <==> Pairs(a) == Pairs(b)
  {
    SortKeeps(a);
    SortKeeps(b);
    SortSorts(a);
    SortSorts(b);
    if Pairs(a) == Pairs(b) {
      SortedIsUnique(SortByKey(a), SortByKey(b));
    }
  }

  /** Member by member, the value under the same key agrees. */
  ghost predicate Matching(ms: Members, ns: Members) {
    |ms| == |ns| &&
    forall i | 0 <= i < |ms| ::
      var j := KeyPosition(ns, ms[i].0);
      j < |ns| && Canonical(ms[i].1) == Canonical(ns[j].1)
  }

  lemma PairsAgree(ms: Members, ns: Members)
    requires Unique(ms) && Unique(ns)
    ensures Pairs(CanonicalMembers(ms)) == Pairs(CanonicalMembers(ns)) <==> Matching(ms, ns)
  {
    var a, b := CanonicalMembers(ms), CanonicalMembers(ns);
    PairsCount(a);
    PairsCount(b);
    if Matching(ms, ns) {
      forall x | x in Pairs(a)
        ensures x in Pairs(b)
      {
        var i :| 0 <= i < |a| && a[i] == x;
        assert b[KeyPosition(ns, ms[i].0)] == x;
      }
      SubsetOfSameSize(Pairs(a), Pairs(b));
    }
    if Pairs(a) == Pairs(b) {
      forall i | 0 <= i < |ms|
        ensures var j := KeyPosition(ns, ms[i].0); j < |ns| && Canonical(ms[i].1) == Canonical(ns[j].1)
      {
        assert a[i] in Pairs(b);
        var j :| 0 <= j < |b| && b[j] == a[i];
        PositionOfKey(ns, j);
      }
    }
  }

  lemma PositionOfKey(ns: Members, j: nat)
    requires Unique(ns) && j < |ns|
    ensures KeyPosition(ns, ns[j].0) == j
  {
    var p := KeyPosition(ns, ns[j].0);
    assert p <= j;
  }

  /** Two values have the same canonical form exactly when they differ only in key order. */
  lemma {:induction false} CanonicalIffSame(v: Value, w: Value)
    requires WellKeyed(v) && WellKeyed(w)
    ensures Canonical(v) == Canonical(w) <==> Same(v, w)
    decreases v
  {
    match v
    case Object(ms) =>
      CanonicalObject(ms);
      if w.Object? {
        CanonicalObject(w.members);
        SortedMembersAgree(CanonicalMembers(ms), CanonicalMembers(w.members));
        PairsAgree(ms, w.members);
        forall i, j | 0 <= i < |ms| && 0 <= j < |w.members|
          ensures Canonical(ms[i].1) == Canonical(w.members[j].1) <==> Same(ms[i].1, w.members[j].1)
        {
          CanonicalIffSame(ms[i].1, w.members[j].1);
        }
      }
    case Array(items) =>
      assert |Canonical(v).items| == |items|;
      if w.Array? {
        assert |Canonical(w).items| == |w.items|;
      }
      if w.Array? && |w.items| == |items| {
        forall i | 0 <= i < |items|
          ensures Canonical(items[i]) == Canonical(w.items[i]) <==> Same(items[i], w.items[i])
        {
          CanonicalIffSame(items[i], w.items[i]);
        }
        ItemsAgree(v, w);
      }
    case Null =>
    case Bool(_) =>
    case Number(_) =>
    case Text(_) =>
  }

  lemma ItemsAgree(v: Value, w: Value)
    requires v.Array? && w.Array? && |v.items| == |w.items|
    ensures Canonical(v) == Canonical(w) <==>
              forall i | 0 <= i < |v.items| :: Canonical(v.items[i]) == Canonical(w.items[i])
  {
    var a, b := Canonical(v).items, Canonical(w).items;
    assert forall i | 0 <= i < |a| :: a[i] == Canonical(v.items[i]) && b[i] == Canonical(w.items[i]);
    if forall i | 0 <= i < |v.items| :: Canonical(v.items[i]) == Canonical(w.items[i]) {
      assert a == b;
    }
  }

  lemma SortedIsUniqueKeyed(ms: Members)
    requires Sorted(ms)
    ensures Unique(ms) && SortByKey(ms) == ms
  {
    forall i, j | 0 <= i < j < |ms|
      ensures ms[i].0 != ms[j].0
    {
      BeforeIsTotal(ms[i].0, ms[j].0);
    }
    SortKeeps(ms);
    SortSorts(ms);
    SortedIsUnique(SortByKey(ms), ms);
  }

  /** The canonical form is canonical. */
  lemma {:induction false} CanonicalIsFixed(v: Value)
    requires WellKeyed(v)
    ensures WellKeyed(Canonical(v)) && Canonical(Canonical(v)) == Canonical(v)
    decreases v
  {
    match v
    case Object(ms) => CanonicalObjectIsFixed(ms);
    case Array(items) =>
      forall i | 0 <= i < |items|
        ensures WellKeyed(Canonical(items[i])) && Canonical(Canonical(items[i])) == Canonical(items[i])
      {
        CanonicalIsFixed(items[i]);
      }
      assert Canonical(Canonical(v)).items == Canonical(v).items;
    case Null =>
    case Bool(_) =>
    case Number(_) =>
    case Text(_) =>
  }

  lemma {:induction false} CanonicalObjectIsFixed(ms: Members)
    requires WellKeyed(Object(ms))
    ensures WellKeyed(Canonical(Object(ms))) && Canonical(Canonical(Object(ms))) == Canonical(Object(ms))
    decreases Object(ms), 0
  {
    var cs := CanonicalMembers(ms);
    var sorted := SortByKey(cs);
    CanonicalObject(ms);
    SortKeeps(cs);
    SortSorts(cs);
    SortedIsUniqueKeyed(sorted);
    forall i | 0 <= i < |sorted|
      ensures WellKeyed(sorted[i].1) && Canonical(sorted[i].1) == sorted[i].1
    {
      assert sorted[i] in Pairs(cs);
      var j :| 0 <= j < |cs| && cs[j] == sorted[i];
      CanonicalIsFixed(ms[j].1);
    }
    assert CanonicalMembers(sorted) == sorted;
    CanonicalObject(sorted);
  }

  /** Every object's keys are in order, at every depth. */
  ghost predicate InOrder(v: Value) {
    match v
    case Object(ms) => Sorted(ms) && forall i | 0 <= i < |ms| :: InOrder(ms[i].1)
    case Array(items) => forall i | 0 <= i < |items| :: InOrder(items[i])
    case _ => true
  }

  lemma {:induction false} CanonicalIsInOrder(v: Value)
    requires WellKeyed(v)
    ensures InOrder(Canonical(v))
    decreases v
  {
    match v
    case Object(ms) =>
      var cs := CanonicalMembers(ms);
      var sorted := SortByKey(cs);
      CanonicalObject(ms);
      SortKeeps(cs);
      SortSorts(cs);
      forall i | 0 <= i < |sorted|
        ensures InOrder(sorted[i].1)
      {
        assert sorted[i] in Pairs(cs);
        var j :| 0 <= j < |cs| && cs[j] == sorted[i];
        CanonicalIsInOrder(ms[j].1);
      }
    case Array(items) =>
      forall i | 0 <= i < |items|
        ensures InOrder(Canonical(items[i]))
      {
        CanonicalIsInOrder(items[i]);
      }
    case Null =>
    case Bool(_) =>
    case Number(_) =>
    case Text(_) =>
  }

  /** Canonicalizing changes nothing but key order. */
  lemma CanonicalIsSame(v: Value)
    requires WellKeyed(v)
    ensures Same(v, Canonical(v))
  {
    CanonicalIsFixed(v);
    CanonicalIffSame(v, Canonical(v));
  }

  // ------------------------------------------------------------------ The program

  function Keys(ms: Members): (ks: seq<string>)
    ensures |ks| == |ms|
  {
    seq(|ms|, i requires 0 <= i < |ms| => ms[i].0)
  }

  function InsertKey(ks: seq<string>, k: string): seq<string> {
    if ks == [] then [k] else if Before(k, ks[0]) then [k] + ks else [ks[0]] + InsertKey(ks[1..], k)
  }

  function SortKeys(ks: seq<string>): seq<string> {
    if ks == [] then [] else InsertKey(SortKeys(ks[1..]), ks[0])
  }

  lemma {:induction false} InsertKeyIsInsert(ms: Members, m: (string, Value))
    ensures Keys(Insert(ms, m)) == InsertKey(Keys(ms), m.0)
  {
    if ms != [] {
      InsertKeyIsInsert(ms[1..], m);
      assert Keys(ms)[1..] == Keys(ms[1..]);
    }
  }

  /** Sorting the keys is sorting the members. */
  lemma {:induction false} SortKeysIsSort(ms: Members)
    ensures Keys(SortByKey(ms)) == SortKeys(Keys(ms))
  {
    if ms != [] {
      SortKeysIsSort(ms[1..]);
      InsertKeyIsInsert(SortByKey(ms[1..]), ms[0]);
      assert Keys(ms)[1..] == Keys(ms[1..]);
    }
  }

  lemma SortedMember(ms: Members, i: nat)
    requires Unique(ms) && i < |ms|
    ensures var sorted := SortByKey(CanonicalMembers(ms));
            && |sorted| == |SortKeys(Keys(ms))| == |ms|
            && var p := KeyPosition(ms, SortKeys(Keys(ms))[i]);
               p < |ms| && sorted[i] == (ms[p].0, Canonical(ms[p].1))
  {
    var cs := CanonicalMembers(ms);
    var sorted := SortByKey(cs);
    SortKeeps(cs);
    SortKeysIsSort(cs);
    assert Keys(cs) == Keys(ms);
    assert SortKeys(Keys(ms))[i] == sorted[i].0;
    assert sorted[i] in Pairs(cs);
    var j :| 0 <= j < |cs| && cs[j] == sorted[i];
    PositionOfKey(ms, j);
  }

  method Canonicalize(v: Value) returns (r: Value)
    requires WellKeyed(v)
    ensures r == Canonical(v)
    decreases v, 1
  {
    match v {
      case Object(ms) =>
        var sorted := CanonicalizeMembers(v);
        CanonicalObject(ms);
        r := Object(sorted);
      case Array(_) =>
        var out := CanonicalizeItems(v);
        r := Array(out);
      case _ => r := v;
    }
  }

  /** The keys of an object are sorted, then its map is filled in that order. */
  method CanonicalizeMembers(v: Value) returns (sorted: Members)
    requires v.Object? && WellKeyed(v)
    ensures sorted == SortByKey(CanonicalMembers(v.members))
    decreases v, 0
  {
    var ms := v.members;
    var keys := SortKeys(Keys(ms));
    sorted := [];
    SortKeysIsSort(CanonicalMembers(ms));
    SortKeeps(CanonicalMembers(ms));
    assert Keys(CanonicalMembers(ms)) == Keys(ms);
    for i := 0 to |keys|
      invariant sorted == SortByKey(CanonicalMembers(ms))[..i]
    {
      SortedMember(ms, i);
      var at := KeyPosition(ms, keys[i]);
      var child := Canonicalize(ms[at].1);
      sorted := sorted + [(keys[i], child)];
    }
  }

  method CanonicalizeItems(v: Value) returns (out: seq<Value>)
    requires v.Array? && WellKeyed(v)
    ensures out == Canonical(v).items
    decreases v, 0
  {
    out := [];
    for i := 0 to |v.items|
      invariant out == Canonical(v).items[..i]
    {
      var child := Canonicalize(v.items[i]);
      out := out + [child];
    }
  }

  // --------------------------------------------------------------------- The hash

  /** The value whose rendering is digested: the graph and the approval flag. */
  function Pinned(graph: Value, requireApproval: bool): Value {
    Object([("graph", graph), ("require_approval", Bool(requireApproval))])
  }

  /** Two pins agree before the digest exactly when the graphs differ only in key order and the flags agree. */
  lemma PinsAgree(graph: Value, flag: bool, graph': Value, flag': bool)
    requires WellKeyed(graph) && WellKeyed(graph')
    ensures Canonical(Pinned(graph, flag)) == Canonical(Pinned(graph', flag')) <==> Same(graph, graph') && flag == flag'
  {
    KeysDiffer();
    PairsSame("graph", graph, graph', "require_approval", Bool(flag), Bool(flag'));
  }

  lemma KeysDiffer()
    ensures "graph" != "require_approval"
  {
    assert "graph"[0] != "require_approval"[0];
  }

  lemma PairsSame(k: string, v: Value, v': Value, l: string, w: Value, w': Value)
    requires k != l && WellKeyed(v) && WellKeyed(v') && WellKeyed(w) && WellKeyed(w')
    ensures Canonical(Object([(k, v), (l, w)])) == Canonical(Object([(k, v'), (l, w')])) <==> Same(v, v') && Same(w, w')
  {
    var ms, ns: Members := [(k, v), (l, w)], [(k, v'), (l, w')];
    CanonicalIffSame(Object(ms), Object(ns));
    PositionOfKey(ns, 0);
    PositionOfKey(ns, 1);
    assert ms[0].0 == ns[0].0 && ms[1].0 == ns[1].0;
  }
}
