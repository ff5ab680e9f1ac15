/**
 Which member of a family of repaired workflows is offered. A help rate is the
 exact quotient of its two counts.
 */
module Promotion {
  import opened Common

  /** Times a workflow was run, and how many of those ended satisfied. */
  datatype Score = Score(applied: nat, helped: nat) {
    function Rate(): real {
      if applied == 0 then 0.0 else helped as real / applied as real
    }

    function Success(): Score { Score(applied + 1, helped + 1) }
  }

  datatype Member = Member(id: string, score: Score)

  const MIN_TRIALS: nat := 3

  /** Proven and has helped, unproven, proven and never helped. */
  function Band(s: Score): nat {
    if s.applied < MIN_TRIALS then 1 else if s.helped > 0 then 0 else 2
  }

  /** The comparison of two members by band, rate, trials and lineage position. */
  predicate Beats(a: Score, i: nat, b: Score, j: nat) {
    || Band(a) < Band(b)
    || (Band(a) == Band(b) &&
        (|| a.Rate() > b.Rate()
         || (a.Rate() == b.Rate() && (a.applied > b.applied || (a.applied == b.applied && i < j)))))
  }

  lemma BeatsIsStrictTotal(a: Score, i: nat, b: Score, j: nat, c: Score, k: nat)
    ensures !Beats(a, i, a, i)
    ensures i != j ==> (Beats(a, i, b, j) <==> !Beats(b, j, a, i))
    ensures Beats(a, i, b, j) && Beats(b, j, c, k) ==> Beats(a, i, c, k)
  {
  }

  /** The position of the best of the first `n` members; an equal one never displaces an earlier one. */
  function Best(family: seq<Member>, n: nat): (r: nat)
    requires 0 < n <= |family|
    ensures r < n
  {
    if n == 1 then 0
    else
      var best := Best(family, n - 1);
      if Beats(family[n - 1].score, n - 1, family[best].score, best) then n - 1 else best
  }

  function Champion(family: seq<Member>): Option<string> {
    if family == [] then None else Some(family[Best(family, |family|)].id)
  }

  predicate Leads(family: seq<Member>, r: nat, n: nat)
    requires r < |family| && n <= |family|
  {
    forall j | 0 <= j < n && j != r :: Beats(family[r].score, r, family[j].score, j)
  }

  lemma {:induction false} BestLeads(family: seq<Member>, n: nat)
    requires 0 < n <= |family|
    ensures Leads(family, Best(family, n), n)
  {
    if n > 1 {
      BestLeads(family, n - 1);
      var best, r := Best(family, n - 1), Best(family, n);
      forall j | 0 <= j < n && j != r
        ensures Beats(family[r].score, r, family[j].score, j)
      {
        BeatsIsStrictTotal(family[r].score, r, family[best].score, best, family[j].score, j);
      }
    }
  }

  /** The champion is the one member that beats every other. */
  lemma ChampionIsLeast(family: seq<Member>, r: nat)
    requires r < |family|
    ensures Leads(family, r, |family|) <==> r == Best(family, |family|)
  {
    var best := Best(family, |family|);
    BestLeads(family, |family|);
    if r != best {
      BeatsIsStrictTotal(family[r].score, r, family[best].score, best, family[r].score, r);
    }
  }

  /** One more success never lowers a rate. */
  lemma SuccessRaisesRate(s: Score)
    requires s.helped <= s.applied
    ensures s.Success().Rate() >= s.Rate()
  {
    if s.applied > 0 {
      var h, a := s.helped as real, s.applied as real;
      assert (h + 1.0) * a >= h * (a + 1.0);
      QuotientsOrdered(h + 1.0, a + 1.0, h, a);
    }
  }

  lemma QuotientsOrdered(x: real, y: real, u: real, v: real)
    requires y > 0.0 && v > 0.0 && x * v >= u * y
    ensures x / y >= u / v
  {
    assert x / y - u / v == (x * v - u * y) / (y * v);
  }

  lemma SuccessStillBeats(a: Score, i: nat, b: Score, j: nat)
    requires Beats(a, i, b, j) && a.helped <= a.applied
    ensures Beats(a.Success(), i, b, j)
  {
    SuccessRaisesRate(a);
  }

  /** A success of the champion never dethrones it, whatever bands it moves through. */
  lemma SuccessKeepsChampion(family: seq<Member>)
    requires family != [] && forall m | m in family :: m.score.helped <= m.score.applied
    ensures var best := Best(family, |family|);
            var after := family[best := family[best].(score := family[best].score.Success())];
            Best(after, |after|) == best && Champion(after) == Champion(family)
  {
    var best := Best(family, |family|);
    var after := family[best := family[best].(score := family[best].score.Success())];
    BestLeads(family, |family|);
    assert family[best] in family;
    forall j | 0 <= j < |after| && j != best
      ensures Beats(after[best].score, best, after[j].score, j)
    {
      SuccessStillBeats(family[best].score, best, family[j].score, j);
    }
    ChampionIsLeast(after, best);
  }

  /**
   A member proven to help is preferred to an unproven one, and that to one
   proven useless; and a family where all stand alike keeps its root.
   */
  lemma ChampionPreference(family: seq<Member>)
    requires family != []
    ensures var s := family[Best(family, |family|)].score;
            && ((exists m :: m in family && m.score.applied >= 3 && m.score.helped > 0) ==>
                  s.applied >= 3 && s.helped > 0)
            && ((exists m :: m in family && m.score.applied < 3) ==> s.applied < 3 || s.helped > 0)
            && ((forall m | m in family :: m.score == family[0].score) ==> Best(family, |family|) == 0)
  {
    forall m | m in family
      ensures Band(family[Best(family, |family|)].score) <= Band(m.score)
    {
      var j :| 0 <= j < |family| && family[j] == m;
      ChampionBand(family, j);
    }
    BestLeads(family, |family|);
    assert family[Best(family, |family|)] in family;
  }

  // -------------------------------------------------------------------- Standing

  datatype Standing = Unproven | Reigning | Beaten

  function Find(family: seq<Member>, id: string): (p: nat)
    ensures p <= |family|
    ensures p < |family| ==> family[p].id == id
    ensures forall i | 0 <= i < p :: family[i].id != id
  {
    if family == [] || family[0].id == id then 0 else 1 + Find(family[1..], id)
  }

  /** `Reigning` is the standing of the champion once it is proven. */
  function StandingOf(id: string, family: seq<Member>): Standing {
    var p := Find(family, id);
    if p == |family| || Band(family[p].score) == 1 then Unproven
    else if Champion(family) == Some(id) then Reigning
    else Beaten
  }

  /** No member's band is below the champion's. */
  lemma ChampionBand(family: seq<Member>, j: nat)
    requires j < |family|
    ensures Band(family[Best(family, |family|)].score) <= Band(family[j].score)
  {
    BestLeads(family, |family|);
  }

  ghost predicate UniqueIds(family: seq<Member>) {
    forall i, j | 0 <= i < j < |family| :: family[i].id != family[j].id
  }

  /**
   At most one member reigns, and one does exactly when the family is not empty
   and either some member is proven and has helped or all are proven useless.
   */
  lemma OneReigns(family: seq<Member>)
    requires UniqueIds(family)
    ensures forall a, b | StandingOf(a, family).Reigning? && StandingOf(b, family).Reigning? :: a == b
    ensures (exists id :: StandingOf(id, family).Reigning?) <==>
              && family != []
              && (|| (exists m :: m in family && m.score.applied >= 3 && m.score.helped > 0)
                  || (forall m | m in family :: m.score.applied >= 3 && m.score.helped == 0))
  {
    if family != [] {
      var best := Best(family, |family|);
      var id := family[best].id;
      assert Find(family, id) == best by {
        var p := Find(family, id);
        assert p <= best;
      }
      assert StandingOf(id, family).Reigning? <==> Band(family[best].score) != 1;
      forall m | m in family
        ensures Band(family[best].score) <= Band(m.score)
      {
        var j :| 0 <= j < |family| && family[j] == m;
        ChampionBand(family, j);
      }
      assert family[best] in family;
    }
  }
}
