/** The frontier as the maximal operations of the parent graph (topic/view.go, the frontier at the end of `apply`). */
module Ancestry {
  import opened Prelude
  import opened Vocabulary
  import opened Fold
  import opened EssenceOfTopic
  import opened Soundness
  import opened Compaction
  import opened Checkpoints

  /** A log from a topic's birth: the baseline bakes nothing and continues nothing, and no checkpoint follows. */
  ghost predicate FromBirth(log: seq<SeqRecord>) {
    && CausalLog(log)
    && log[0].record.parents == [] && log[0].record.op.baseline.frontier == []
       && BakedIds(BakedOf(log[0].record.op.baseline)) == {}
    && forall i :: 1 <= i < |log| ==> !log[i].record.op.Baseline?
  }

  ghost predicate NamedAsParent(log: seq<SeqRecord>, id: OpId) {
    exists j :: 0 <= j < |log| && id in log[j].record.parents
  }

  ghost predicate Carried(log: seq<SeqRecord>, id: OpId) {
    exists j :: 0 <= j < |log| && log[j].record.id == id
  }

  /** Operation `m` is `k` itself or descends from it, parent by parent. */
  ghost predicate Descends(log: seq<SeqRecord>, k: nat, m: nat)
    requires k <= m < |log|
    decreases m - k
  {
    k == m || exists j :: k < j <= m && log[k].record.id in log[j].record.parents && Descends(log, j, m)
  }

  lemma BirthGraph(log: seq<SeqRecord>)
    requires FromBirth(log) && |log| == 1
    ensures forall id :: id in FoldLog(log).seen <==> Carried(log, id)
    ensures forall id :: id in FoldLog(log).referenced <==> NamedAsParent(log, id)
  {
    assert FoldLog(log) == Seed(log[0].record);
    SeedGraph(log[0].record);
    assert log[0].record.parents == [];
    hide FoldLog, Seed, BakedIds, CausalLog;
  }

  lemma CarriedMore(log: seq<SeqRecord>, id: OpId)
    requires |log| > 1
    ensures var n := |log| - 1;
      && (Carried(log, id) <==> Carried(log[..n], id) || id == log[n].record.id)
      && (NamedAsParent(log, id) <==> NamedAsParent(log[..n], id) || id in log[n].record.parents)
  {
    var n := |log| - 1;
    var sooner := log[..n];
    if j :| 0 <= j < |log| && log[j].record.id == id && j < n { assert sooner[j].record.id == id; }
    if j :| 0 <= j < n && sooner[j].record.id == id { assert log[j].record.id == id; }
    if j :| 0 <= j < |log| && id in log[j].record.parents && j < n { assert id in sooner[j].record.parents; }
    if j :| 0 <= j < n && id in sooner[j].record.parents { assert id in log[j].record.parents; }
  }

  lemma {:induction false} GraphIs(log: seq<SeqRecord>)
    requires FromBirth(log)
    ensures StartsWithBaseline(log)
    ensures forall id :: id in FoldLog(log).seen <==> Carried(log, id)
    ensures forall id :: id in FoldLog(log).referenced <==> NamedAsParent(log, id)
  {
    assert StartsWithBaseline(log);
    hide *;
    var n := |log| - 1;
    if n <= 0 {
      StartsNonempty(log);
      BirthGraph(log);
    } else {
      SoonerFromBirth(log);
      GraphIs(log[..n]);
      LogStep(log);
      GraphStep(FoldLog(log[..n]), log[n]);
      forall id ensures id in FoldLog(log).seen <==> Carried(log, id) { CarriedMore(log, id); }
      forall id ensures id in FoldLog(log).referenced <==> NamedAsParent(log, id) {
        CarriedMore(log, id);
        InParents(log[n].record.parents, id);
      }
    }
  }

  lemma StartsNonempty(log: seq<SeqRecord>)
    requires StartsWithBaseline(log)
    ensures |log| > 0
  {
  }

  lemma InParents(parents: seq<OpId>, id: OpId)
    ensures id in Elems(parents) <==> id in parents
  {
  }

  lemma SoonerFromBirth(log: seq<SeqRecord>)
    requires FromBirth(log) && |log| > 1
    ensures FromBirth(log[..|log| - 1]) && !log[|log| - 1].record.op.Baseline?
  {
    var n := |log| - 1;
    hide BakedIds, Mentions;
    assert log[1..][..n - 1] == log[..n][1..];
  }

  lemma LogStep(log: seq<SeqRecord>)
    requires StartsWithBaseline(log) && |log| > 1
    ensures FoldLog(log) == Step(FoldLog(log[..|log| - 1]), log[|log| - 1])
  {
    var n := |log| - 1;
    assert log[1..][..n - 1] == log[..n][1..];
    hide Step, Seed;
  }

  /** Ids are distinct and only earlier operations are named as parents. */
  lemma {:induction false} ParentsComeFirst(log: seq<SeqRecord>, k: nat, j: nat)
    requires FromBirth(log) && k < |log| && j < |log| && log[k].record.id in log[j].record.parents
    ensures k < j
    decreases |log|
  {
    var n := |log| - 1;
    if n == 0 { return; }
    if k < n && j < n {
      SoonerFromBirth(log);
      ParentsComeFirst(log[..n], k, j);
    } else if k == n {
      FreshLast(log, j);
    }
  }

  /** Nothing before the last operation names it, nor does it name itself. */
  lemma FreshLast(log: seq<SeqRecord>, j: nat)
    requires FromBirth(log) && |log| > 1 && j < |log|
    ensures log[|log| - 1].record.id !in log[j].record.parents
  {
    var n := |log| - 1;
    var last := log[n].record;
    assert !last.op.Baseline?;
    assert log[1..][n - 1] == log[n];
    assert last.id !in Mentions(log[0].record) + Mentioned(log[1..][..n - 1]) && last.id !in last.parents;
    hide CausalLog, Causal, FromBirth;
    if j == 0 { MentionsHas(log[0].record); }
    else if j < n {
      assert log[1..][..n - 1][j - 1] == log[j];
      MentionedHas(log[1..][..n - 1], j - 1);
    }
  }

  lemma {:induction false} MentionedHas(log: seq<SeqRecord>, j: nat)
    requires j < |log|
    ensures Mentions(log[j].record) <= Mentioned(log) && Elems(log[j].record.parents) <= Mentioned(log)
  {
    hide Mentions;
    MentionsHas(log[j].record);
    if j < |log| - 1 { MentionedHas(log[..|log| - 1], j); }
  }

  /** The frontier is sorted, non-empty, and exactly the operations nobody names as parent. */
  lemma FrontierIsMaximal(path: string, log: seq<SeqRecord>)
    requires FromBirth(log)
    ensures var frontier := View(path, log).frontier;
      && frontier != [] && StrictlySorted(frontier)
      && forall id :: id in frontier <==> Carried(log, id) && !NamedAsParent(log, id)
  {
    GraphIs(log);
    assert StartsWithBaseline(log);
    BirthLeaves(log);
    FrontierNeverEmpty(path, log);
    ViewFrontier(path, log);
    var s := FoldLog(log);
    hide FromBirth, FoldLog, View, Carried, NamedAsParent;
    forall id ensures id in View(path, log).frontier <==> Carried(log, id) && !NamedAsParent(log, id) {
      assert id in Elems(SortIds(Leaves(s))) <==> id in SortIds(Leaves(s));
    }
  }

  lemma ViewFrontier(path: string, log: seq<SeqRecord>)
    requires StartsWithBaseline(log)
    ensures View(path, log).frontier == SortIds(Leaves(FoldLog(log)))
  {
    hide FoldLog, SettledLifecycle;
  }

  lemma BirthLeaves(log: seq<SeqRecord>)
    requires FromBirth(log)
    ensures Leaves(Seed(log[0].record)) != {} && CausalLog(log)
  {
    SeedGraph(log[0].record);
    hide Seed, CausalLog, BakedIds;
    assert log[0].record.id in Leaves(Seed(log[0].record));
  }

  /** Every operation is an ancestor of, or is, some member of the frontier: what descends from the frontier has seen
      everything. */
  lemma {:induction false} EveryOpReachesFrontier(path: string, log: seq<SeqRecord>, k: nat)
    requires FromBirth(log) && k < |log|
    ensures exists m: nat :: k <= m < |log| && Descends(log, k, m) && log[m].record.id in View(path, log).frontier
    decreases |log| - k
  {
    FrontierIsMaximal(path, log);
    hide View;
    if NamedAsParent(log, log[k].record.id) {
      var j :| 0 <= j < |log| && log[k].record.id in log[j].record.parents;
      ParentsComeFirst(log, k, j);
      hide FromBirth;
      EveryOpReachesFrontier(path, log, j);
      var m: nat :| j <= m < |log| && Descends(log, j, m) && log[m].record.id in View(path, log).frontier;
      assert Descends(log, k, m);
    } else {
      hide FromBirth;
      assert Carried(log, log[k].record.id);
      assert Descends(log, k, k);
    }
  }
}
