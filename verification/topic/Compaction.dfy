/** The rollup as a transformation of logs (topic/rollup.go): the baseline it publishes, and why no reader can tell. */
module Compaction {
  import opened Prelude
  import opened Vocabulary
  import opened Fold
  import opened EssenceOfTopic
  import opened Soundness
  import opened Likeness

  // ----- the baseline a rollup publishes

  /** The payload baked from a materialised view. */
  function RollupPayload(mt: MaterializedTopic): BaselinePayload {
    BaselinePayload(
      mt.baselineState, mt.frontier,
      Some(BakedState(CleanContributions(mt.contributions), CleanAttachments(mt.attachments),
                      CleanWorkItems(mt.workItems), CleanGrants(mt.grants), mt.lifecycle)),
      None)
  }

  function RollupRecord(mt: MaterializedTopic, id: OpId, author: Persona, ts: Time): (r: Record)
    ensures r.op.Baseline?
  {
    Record(id, author, mt.frontier, ts, Baseline(true, RollupPayload(mt)))
  }

  /** A payload that says, field by field, everything the view says, and carries nothing volatile. */
  ghost predicate Bakes(p: BaselinePayload, mt: MaterializedTopic) {
    && p.frontier == mt.frontier && p.state == mt.baselineState && p.manifest.None? && p.baked.Some?
    && var b := p.baked.value;
    && BakedTalks(mt.contributions, b.contributions) && BakedFiles(mt.attachments, b.attachments)
    && BakedItems(mt.workItems, b.workItems) && BakedGrants(mt.grants, b.grants) && b.lifecycle == mt.lifecycle
  }

  lemma PayloadBakes(mt: MaterializedTopic)
    ensures Bakes(RollupPayload(mt), mt)
  {
    TalksBaked(mt.contributions);
    FilesBaked(mt.attachments);
    ItemsBaked(mt.workItems);
    GrantsBaked(mt.grants);
    hide BakedTalks, BakedFiles, BakedItems, BakedGrants, CleanContributions, CleanAttachments, CleanWorkItems,
        CleanGrants;
  }

  /** What a rollup publishes: a baseline that parents onto the leaves, continues from them and bakes the view. */
  lemma RollupBakes(mt: MaterializedTopic, id: OpId, author: Persona, ts: Time)
    ensures var rb := RollupRecord(mt, id, author, ts);
      && rb.id == id && rb.author == author && rb.ts == ts && rb.parents == mt.frontier
      && rb.op.Baseline? && rb.op.readable && Bakes(rb.op.baseline, mt)
  {
    PayloadBakes(mt);
    hide Bakes, RollupPayload;
  }

  // ----- what the view of a log reveals of the fold's essence

  lemma ViewEssence(path: string, log: seq<SeqRecord>)
    requires StartsWithBaseline(log)
    ensures var mt, e := View(path, log), EssenceOf(FoldLog(log));
      && mt.path == path && mt.malformed.None? && mt.baselineState == e.baselineState && mt.lifecycle == e.lifecycle
      && CleanContributions(mt.contributions) == e.contributions && CleanAttachments(mt.attachments) == e.attachments
      && CleanWorkItems(mt.workItems) == e.workItems && CleanGrants(mt.grants) == e.grants
      && mt.frontier == SortIds(e.leaves)
  {
    var s := FoldLog(log);
    MarksCleaned(s.contributions, s.attachments, s.seen);
    hide FoldLog, SettledLifecycle, Leaves, CleanContributions, CleanAttachments, CleanWorkItems, CleanGrants,
        MarkContributions, MarkAttachments;
  }

  lemma MarksCleaned(cs: seq<Contribution>, xs: seq<Attachment>, seen: set<OpId>)
    ensures CleanContributions(MarkContributions(cs, seen)) == CleanContributions(cs)
    ensures CleanAttachments(MarkAttachments(xs, seen)) == CleanAttachments(xs)
  {
    hide CleanStamps;
  }

  /** Every id a causal log carries or names. */
  function IdsOf(log: seq<SeqRecord>): set<OpId>
    requires |log| > 0
  {
    Mentions(log[0].record) + Mentioned(log[1..])
  }

  // ----- equal essence is kept by any causal tail

  lemma {:induction false} EssenceTail(known: set<OpId>, a: State, b: State, tail: seq<SeqRecord>)
    requires Bounded(a) && Bounded(b) && Sound(a) && Sound(b) && EssenceOf(a) == EssenceOf(b)
    requires Covers(known, a) && Covers(known, b) && Causal(known, tail)
    ensures EssenceOf(FoldFrom(a, tail)) == EssenceOf(FoldFrom(b, tail))
  {
    if |tail| > 0 {
      var n := |tail| - 1;
      EssenceTail(known, a, b, tail[..n]);
      TailSound(known, a, tail[..n]);
      TailSound(known, b, tail[..n]);
      hide EssenceOf, Sound, Step;
      EssenceStep(FoldFrom(a, tail[..n]), FoldFrom(b, tail[..n]), tail[n], tail[n]);
    }
  }

  /** Without mid-log checkpoints a causal tail always leaves a leaf to parent onto. */
  lemma {:induction false} LeavesTail(known: set<OpId>, s: State, tail: seq<SeqRecord>)
    requires Bounded(s) && Sound(s) && Covers(known, s) && Causal(known, tail) && Leaves(s) != {}
    requires forall i :: 0 <= i < |tail| ==> !tail[i].record.op.Baseline?
    ensures Leaves(FoldFrom(s, tail)) != {}
  {
    if |tail| > 0 {
      var n := |tail| - 1;
      TailSound(known, s, tail[..n]);
      hide Sound, Step;
      LeavesStep(FoldFrom(s, tail[..n]), tail[n]);
    }
  }

  // ----- the seed of a rollup has the essence of the log it replaces

  lemma CleanIdempotent(s: State)
    ensures var e := EssenceOf(s);
      && CleanContributions(e.contributions) == e.contributions && CleanAttachments(e.attachments) == e.attachments
      && CleanWorkItems(e.workItems) == e.workItems && CleanGrants(e.grants) == e.grants
  {
    var e := EssenceOf(s);
    forall i | 0 <= i < |s.contributions| ensures CleanContribution(e.contributions[i]) == e.contributions[i] {
      assert CleanStamps(CleanStamps(s.contributions[i].edits)) == CleanStamps(s.contributions[i].edits);
    }
    forall i | 0 <= i < |s.workItems| ensures CleanWorkItem(e.workItems[i]) == e.workItems[i] {
      assert CleanWorkEvents(CleanWorkEvents(s.workItems[i].timeline)) == CleanWorkEvents(s.workItems[i].timeline);
    }
    forall i | 0 <= i < |s.grants| ensures CleanGrant(e.grants[i]) == e.grants[i] {
      assert CleanGrantEvents(CleanGrantEvents(s.grants[i].timeline)) == CleanGrantEvents(s.grants[i].timeline);
    }
  }

  /** Cleaning touches no id. */
  lemma ChainsClean(s: State)
    ensures ContributionChains(CleanContributions(s.contributions)) == ContributionChains(s.contributions)
    ensures AttachmentChains(CleanAttachments(s.attachments)) == AttachmentChains(s.attachments)
    ensures WorkChains(CleanWorkItems(s.workItems)) == WorkChains(s.workItems)
    ensures GrantChains(CleanGrants(s.grants)) == GrantChains(s.grants)
  {
    forall i | 0 <= i < |s.contributions|
      ensures StampIds(CleanContribution(s.contributions[i]).edits) == StampIds(s.contributions[i].edits) {
    }
  }

  /** The payload depends on the log only through its essence: whoever compacts bakes the same content. */
  lemma PayloadFromEssence(path: string, log: seq<SeqRecord>)
    requires StartsWithBaseline(log)
    ensures var e := EssenceOf(FoldLog(log));
      RollupPayload(View(path, log)) ==
      BaselinePayload(e.baselineState, SortIds(e.leaves),
                      Some(BakedState(e.contributions, e.attachments, e.workItems, e.grants, e.lifecycle)), None)
  {
    ViewEssence(path, log);
  }

  ghost predicate IsRollupOf(rb: Record, e: Essence) {
    && rb.op == Baseline(true, BaselinePayload(e.baselineState, SortIds(e.leaves),
                  Some(BakedState(e.contributions, e.attachments, e.workItems, e.grants, e.lifecycle)), None))
    && rb.parents == SortIds(e.leaves)
  }

  lemma SeedElements(s: State, rb: Record)
    requires Sound(s) && IsRollupOf(rb, EssenceOf(s))
    ensures EssenceOf(Seed(rb)).(leaves := {}) == EssenceOf(s).(leaves := {})
  {
    hide IndexOf;
    CleanIdempotent(s);
    ChainsClean(s);
  }

  lemma SeedLeaves(rb: Record, e: Essence)
    requires IsRollupOf(rb, e)
    ensures e.leaves != {} ==> Leaves(Seed(rb)) == e.leaves
    ensures e.leaves == {} && rb.id !in BakedIds(BakedOf(rb.op.baseline)) ==> Leaves(Seed(rb)) == {rb.id}
  {
    hide BakedIds;
    assert e.leaves == {} ==> SortIds(e.leaves) == [];
  }

  /** The rolled-up baseline folds to the essence it was baked from. */
  lemma SeedEssence(s: State, rb: Record)
    requires Sound(s) && IsRollupOf(rb, EssenceOf(s)) && Leaves(s) != {}
    ensures EssenceOf(Seed(rb)) == EssenceOf(s) && Sound(Seed(rb))
  {
    SeedElements(s, rb);
    SeedLeaves(rb, EssenceOf(s));
    SeedSound(rb);
  }

  lemma RollupIsRollup(path: string, log: seq<SeqRecord>, id: OpId, author: Persona, ts: Time)
    requires StartsWithBaseline(log)
    ensures IsRollupOf(RollupRecord(View(path, log), id, author, ts), EssenceOf(FoldLog(log)))
  {
    PayloadFromEssence(path, log);
    ViewEssence(path, log);
  }

  /** A rollup bakes the ids of every element, and no others. */
  lemma BakedSame(s: State, rb: Record)
    requires IsRollupOf(rb, EssenceOf(s))
    ensures BakedIds(BakedOf(rb.op.baseline)) == ElementIds(s)
  {
    hide IndexOf;
    ChainsClean(s);
    CleanWorkEventIds(s.workItems);
    CleanGrantEventIds(s.grants);
  }

  lemma ElementsSeen(s: State)
    requires Sound(s)
    ensures ElementIds(s) <= s.seen
  {
    hide IndexOf;
  }

  /** A rollup parents onto the leaves and continues from them. */
  lemma RollupShape(s: State, rb: Record)
    requires IsRollupOf(rb, EssenceOf(s))
    ensures rb.op.Baseline? && rb.parents == rb.op.baseline.frontier && Elems(rb.parents) == Leaves(s)
    ensures rb.parents == [] <==> Leaves(s) == {}
  {
  }

  /** A rolled-up baseline names nothing its log had not seen. */
  lemma SeedCovered(known: set<OpId>, s: State, rb: Record)
    requires Sound(s) && Covers(known, s) && IsRollupOf(rb, EssenceOf(s))
    ensures Covers(known + {rb.id}, Seed(rb))
  {
    BakedSame(s, rb);
    ElementsSeen(s);
    RollupShape(s, rb);
    assert Leaves(s) <= s.seen;
    hide BakedIds, ElementIds, IsRollupOf, EssenceOf, Sound, Seed, Leaves, Elems, BakedOf;
    SeedGraph(rb);
  }

  lemma CleanWorkEventIds(ws: seq<WorkItem>)
    ensures WorkEventIds(CleanWorkItems(ws)) == WorkEventIds(ws)
  {
    var cs := CleanWorkItems(ws);
    forall w, ev | w in ws && ev in w.timeline ensures ev.opId in WorkEventIds(cs) {
      var i :| 0 <= i < |ws| && ws[i] == w;
      var j :| 0 <= j < |w.timeline| && w.timeline[j] == ev;
      assert cs[i] in cs && cs[i].timeline[j] in cs[i].timeline && cs[i].timeline[j].opId == ev.opId;
    }
    forall c, ev | c in cs && ev in c.timeline ensures ev.opId in WorkEventIds(ws) {
      var i :| 0 <= i < |cs| && cs[i] == c;
      var j :| 0 <= j < |c.timeline| && c.timeline[j] == ev;
      assert ws[i] in ws && ws[i].timeline[j] in ws[i].timeline && ws[i].timeline[j].opId == ev.opId;
    }
  }

  lemma CleanGrantEventIds(gs: seq<Grant>)
    ensures GrantEventIds(CleanGrants(gs)) == GrantEventIds(gs)
  {
    var cs := CleanGrants(gs);
    forall g, ev | g in gs && ev in g.timeline ensures ev.opId in GrantEventIds(cs) {
      var i :| 0 <= i < |gs| && gs[i] == g;
      var j :| 0 <= j < |g.timeline| && g.timeline[j] == ev;
      assert cs[i] in cs && cs[i].timeline[j] in cs[i].timeline && cs[i].timeline[j].opId == ev.opId;
    }
    forall c, ev | c in cs && ev in c.timeline ensures ev.opId in GrantEventIds(gs) {
      var i :| 0 <= i < |cs| && cs[i] == c;
      var j :| 0 <= j < |c.timeline| && c.timeline[j] == ev;
      assert gs[i] in gs && gs[i].timeline[j] in gs[i].timeline && gs[i].timeline[j].opId == ev.opId;
    }
  }

  // ----- the theorems

  /** Two views no reader can tell apart, volatile fields, dangling marks, warnings and the checkpoint itself aside:
      every other field of every element is the same. */
  ghost predicate SameTopic(a: MaterializedTopic, b: MaterializedTopic) {
    && a.path == b.path && a.malformed == b.malformed && a.baselineState == b.baselineState
    && a.lifecycle == b.lifecycle && a.frontier == b.frontier
    && SameTalks(a.contributions, b.contributions) && SameFiles(a.attachments, b.attachments)
    && SameItems(a.workItems, b.workItems) && SameGrants(a.grants, b.grants)
  }

  /** The same, told of cleaned elements. */
  lemma TopicsAlike(a: MaterializedTopic, b: MaterializedTopic)
    ensures SameTopic(a, b) <==>
      && a.path == b.path && a.malformed == b.malformed && a.baselineState == b.baselineState
      && a.lifecycle == b.lifecycle && a.frontier == b.frontier
      && CleanContributions(a.contributions) == CleanContributions(b.contributions)
      && CleanAttachments(a.attachments) == CleanAttachments(b.attachments)
      && CleanWorkItems(a.workItems) == CleanWorkItems(b.workItems)
      && CleanGrants(a.grants) == CleanGrants(b.grants)
  {
    TalksAlike(a.contributions, b.contributions);
    FilesAlike(a.attachments, b.attachments);
    ItemsAlike(a.workItems, b.workItems);
    GrantsAlike(a.grants, b.grants);
    hide SameTalks, SameFiles, SameItems, SameGrants, CleanContributions, CleanAttachments, CleanWorkItems, CleanGrants;
  }

  lemma KnownCovered(log: seq<SeqRecord>, s: State, rb: Record)
    requires CausalLog(log) && s == FoldLog(log) && IsRollupOf(rb, EssenceOf(s))
    ensures Sound(s) && Covers(IdsOf(log) + {rb.id}, s) && Covers(IdsOf(log) + {rb.id}, Seed(rb))
  {
    LogSound(log);
    SeedCovered(IdsOf(log), s, rb);
  }

  lemma SameEssenceSameTopic(path: string, l: seq<SeqRecord>, m: seq<SeqRecord>)
    requires StartsWithBaseline(l) && StartsWithBaseline(m) && EssenceOf(FoldLog(l)) == EssenceOf(FoldLog(m))
    ensures SameTopic(View(path, l), View(path, m))
  {
    hide EssenceOf, View, SameTopic;
    ViewEssence(path, l);
    ViewEssence(path, m);
    TopicsAlike(View(path, l), View(path, m));
  }

  lemma FoldFromBaseline(rb: SeqRecord, tail: seq<SeqRecord>)
    requires rb.record.op.Baseline?
    ensures StartsWithBaseline([rb] + tail) && FoldLog([rb] + tail) == FoldFrom(Seed(rb.record), tail)
  {
    assert ([rb] + tail)[1..] == tail;
  }

  lemma LongerLog(log: seq<SeqRecord>, tail: seq<SeqRecord>)
    requires StartsWithBaseline(log)
    ensures StartsWithBaseline(log + tail)
  {
  }

  lemma FrontierIsLeaves(path: string, log: seq<SeqRecord>)
    requires StartsWithBaseline(log)
    ensures View(path, log).frontier == SortIds(Leaves(FoldLog(log)))
    ensures View(path, log).frontier == [] <==> Leaves(FoldLog(log)) == {}
  {
  }

  /** Compaction is a congruence: whatever follows, the compacted log and the full log read the same. */
  lemma CompactionCongruence(path: string, log: seq<SeqRecord>, rb: SeqRecord, tail: seq<SeqRecord>)
    requires CausalLog(log) && View(path, log).frontier != []
    requires rb.record == RollupRecord(View(path, log), rb.record.id, rb.record.author, rb.record.ts)
    requires Causal(IdsOf(log) + {rb.record.id}, tail)
    ensures SameTopic(View(path, [rb] + tail), View(path, log + tail))
    ensures EssenceOf(FoldLog([rb] + tail)) == EssenceOf(FoldLog(log + tail))
  {
    assert StartsWithBaseline(log) && rb.record.op.Baseline?;
    hide *;
    var s := FoldLog(log);
    RollupIsRollup(path, log, rb.record.id, rb.record.author, rb.record.ts);
    FrontierIsLeaves(path, log);
    KnownCovered(log, s, rb.record);
    SeedEssence(s, rb.record);
    EssenceTail(IdsOf(log) + {rb.record.id}, Seed(rb.record), s, tail);
    FoldLogConcat(log, tail);
    FoldFromBaseline(rb, tail);
    LongerLog(log, tail);
    SameEssenceSameTopic(path, [rb] + tail, log + tail);
  }
}
