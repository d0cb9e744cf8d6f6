/** Concrete inputs on which the code does less than its documentation says, and how far each goes. */
module Shortfalls {
  import opened Prelude
  import opened Vocabulary
  import opened Fold
  import opened EssenceOfTopic
  import opened Soundness
  import opened Compaction
  import opened Checkpoints
  import opened Anchors
  import opened LifecycleRules
  import opened Upkeep
  import opened History
  import opened Manifests
  import opened Machine
  import opened Safety
  import opened Steps
  import opened StepsKept
  import opened WritesKept
  import opened Runs
  import opened Realms
  import opened Requests
  import opened Handles

  // ----- a mark that only a rollup brings

  /** An opening baseline of a given time, and a comment on it. */
  function OpeningAt(ts: Time): SeqRecord {
    SeqRecord(Record("a", "p", [], ts, Baseline(true, BaselinePayload(None, [], None, None))), 1)
  }

  const Remark: SeqRecord := SeqRecord(Record("c", "p", ["a"], 0, CommentAdd(false, "hi", [], "a")), 2)

  /** A comment on a topic's opening baseline resolves until the first rollup, and dangles ever after: the baseline's
      id is neither baked nor on the frontier. */
  lemma RollupCanMark(path: string, ts: Time)
    ensures var log := [OpeningAt(ts), Remark]; var rb := SeqRecord(RollupRecord(View(path, log), "r", "p", 1), 3);
      && View(path, log).contributions != [] && !View(path, log).contributions[0].dangling
      && View(path, [rb]).contributions != [] && View(path, [rb]).contributions[0].dangling
  {
    var log := [OpeningAt(ts), Remark];
    var rb := SeqRecord(RollupRecord(View(path, log), "r", "p", 1), 3);
    OpeningFold(ts);
    var s := FoldLog(log);
    assert View(path, log).contributions[0].anchor == "a" && !View(path, log).contributions[0].dangling;
    RollupIsRollup(path, log, "r", "p", 1);
    hide View, FoldLog, RollupRecord;
    OneContribution(s, rb.record);
    RollupFold(path, rb);
    RollupSees(s, rb.record);
    MarksNew(path, rb, s);
  }

  /** The smallest logs the theorems about compaction speak of: causally ordered, with a frontier to continue from. */
  lemma OpeningIsCausal(path: string, ts: Time)
    ensures CausalLog([OpeningAt(ts), Remark]) && View(path, [OpeningAt(ts), Remark]).frontier != []
      && Unmarked(Seed(OpeningAt(ts).record))
  {
    OpeningFold(ts);
    FrontierIsLeaves(path, [OpeningAt(ts), Remark]);
    assert "c" in Leaves(FoldLog([OpeningAt(ts), Remark]));
    hide View, FoldLog;
    assert BakedIds(BakedState([], [], [], [], Unset)) == {};
    assert Mentions(OpeningAt(ts).record) == {"a"};
    assert [OpeningAt(ts), Remark][1..] == [Remark] && [Remark][..0] == [];
    assert Causal({"a"}, [Remark]);
  }

  lemma OpeningSeed(ts: Time)
    ensures var s := FoldLog([OpeningAt(ts)]);
      && StartsWithBaseline([OpeningAt(ts)]) && s.seen == {"a"} && s.referenced == {}
      && s.contributions == [] && s.attachments == [] && s.workItems == [] && s.grants == []
  {
    SeedGraph(OpeningAt(ts).record);
    assert BakedIds(BakedState([], [], [], [], Unset)) == {};
    assert [OpeningAt(ts)][1..] == [];
    hide BakedIds;
  }

  lemma RemarkStep(s: State)
    requires Bounded(s) && s.contributions == [] && s.seen == {"a"} && s.referenced == {}
    ensures var t := Step(s, Remark);
      && t.seen == {"a", "c"} && t.referenced == {"a"} && t.contributions == [NewComment(Remark)]
      && t.attachments == s.attachments && t.workItems == s.workItems && t.grants == s.grants
  {
    hide Bounded, KeepsGraph;
  }

  lemma OpeningFold(ts: Time)
    ensures var s := FoldLog([OpeningAt(ts), Remark]);
      && StartsWithBaseline([OpeningAt(ts), Remark])
      && s.seen == {"a", "c"} && s.referenced == {"a"} && |s.contributions| == 1
      && s.contributions == [NewComment(Remark)] && s.attachments == [] && s.workItems == [] && s.grants == []
  {
    hide *;
    OpeningSeed(ts);
    OpeningStarts(ts);
    assert [OpeningAt(ts)] + [Remark] == [OpeningAt(ts), Remark];
    FoldLogConcat([OpeningAt(ts)], [Remark]);
    OneStep(FoldLog([OpeningAt(ts)]), Remark);
    RemarkStep(FoldLog([OpeningAt(ts)]));
  }

  lemma OneContribution(s: State, rb: Record)
    requires s.contributions == [NewComment(Remark)] && s.attachments == [] && s.workItems == [] && s.grants == []
    requires s.seen == {"a", "c"} && s.referenced == {"a"}
    ensures ElementIds(s) == {"c"} && Leaves(s) == {"c"}
  {
    OneChain();
    assert AttachmentChains(s.attachments) == [] && WorkChains(s.workItems) == [] && GrantChains(s.grants) == [];
    assert WorkEventIds(s.workItems) == {} && GrantEventIds(s.grants) == {};
    hide IndexOf, WorkEventIds, GrantEventIds, ContributionChains, AttachmentChains, WorkChains, GrantChains;
    IndexOfFew();
  }

  lemma OneChain()
    ensures ContributionChains([NewComment(Remark)]) == [["c"]]
  {
    var c := NewComment(Remark);
    assert StampIds(c.edits) == [] && c.opId == "c" && ["c"] + [] == ["c"];
    assert ContributionChains([c])[0] == [c.opId] + StampIds(c.edits);
  }

  lemma IndexOfFew()
    ensures IndexOf([]).Keys == {} && IndexOf([["c"]]).Keys == {"c"}
  {
    assert [["c"]][..0] == [];
    assert IndexOf([["c"]]) == Bind(map[], ["c"], 0);
  }

  lemma RollupFold(path: string, rb: SeqRecord)
    requires rb.record.op.Baseline?
    ensures FoldLog([rb]) == Seed(rb.record)
  {
  }

  lemma RollupSees(s: State, rb: Record)
    requires IsRollupOf(rb, EssenceOf(s)) && ElementIds(s) == {"c"} && Leaves(s) == {"c"} && rb.id == "r"
    ensures "a" !in Seed(rb).seen && Unmarked(Seed(rb))
    ensures Seed(rb).contributions == CleanContributions(s.contributions)
  {
    hide *;
    SeedSeen(s, rb);
    KeptIs(s);
    SeedTalk(s, rb);
  }

  lemma KeptIs(s: State)
    ensures Kept(s) == ElementIds(s) + Leaves(s)
  {
    hide ElementIds, Leaves;
  }

  lemma SeedTalk(s: State, rb: Record)
    requires IsRollupOf(rb, EssenceOf(s))
    ensures Seed(rb).contributions == CleanContributions(s.contributions)
  {
    hide IndexOf, BakedIds, CleanContributions, Leaves;
  }

  lemma MarksNew(path: string, rb: SeqRecord, s: State)
    requires rb.record.op.Baseline? && FoldLog([rb]) == Seed(rb.record) && s.contributions == [NewComment(Remark)]
    requires "a" !in Seed(rb.record).seen && Seed(rb.record).contributions == CleanContributions(s.contributions)
    ensures View(path, [rb]).contributions != [] && View(path, [rb]).contributions[0].dangling
  {
    var mt := View(path, [rb]);
    hide FoldLog, Seed, SettledLifecycle;
    assert mt.contributions == MarkContributions(CleanContributions(s.contributions), Seed(rb.record).seen);
    assert CleanContributions(s.contributions)[0].anchor == "a";
  }

  // ----- the clock

  lemma OpeningShown(path: string, ts: Time)
    ensures var mt := View(path, [OpeningAt(ts), Remark]);
      && mt.baselineTs == ts && mt.malformed.None? && mt.lifecycle == Active && mt.attachments == []
         && mt.workItems == []
      && |mt.contributions| == 1 && mt.contributions[0].ts == 0 && mt.contributions[0].resolvedTs == 0
      && mt.contributions[0].edits == []
  {
    OpeningFold(ts);
    OpeningActive(ts);
    hide FoldLog, SettledLifecycle, Leaves;
  }

  lemma OneTalkTimes(mt: MaterializedTopic, window: int, now: Time)
    requires mt.malformed.None? && mt.lifecycle == Active && mt.attachments == [] && mt.workItems == []
      && |mt.contributions| == 1
    requires mt.contributions[0].ts == 0 && mt.contributions[0].resolvedTs == 0 && mt.contributions[0].edits == []
    ensures QuietElements(mt, window, now) <==> now > window
  {
    var c := mt.contributions[0];
    assert mt.contributions == [c] && c in mt.contributions && TalkedAt(c, 0);
    assert HappenedAt(mt, 0);
    forall t | HappenedAt(mt, t) ensures t == 0 { }
    hide HappenedAt;
  }

  lemma OpeningTimes(path: string, ts: Time, window: int, now: Time)
    ensures var mt := View(path, [OpeningAt(ts), Remark]);
      mt.baselineTs == ts && (QuietElements(mt, window, now) <==> now > window)
  {
    hide *;
    OpeningShown(path, ts);
    OneTalkTimes(View(path, [OpeningAt(ts), Remark]), window, now);
  }

  lemma OpeningActive(ts: Time)
    ensures SettledLifecycle(FoldLog([OpeningAt(ts), Remark])) == Active
  {
    hide *;
    var log := [OpeningAt(ts), Remark];
    OpeningStarts(ts);
    assert [OpeningAt(ts)] + [Remark] == log;
    FoldLogConcat([OpeningAt(ts)], [Remark]);
    OneStep(FoldLog([OpeningAt(ts)]), Remark);
    RemarkWakes(FoldLog([OpeningAt(ts)]));
  }

  lemma OpeningStarts(ts: Time)
    ensures StartsWithBaseline([OpeningAt(ts)]) && StartsWithBaseline([OpeningAt(ts), Remark])
    ensures var s := FoldLog([OpeningAt(ts)]); s.lifecycle == Proposed && s.contentOps == 0
  {
    assert [OpeningAt(ts)][1..] == [];
  }

  lemma RemarkWakes(s: State)
    requires Bounded(s) && s.lifecycle == Proposed
    ensures SettledLifecycle(Step(s, Remark)) == Active
  {
    hide Bounded, KeepsGraph;
  }

  /** The clock can be put back and forward by the rollup alone: a quiet topic stops being eligible for dormancy because
      it was compacted, and one that was not becomes so when the compacting client's clock is behind. */
  lemma RollupMovesTheClock(path: string)
    ensures var log := [OpeningAt(0), Remark]; var rb := SeqRecord(RollupRecord(View(path, log), "r", "p", 5), 3);
      DormantEligible(View(path, log), 10, 11) && !DormantEligible(View(path, [rb]), 10, 11)
    ensures var log := [OpeningAt(100), Remark]; var rb := SeqRecord(RollupRecord(View(path, log), "r", "p", 95), 3);
      !DormantEligible(View(path, log), 10, 106) && DormantEligible(View(path, [rb]), 10, 106)
  {
    ClockAfter(path, 0, 5, 10, 11);
    ClockAfter(path, 100, 95, 10, 106);
  }

  lemma ClockAfter(path: string, ts: Time, later: Time, window: int, now: Time)
    ensures var log := [OpeningAt(ts), Remark]; var rb := SeqRecord(RollupRecord(View(path, log), "r", "p", later), 3);
      && (DormantEligible(View(path, log), window, now) <==> now > window && now - ts > window)
      && (DormantEligible(View(path, [rb]), window, now) <==> now > window && now - later > window)
  {
    hide *;
    var log := [OpeningAt(ts), Remark];
    var rb := SeqRecord(RollupRecord(View(path, log), "r", "p", later), 3);
    RollupFields(View(path, log), "r", "p", later);
    OpeningIsCausal(path, ts);
    OpeningTimes(path, ts, window, now);
    EligibleMeans(View(path, log), window, now);
    RolledSame(path, log, rb);
    RollupTs(path, rb, log);
    RollupRestartsTheClock(View(path, log), View(path, [rb]), window, now);
  }

  lemma RolledSame(path: string, log: seq<SeqRecord>, rb: SeqRecord)
    requires CausalLog(log) && View(path, log).frontier != []
    requires rb.record == RollupRecord(View(path, log), rb.record.id, rb.record.author, rb.record.ts)
    ensures SameTopic(View(path, log), View(path, [rb]))
  {
    NothingCausal(IdsOf(log) + {rb.record.id});
    hide *;
    CompactionCongruence(path, log, rb, []);
    assert [rb] + [] == [rb] && log + [] == log;
    SameBack(View(path, [rb]), View(path, log));
  }

  lemma RollupFields(mt: MaterializedTopic, id: OpId, author: Persona, ts: Time)
    ensures var r := RollupRecord(mt, id, author, ts); r.id == id && r.author == author && r.ts == ts
  {
  }

  lemma NothingCausal(known: set<OpId>)
    ensures Causal(known, [])
  {
  }

  lemma SameBack(a: MaterializedTopic, b: MaterializedTopic)
    requires SameTopic(a, b)
    ensures SameTopic(b, a)
  {
    TopicsAlike(a, b);
    TopicsAlike(b, a);
    hide SameTopic;
  }

  lemma RollupTs(path: string, rb: SeqRecord, log: seq<SeqRecord>)
    requires rb.record == RollupRecord(View(path, log), "r", "p", rb.record.ts)
    ensures View(path, [rb]).baselineTs == rb.record.ts
  {
    hide FoldLog, SettledLifecycle, RollupPayload;
  }

  // ----- a follower whose messages were purged before they were delivered

  /** All a view shows but its frontier. */
  ghost predicate SameContent(a: MaterializedTopic, b: MaterializedTopic) {
    SameTopic(a.(frontier := []), b.(frontier := []))
  }

  /** A checkpoint leaves content alone, and keeps every leaf the view had beside those it records. */
  lemma CheckpointKeeps(s: State, t: State, rb: SeqRecord)
    requires Bounded(s) && IsRollupOf(rb.record, EssenceOf(t)) && rb.record.id !in s.seen
    ensures var u := Step(s, rb);
      && u.contributions == s.contributions && u.attachments == s.attachments && u.workItems == s.workItems
         && u.grants == s.grants
      && SettledLifecycle(u) == SettledLifecycle(s) && u.baselineState == s.baselineState
      && Leaves(u) == Leaves(s) + Leaves(t)
  {
    RollupShape(t, rb.record);
    LeavesCheckpoint(s, rb);
    hide EssenceOf, IsRollupOf, Leaves;
    assert rb.record.id !in Leaves(s) by { LeavesSeen(s); }
  }

  lemma LeavesSeen(s: State)
    ensures Leaves(s) <= s.seen
  {
  }

  /** What a follower shows once it has met a rollup whose tail it was never delivered: what it showed before, and the
      checkpoint's leaves beside its own. */
  lemma MissedShown(path: string, log: seq<SeqRecord>, missed: seq<SeqRecord>, rb: SeqRecord)
    requires CausalLog(log) && StartsWithBaseline(log + missed) && rb.record.id !in IdsOf(log)
    requires rb.record == RollupRecord(View(path, log + missed), rb.record.id, rb.record.author, rb.record.ts)
    ensures SameContent(View(path, log + [rb]), View(path, log))
    ensures Elems(View(path, log + [rb]).frontier) ==
        Elems(View(path, log).frontier) + Elems(View(path, log + missed).frontier)
  {
    hide *;
    CausalStarts(log);
    LongerStarts(log, [rb]);
    KnownSound(log);
    KnownSeen(log);
    var s, t := FoldLog(log), FoldLog(log + missed);
    RollupIsRollup(path, log + missed, rb.record.id, rb.record.author, rb.record.ts);
    CheckpointKeeps(s, t, rb);
    FoldLogConcat(log, [rb]);
    OneStep(s, rb);
    FrontierElems(path, log);
    FrontierElems(path, log + missed);
    FrontierElems(path, log + [rb]);
    ContentShown(path, log, log + [rb]);
  }

  lemma KnownSeen(log: seq<SeqRecord>)
    requires |log| > 0 && StartsWithBaseline(log) && Covers(IdsOf(log), FoldLog(log))
    ensures FoldLog(log).seen <= IdsOf(log)
  {
  }

  lemma OneStep(s: State, sr: SeqRecord)
    requires Bounded(s)
    ensures FoldFrom(s, [sr]) == Step(s, sr)
  {
    FoldFromAppend(s, [], sr);
    FoldFromNothing(s);
    assert [] + [sr] == [sr];
  }

  lemma FrontierElems(path: string, log: seq<SeqRecord>)
    requires StartsWithBaseline(log)
    ensures Elems(View(path, log).frontier) == Leaves(FoldLog(log))
  {
    hide FoldLog, SettledLifecycle, Leaves;
  }

  lemma ContentShown(path: string, log: seq<SeqRecord>, other: seq<SeqRecord>)
    requires StartsWithBaseline(log) && StartsWithBaseline(other)
    requires var s, u := FoldLog(log), FoldLog(other);
      && u.contributions == s.contributions && u.attachments == s.attachments && u.workItems == s.workItems
         && u.grants == s.grants
      && SettledLifecycle(u) == SettledLifecycle(s) && u.baselineState == s.baselineState
    ensures SameContent(View(path, other), View(path, log))
  {
    ViewEssence(path, log);
    ViewEssence(path, other);
    TopicsAlike(View(path, other).(frontier := []), View(path, log).(frontier := []));
    hide FoldLog, SettledLifecycle, View, SameTopic;
  }

  /** A follower that missed what a rollup purged agrees with everybody else exactly when what it missed changed nothing
      it shows and built on none of its leaves; what it could have seen before the rollup landed. */
  lemma MissedExactly(path: string, log: seq<SeqRecord>, missed: seq<SeqRecord>, rb: SeqRecord)
    requires CausalLog(log) && CausalLog(log + missed) && rb.record.id !in IdsOf(log)
      && View(path, log + missed).frontier != []
    requires rb.record == RollupRecord(View(path, log + missed), rb.record.id, rb.record.author, rb.record.ts)
    ensures SameTopic(View(path, log + [rb]), View(path, [rb])) <==>
      && SameContent(View(path, log), View(path, log + missed))
      && Elems(View(path, log).frontier) <= Elems(View(path, log + missed).frontier)
  {
    hide *;
    CausalStarts(log + missed);
    MissedShown(path, log, missed, rb);
    RolledSame(path, log + missed, rb);
    CausalStarts(log);
    LongerStarts(log, [rb]);
    FrontierSorted(path, log + [rb]);
    FrontierSorted(path, log + missed);
    MissedVerdict(View(path, log + [rb]), View(path, log), View(path, log + missed), View(path, [rb]));
  }

  lemma FrontierSorted(path: string, log: seq<SeqRecord>)
    requires StartsWithBaseline(log)
    ensures StrictlySorted(View(path, log).frontier)
  {
    hide FoldLog, SettledLifecycle, Leaves;
  }

  lemma MissedVerdict(follower: MaterializedTopic, before: MaterializedTopic, full: MaterializedTopic,
                      cold: MaterializedTopic)
    requires SameContent(follower, before) && SameTopic(full, cold)
    requires Elems(follower.frontier) == Elems(before.frontier) + Elems(full.frontier)
    requires StrictlySorted(follower.frontier) && StrictlySorted(full.frontier)
    ensures SameTopic(follower, cold) <==> SameContent(before, full) && Elems(before.frontier) <= Elems(full.frontier)
  {
    if Elems(before.frontier) <= Elems(full.frontier) {
      assert Elems(follower.frontier) == Elems(full.frontier);
      SortedUnique(follower.frontier, full.frontier);
    }
    TopicsAlike(follower, cold);
    TopicsAlike(full, cold);
    TopicsAlike(before.(frontier := []), full.(frontier := []));
    TopicsAlike(follower.(frontier := []), before.(frontier := []));
    hide SameTopic, StrictlySorted, CleanContributions, CleanAttachments, CleanWorkItems, CleanGrants;
  }

  /** A remark posted and compacted away while the follower was not listening is never shown to it. */
  lemma RollupCanHide(path: string, ts: Time)
    ensures var log := [OpeningAt(ts), Remark]; var rb := SeqRecord(RollupRecord(View(path, log), "r", "p", 1), 3);
      View(path, [OpeningAt(ts), rb]).contributions == [] && |View(path, [rb]).contributions| == 1
  {
    var log := [OpeningAt(ts), Remark];
    var rb := SeqRecord(RollupRecord(View(path, log), "r", "p", 1), 3);
    OpeningFold(ts);
    OpeningAlone(path, ts);
    OpeningIsCausal(path, ts);
    assert View(path, log).contributions != [] && |View(path, log).contributions| == 1;
    assert [OpeningAt(ts)] + [Remark] == log && [OpeningAt(ts)] + [rb] == [OpeningAt(ts), rb];
    assert rb.record == RollupRecord(View(path, log), rb.record.id, rb.record.author, rb.record.ts);
    hide View, FoldLog, RollupRecord, CausalLog, IdsOf;
    RolledSame(path, log, rb);
    SameCount(View(path, log), View(path, [rb]));
    MissedShown(path, [OpeningAt(ts)], [Remark], rb);
    SameCount(View(path, [OpeningAt(ts), rb]).(frontier := []), View(path, [OpeningAt(ts)]).(frontier := []));
  }

  lemma OpeningAlone(path: string, ts: Time)
    ensures var log := [OpeningAt(ts)]; CausalLog(log) && View(path, log).contributions == [] && "r" !in IdsOf(log)
  {
    assert BakedIds(BakedState([], [], [], [], Unset)) == {};
    assert [OpeningAt(ts)][1..] == [];
  }

  lemma SameCount(a: MaterializedTopic, b: MaterializedTopic)
    requires SameTopic(a, b)
    ensures |a.contributions| == |b.contributions|
  {
  }

  // ----- an archival that cannot be finished

  lemma RunTwo(k: Codec, w: World, a: Action, b: Action)
    requires Enabled(w, a) && Enabled(Perform(k, w, a), b)
    ensures ValidRun(k, w, [a, b]) && After(k, w, [a, b]) == Perform(k, Perform(k, w, a), b)
  {
    hide Enabled, Perform;
    var v := Perform(k, w, a);
    assert [a, b][1..] == [b] && [b][1..] == [];
    assert ValidRun(k, Perform(k, v, b), []) && After(k, Perform(k, v, b), []) == Perform(k, v, b);
    assert ValidRun(k, v, [b]) && After(k, v, [b]) == Perform(k, v, b);
  }

  lemma BornHas(path: string, birth: Record)
    ensures var w := Born(path, birth, 1, 0, {});
      && Has(w, 0, Client([birth.id], Unset, Idle)) && w.msgs == [Msg(1, Some(birth))] && w.used == {birth.id}
         && w.lastSeq == 1
  {
  }

  /** A stuck archival is reachable: a topic is started, marked archived, and a message nobody can parse lands. */
  lemma StuckHappens(k: Codec, path: string)
    requires Lossless(k)
    ensures exists w: World :: Reachable(k, w) && Stuck(w)
  {
    hide *;
    var birth := Birth("a", "p", 0, "{}");
    var w0 := Born(path, birth, 1, 0, {});
    BornFounded(path, "a", "p", 0, "{}", 1, 0, {});
    FoundedInv(k, w0);
    BirthIs("a", "p", 0, "{}");
    BornHas(path, birth);
    DrainOne(birth, 1);
    var cl := Client(["a"], Unset, Idle);
    var post := Action.Post(0, "b", "p", 0, LifeTransition(true, Archived), 2, true, false);
    PostLands(k, w0, post, cl);
    CanPost(k, w0, post, cl);
    var w1 := Perform(k, w0, post);
    CanGarble(w1, 3);
    GarbleIs(k, w1, 3);
    var w2 := Perform(k, w1, Garble(3));
    DrainAppend(w1.msgs, Msg(3, None));
    SameTold(w1, w2);
    StuckIs(w2);
    RunTwo(k, w0, post, Garble(3));
    ReachedBy(k, w0, [post, Garble(3)], w2);
  }

  lemma BirthIs(id: OpId, author: Persona, ts: Time, state: string)
    ensures Birth(id, author, ts, state).id == id
  {
  }

  lemma CanGarble(w: World, seqNo: nat)
    requires |w.msgs| > 0 && w.lastSeq < seqNo
    ensures Enabled(w, Garble(seqNo))
  {
  }

  lemma StuckIs(w: World)
    requires IsArchived(w) && |DrainOps(w.msgs)| > 1 && |w.msgs| > 0 && w.msgs[|w.msgs| - 1].rec.None?
    ensures Stuck(w)
  {
    hide IsArchived, DrainOps;
  }

  lemma StuckMeans(w: World)
    requires Stuck(w)
    ensures IsArchived(w) && |DrainOps(w.msgs)| > 1 && |w.msgs| > 0 && w.msgs[|w.msgs| - 1].rec.None?
  {
    hide IsArchived, DrainOps;
  }

  lemma ReachedBy(k: Codec, start: World, run: seq<Action>, w: World)
    requires Founded(start) && ValidRun(k, start, run) && After(k, start, run) == w
    ensures Reachable(k, w)
  {
    hide Founded, ValidRun, After;
  }

  /** What unsticks it is an operation: nothing else any client does, and no rollup, but a post by a handle that has not
      seen the archival. */
  lemma StuckUntilPost(k: Codec, w: World, a: Action)
    requires Inv(k, w) && Enabled(w, a) && Stuck(w)
    ensures Stuck(Perform(k, w, a)) <==> !a.Post?
  {
    hide *;
    StuckMeans(w);
    InvStarts(k, w);
    if a.Post? {
      PostEndsParsed(k, w, a);
      MarkedNotStuck(Perform(k, w, a));
    } else if a.Garble? {
      GarbleStaysStuck(k, w, a);
    } else if a.Publish? {
      PublishIs(k, w, a);
      OwnTask(k, w, a.c);
      CoherentStarts(w.wire, w.used);
      GuardIff(k, w, a.c, w.clients[a.c].task);
      TaskOnly(w, a.c, Idle);
      StuckSame(w, Perform(k, w, a));
    } else {
      QuietMessages(k, w, a);
      StuckSame(w, Perform(k, w, a));
    }
  }

  lemma PostEndsParsed(k: Codec, w: World, a: Action)
    requires a.Post? && Enabled(w, a)
    ensures var v := Perform(k, w, a); |v.msgs| > 0 && v.msgs[|v.msgs| - 1].rec.Some?
  {
  }

  lemma GarbleStaysStuck(k: Codec, w: World, a: Action)
    requires a.Garble? && Enabled(w, a) && Stuck(w)
    ensures Stuck(Perform(k, w, a))
  {
    hide *;
    StuckMeans(w);
    GarbleIs(k, w, a.seqNo);
    DrainAppend(w.msgs, Msg(a.seqNo, None));
    SameTold(w, Perform(k, w, a));
    StuckIs(Perform(k, w, a));
  }

  lemma TaskOnly(w: World, c: ClientId, t: Task)
    requires c in w.clients
    ensures SetTask(w, c, t).msgs == w.msgs && SetTask(w, c, t).wire == w.wire
  {
  }

  lemma StuckSame(w: World, v: World)
    requires v.msgs == w.msgs && v.wire == w.wire
    ensures Stuck(v) <==> Stuck(w)
  {
    SameTold(w, v);
    hide IsArchived, DrainOps;
  }

  lemma QuietMessages(k: Codec, w: World, a: Action)
    requires Enabled(w, a) && !a.Post? && !a.Garble? && !a.Publish?
    ensures Perform(k, w, a).msgs == w.msgs && Perform(k, w, a).wire == w.wire
  {
    hide DrainOps, View, RollupPayload, ManifestChunksOf, Manifests.Resolve, RemovedBlobs;
    match a
    case Repost(_, _) =>
    case Drain(_, _) =>
    case Resolve(c, reachable) =>
      hide Enabled;
      ResolveMessages(k, w, c, reachable);
      ResolveExtends(k, w, c, reachable);
    case PutChunk(_, _) =>
    case Delete(c, done) => if |w.clients[c].task.names| > 0 { if done {} }
    case Upload(_, _, _) =>
    case GiveUp(_) =>
    case Crash(_) =>
  }
}
