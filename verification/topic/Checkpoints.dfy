/** A rollup seen from the other side: by a follower that kept the history, by a second rollup, and by the anchors
    that pointed at what it compacted away (topic/view.go, topic/follow.go). */
module Checkpoints {
  import opened Prelude
  import opened Vocabulary
  import opened Fold
  import opened EssenceOfTopic
  import opened Soundness
  import opened Compaction

  // ----- a follower meets the rollup as a mid-log checkpoint

  /** A checkpoint of content the view already holds changes nothing a reader can tell. */
  lemma CheckpointEssence(s: State, rb: SeqRecord)
    requires Bounded(s) && IsRollupOf(rb.record, EssenceOf(s)) && rb.record.id !in s.seen
    ensures EssenceOf(Step(s, rb)) == EssenceOf(s)
  {
    LeavesCheckpoint(s, rb);
    assert Elems(SortIds(Leaves(s))) == Leaves(s);
  }

  lemma FollowerCovered(known: set<OpId>, s: State, rb: SeqRecord)
    requires Bounded(s) && Covers(known, s) && IsRollupOf(rb.record, EssenceOf(s))
    ensures Covers(known + {rb.record.id}, Step(s, rb))
  {
    assert Elems(SortIds(Leaves(s))) == Leaves(s);
  }

  /** Whatever follows a checkpoint, a state that has passed it and one that never met it stay alike. */
  lemma CheckpointTail(known: set<OpId>, s: State, rb: SeqRecord, tail: seq<SeqRecord>)
    requires Bounded(s) && Sound(s) && Covers(known, s) && IsRollupOf(rb.record, EssenceOf(s))
    requires rb.record.id !in known && Causal(known + {rb.record.id}, tail)
    ensures EssenceOf(FoldFrom(s, [rb] + tail)) == EssenceOf(FoldFrom(s, tail))
  {
    CheckpointEssence(s, rb);
    assert rb.record.op.Baseline?;
    hide EssenceOf, Sound, IsRollupOf, FoldFrom, Step;
    SoundStep(s, rb);
    FollowerCovered(known, s, rb);
    EssenceTail(known + {rb.record.id}, Step(s, rb), s, tail);
    FoldFromConcat(s, [rb], tail);
    FoldFromAppend(s, [], rb);
    FoldFromNothing(s);
    assert [] + [rb] == [rb];
  }

  /** The follower that kept all history agrees with a cold reader of the new baseline after every later operation. */
  lemma FollowerAgreesWithColdReader(path: string, log: seq<SeqRecord>, rb: SeqRecord, tail: seq<SeqRecord>)
    requires CausalLog(log) && View(path, log).frontier != []
    requires rb.record == RollupRecord(View(path, log), rb.record.id, rb.record.author, rb.record.ts)
    requires rb.record.id !in IdsOf(log) && Causal(IdsOf(log) + {rb.record.id}, tail)
    ensures SameTopic(View(path, log + [rb] + tail), View(path, [rb] + tail))
  {
    var full, cold := log + [rb] + tail, [rb] + tail;
    assert StartsWithBaseline(log) && StartsWithBaseline(full) && StartsWithBaseline(cold)
      && StartsWithBaseline(log + tail);
    hide *;
    Associate(log, [rb], tail);
    CompactionCongruence(path, log, rb, tail);
    RollupIsRollup(path, log, rb.record.id, rb.record.author, rb.record.ts);
    KnownSound(log);
    CheckpointTail(IdsOf(log), FoldLog(log), rb, tail);
    FoldLogConcat(log, tail);
    FoldLogConcat(log, cold);
    SameEssenceSameTopic(path, full, cold);
  }

  lemma KnownSound(log: seq<SeqRecord>)
    requires CausalLog(log)
    ensures Sound(FoldLog(log)) && Covers(IdsOf(log), FoldLog(log))
  {
    LogSound(log);
  }

  // ----- compacting again

  /** Rolling up a rolled-up log bakes the same content again. */
  lemma RollupIdempotent(path: string, log: seq<SeqRecord>, rb: SeqRecord)
    requires CausalLog(log) && View(path, log).frontier != []
    requires rb.record == RollupRecord(View(path, log), rb.record.id, rb.record.author, rb.record.ts)
    ensures RollupPayload(View(path, [rb])) == RollupPayload(View(path, log))
  {
    assert Causal(IdsOf(log) + {rb.record.id}, []);
    CompactionCongruence(path, log, rb, []);
    hide RollupPayload, EssenceOf, RollupRecord, FoldLog, View;
    assert [rb] + [] == [rb] && log + [] == log;
    PayloadFromEssence(path, log);
    PayloadFromEssence(path, [rb]);
  }

  // ----- when a rollup would be visible

  /** The rollup preserves the view exactly when the frontier is not empty: an empty one reads as birth, and the
      baseline would surface as a leaf nobody posted. */
  lemma FaithfulExactlyWithFrontier(path: string, log: seq<SeqRecord>, rb: SeqRecord)
    requires CausalLog(log) && rb.record.id !in IdsOf(log)
    requires rb.record == RollupRecord(View(path, log), rb.record.id, rb.record.author, rb.record.ts)
    ensures SameTopic(View(path, [rb]), View(path, log)) <==> View(path, log).frontier != []
  {
    if View(path, log).frontier != [] {
      assert Causal(IdsOf(log) + {rb.record.id}, []);
      CompactionCongruence(path, log, rb, []);
      assert [rb] + [] == [rb] && log + [] == log;
    } else {
      var s := FoldLog(log);
      ViewEssence(path, log);
      RollupIsRollup(path, log, rb.record.id, rb.record.author, rb.record.ts);
      LogSound(log);
      SeedCovered(IdsOf(log), s, rb.record);
      BakedCovered(IdsOf(log), s, rb.record);
      SeedLeaves(rb.record, EssenceOf(s));
      ViewEssence(path, [rb]);
      assert FoldLog([rb]) == Seed(rb.record);
      assert rb.record.id in SortIds({rb.record.id}) by { assert rb.record.id in Elems(SortIds({rb.record.id})); }
    }
  }

  lemma BakedCovered(known: set<OpId>, s: State, rb: Record)
    requires Sound(s) && Covers(known, s) && IsRollupOf(rb, EssenceOf(s))
    ensures BakedIds(BakedOf(rb.op.baseline)) <= known
  {
    BakedSame(s, rb);
    ElementsSeen(s);
  }

  /** From birth on, without mid-log checkpoints, there is always a frontier to parent onto. */
  lemma FrontierNeverEmpty(path: string, log: seq<SeqRecord>)
    requires CausalLog(log) && Leaves(Seed(log[0].record)) != {}
    requires forall i :: 1 <= i < |log| ==> !log[i].record.op.Baseline?
    ensures View(path, log).frontier != []
  {
    var r := log[0].record;
    SeedSound(r);
    CoversSeed(r);
    hide Sound, Mentions, Covers;
    assert forall i :: 0 <= i < |log[1..]| ==> log[1..][i] == log[i + 1];
    LeavesTail(Mentions(r), Seed(r), log[1..]);
    ViewEssence(path, log);
  }
}
