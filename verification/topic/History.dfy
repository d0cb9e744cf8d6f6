/** The whole history of a topic: every record its subject ever accepted, rollups included, never purged. */
module History {
  import opened Prelude
  import opened Vocabulary
  import opened Fold
  import opened EssenceOfTopic
  import opened Soundness
  import opened Compaction
  import opened Checkpoints

  /** The log nobody ever compacted: the first baseline and every ordinary operation after it. */
  function Plain(wire: seq<SeqRecord>): seq<SeqRecord> {
    if |wire| <= 1 then wire
    else
      var last := wire[|wire| - 1];
      Plain(wire[..|wire| - 1]) + if last.record.op.Baseline? then [] else [last]
  }

  lemma {:induction false} PlainStarts(wire: seq<SeqRecord>)
    requires StartsWithBaseline(wire)
    ensures StartsWithBaseline(Plain(wire)) && Plain(wire)[0] == wire[0]
  {
    if |wire| > 1 { PlainStarts(wire[..|wire| - 1]); }
  }

  lemma PlainAppend(wire: seq<SeqRecord>, sr: SeqRecord)
    requires |wire| > 0
    ensures Plain(wire + [sr]) == Plain(wire) + if sr.record.op.Baseline? then [] else [sr]
  {
    assert (wire + [sr])[..|wire|] == wire;
  }

  /** The state every reader should arrive at. */
  function Truth(wire: seq<SeqRecord>): (s: State)
    requires StartsWithBaseline(wire)
    ensures Bounded(s)
  {
    PlainStarts(wire);
    FoldLog(Plain(wire))
  }

  ghost predicate BaselineAt(wire: seq<SeqRecord>, k: nat) {
    k < |wire| && wire[k].record.op.Baseline?
  }

  /** A reader who starts at baseline `k` and follows from there, checkpoints and all. */
  function ReadFrom(wire: seq<SeqRecord>, k: nat): (s: State)
    requires BaselineAt(wire, k)
    ensures Bounded(s)
  {
    FoldLog(wire[k..])
  }

  /** The state is sound, its ids are known, and it is what every reader should see. */
  ghost predicate Agrees(s: State, used: set<OpId>, truth: Essence) {
    Sound(s) && Covers(used, s) && EssenceOf(s) == truth
  }

  ghost predicate Increasing(wire: seq<SeqRecord>) {
    forall i, j :: 0 <= i < j < |wire| ==> wire[i].streamSeq < wire[j].streamSeq
  }

  /** Whatever baseline a reader starts from, it agrees with the log nobody compacted. */
  ghost predicate Coherent(wire: seq<SeqRecord>, used: set<OpId>) {
    && StartsWithBaseline(wire) && Increasing(wire)
    && Leaves(Truth(wire)) != {}
    && Agrees(Truth(wire), used, EssenceOf(Truth(wire)))
    && forall k: nat :: BaselineAt(wire, k) ==> Agrees(ReadFrom(wire, k), used, EssenceOf(Truth(wire)))
  }

  // ----- an ordinary operation

  lemma AgreesStep(a: State, t: State, used: set<OpId>, sr: SeqRecord)
    requires Bounded(a) && Bounded(t) && Agrees(a, used, EssenceOf(t)) && Agrees(t, used, EssenceOf(t))
    requires !sr.record.op.Baseline? && sr.record.id !in used && Elems(sr.record.parents) <= used
    ensures Agrees(Step(a, sr), used + {sr.record.id}, EssenceOf(Step(t, sr)))
  {
    assert Fresh(a, sr.record) && Fresh(t, sr.record);
    hide Sound, Step, Apply, EssenceOf;
    SoundStep(a, sr);
    EssenceStep(a, t, sr, sr);
    GraphStep(a, sr);
  }

  lemma ReadAppend(wire: seq<SeqRecord>, k: nat, sr: SeqRecord)
    requires BaselineAt(wire, k)
    ensures BaselineAt(wire + [sr], k) && ReadFrom(wire + [sr], k) == Step(ReadFrom(wire, k), sr)
  {
    assert (wire + [sr])[k..] == wire[k..] + [sr];
    hide Step, FoldFrom, Seed;
    FoldLogConcat(wire[k..], [sr]);
    var s := FoldLog(wire[k..]);
    FoldFromAppend(s, [], sr);
    FoldFromNothing(s);
    assert [] + [sr] == [sr];
  }

  lemma TruthAppend(wire: seq<SeqRecord>, sr: SeqRecord)
    requires StartsWithBaseline(wire)
    ensures StartsWithBaseline(wire + [sr])
    ensures Truth(wire + [sr]) == if sr.record.op.Baseline? then Truth(wire) else Step(Truth(wire), sr)
  {
    hide Step, FoldFrom, Seed;
    PlainAppend(wire, sr);
    PlainStarts(wire);
    if sr.record.op.Baseline? {
      assert Plain(wire) + [] == Plain(wire);
    } else {
      FoldLogConcat(Plain(wire), [sr]);
      var s := FoldLog(Plain(wire));
      FoldFromAppend(s, [], sr);
      FoldFromNothing(s);
      assert [] + [sr] == [sr];
    }
  }

  lemma IncreasingAppend(wire: seq<SeqRecord>, sr: SeqRecord)
    requires |wire| > 0 && Increasing(wire) && wire[|wire| - 1].streamSeq < sr.streamSeq
    ensures Increasing(wire + [sr])
  {
  }

  lemma BaselineBefore(wire: seq<SeqRecord>, sr: SeqRecord, k: nat)
    requires BaselineAt(wire + [sr], k)
    ensures k < |wire| ==> BaselineAt(wire, k)
    ensures k >= |wire| ==> k == |wire| && sr.record.op.Baseline?
  {
  }

  lemma AgreesPost(wire: seq<SeqRecord>, used: set<OpId>, sr: SeqRecord, k: nat)
    requires Coherent(wire, used) && !sr.record.op.Baseline? && StartsWithBaseline(wire + [sr])
    requires sr.record.id !in used && Elems(sr.record.parents) <= used
    requires BaselineAt(wire + [sr], k)
    ensures Agrees(ReadFrom(wire + [sr], k), used + {sr.record.id}, EssenceOf(Truth(wire + [sr])))
  {
    BaselineBefore(wire, sr, k);
    var t := Truth(wire);
    assert Agrees(ReadFrom(wire, k), used, EssenceOf(t)) && Agrees(t, used, EssenceOf(t));
    assert StartsWithBaseline(wire);
    hide *;
    TruthAppend(wire, sr);
    ReadAppend(wire, k, sr);
    AgreesStep(ReadFrom(wire, k), t, used, sr);
  }

  lemma TruthPost(wire: seq<SeqRecord>, used: set<OpId>, sr: SeqRecord)
    requires Coherent(wire, used) && !sr.record.op.Baseline?
    requires sr.record.id !in used && Elems(sr.record.parents) <= used
    ensures StartsWithBaseline(wire + [sr]) && Leaves(Truth(wire + [sr])) != {}
    ensures Agrees(Truth(wire + [sr]), used + {sr.record.id}, EssenceOf(Truth(wire + [sr])))
  {
    var t := Truth(wire);
    assert Agrees(t, used, EssenceOf(t));
    assert Fresh(t, sr.record);
    hide EssenceOf, Agrees, Truth, Step, Leaves, Coherent, Fresh;
    TruthAppend(wire, sr);
    LeavesStep(t, sr);
    AgreesStep(t, t, used, sr);
  }

  lemma CoherentPost(wire: seq<SeqRecord>, used: set<OpId>, sr: SeqRecord)
    requires Coherent(wire, used) && !sr.record.op.Baseline?
    requires sr.record.id !in used && Elems(sr.record.parents) <= used
    requires wire[|wire| - 1].streamSeq < sr.streamSeq
    ensures Coherent(wire + [sr], used + {sr.record.id})
  {
    hide EssenceOf, Agrees, ReadFrom, Truth, Leaves, BaselineAt, Increasing, Elems;
    IncreasingAppend(wire, sr);
    TruthPost(wire, used, sr);
    forall k: nat | BaselineAt(wire + [sr], k)
      ensures Agrees(ReadFrom(wire + [sr], k), used + {sr.record.id}, EssenceOf(Truth(wire + [sr]))) {
      AgreesPost(wire, used, sr, k);
    }
  }

  // ----- a rollup

  lemma AgreesCheckpoint(a: State, used: set<OpId>, truth: Essence, rb: SeqRecord)
    requires Bounded(a) && Agrees(a, used, truth) && IsRollupOf(rb.record, truth) && rb.record.id !in used
    ensures Agrees(Step(a, rb), used + {rb.record.id}, truth)
  {
    CheckpointEssence(a, rb);
    hide EssenceOf, Sound, Step;
    SoundStep(a, rb);
    FollowerCovered(used, a, rb);
  }

  lemma AgreesSeed(a: State, used: set<OpId>, truth: Essence, rb: Record)
    requires Bounded(a) && Agrees(a, used, truth) && IsRollupOf(rb, truth) && Leaves(a) != {}
    ensures Agrees(Seed(rb), used + {rb.id}, truth)
  {
    hide EssenceOf, Sound, Seed;
    SeedEssence(a, rb);
    SeedCovered(used, a, rb);
  }

  lemma AgreesRollup(wire: seq<SeqRecord>, used: set<OpId>, rb: SeqRecord, k: nat)
    requires Coherent(wire, used) && IsRollupOf(rb.record, EssenceOf(Truth(wire))) && rb.record.id !in used
    requires BaselineAt(wire + [rb], k)
    ensures Agrees(ReadFrom(wire + [rb], k), used + {rb.record.id}, EssenceOf(Truth(wire)))
  {
    BaselineBefore(wire, rb, k);
    var t := Truth(wire);
    assert Agrees(t, used, EssenceOf(t)) && Leaves(t) != {};
    if k < |wire| {
      assert Agrees(ReadFrom(wire, k), used, EssenceOf(t));
      hide *;
      ReadAppend(wire, k, rb);
      AgreesCheckpoint(ReadFrom(wire, k), used, EssenceOf(t), rb);
    } else {
      ReadLast(wire, rb);
      hide *;
      AgreesSeed(t, used, EssenceOf(t), rb.record);
    }
  }

  lemma ReadLast(wire: seq<SeqRecord>, rb: SeqRecord)
    requires rb.record.op.Baseline?
    ensures BaselineAt(wire + [rb], |wire|) && ReadFrom(wire + [rb], |wire|) == Seed(rb.record)
  {
    assert (wire + [rb])[|wire|..] == [rb];
  }

  lemma AgreesMore(s: State, used: set<OpId>, truth: Essence, id: OpId)
    requires Agrees(s, used, truth)
    ensures Agrees(s, used + {id}, truth)
  {
  }

  lemma CoherentRollup(wire: seq<SeqRecord>, used: set<OpId>, rb: SeqRecord)
    requires Coherent(wire, used) && IsRollupOf(rb.record, EssenceOf(Truth(wire))) && rb.record.id !in used
    requires wire[|wire| - 1].streamSeq < rb.streamSeq
    ensures Coherent(wire + [rb], used + {rb.record.id}) && Truth(wire + [rb]) == Truth(wire)
  {
    assert rb.record.op.Baseline?;
    hide EssenceOf, Agrees, ReadFrom, Truth, Leaves, BaselineAt, Increasing, IsRollupOf;
    IncreasingAppend(wire, rb);
    TruthAppend(wire, rb);
    AgreesMore(Truth(wire), used, EssenceOf(Truth(wire)), rb.record.id);
    forall k: nat | BaselineAt(wire + [rb], k)
      ensures Agrees(ReadFrom(wire + [rb], k), used + {rb.record.id}, EssenceOf(Truth(wire + [rb]))) {
      AgreesRollup(wire, used, rb, k);
    }
  }
}
