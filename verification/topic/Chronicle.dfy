/** What the whole history of a topic records: every id lands once, and every later baseline is the rollup of what came
    before it. */
module Chronicle {
  import opened Prelude
  import opened Vocabulary
  import opened Fold
  import opened EssenceOfTopic
  import opened Soundness
  import opened Compaction
  import opened Anchors
  import opened History
  import opened Manifests
  import opened Machine
  import opened Safety
  import opened Steps
  import opened StepsKept
  import opened WritesKept
  import opened Runs

  // ----- what one action lands

  /** The record an action puts on the subject, if it puts one there. */
  ghost predicate Lands(w: World, v: World, sr: SeqRecord) {
    v.wire == w.wire + [sr] && v.used == w.used + {sr.record.id} && sr.record.id !in w.used && v.contents == w.contents
  }

  /** No object name is ever given other content. */
  ghost predicate ContentsKept(w: World, v: World) {
    forall n :: n in w.contents ==> n in v.contents && v.contents[n] == w.contents[n]
  }

  ghost predicate Silent(w: World, v: World) {
    v.wire == w.wire && v.used == w.used && ContentsKept(w, v)
  }

  lemma ResolveSilent(k: Codec, w: World, c: ClientId, reachable: bool)
    requires c in w.clients && w.clients[c].task.Drained?
    ensures Silent(w, ResolveStep(k, w, c, reachable))
  {
    hide View, ManifestChunksOf, Manifests.Resolve, RemovedBlobs;
    if Manifests.Resolve(k, Reached(w, reachable), w.clients[c].task.recs).Broken? {} else {
      match w.clients[c].task.purpose
      case Read =>
      case Compact(_) =>
      case Sweep =>
    }
  }

  lemma PostLandsOne(k: Codec, w: World, a: Action)
    requires a.Post? && Enabled(w, a)
    ensures a.c in w.clients
    ensures Lands(w, Perform(k, w, a), SeqRecord(Record(a.id, a.author, w.clients[a.c].frontier, a.ts, a.op), a.seqNo))
    ensures !a.op.Baseline?
  {
  }

  lemma PublishLandsOne(k: Codec, w: World, a: Action)
    requires a.Publish? && Enabled(w, a)
    ensures a.c in w.clients && w.clients[a.c].task.Ready? && |w.msgs| > 0
    ensures var t := w.clients[a.c].task;
      if t.tail != LastSeq(w) then Silent(w, Perform(k, w, a))
      else Lands(w, Perform(k, w, a), SeqRecord(RollupRecord(t.mt, a.id, a.author, a.ts), a.seqNo))
  {
    hide Bury, RollupPayload, ManifestForm;
    if w.clients[a.c].task.tail == LastSeq(w) { if a.acked {} }
  }

  lemma OthersSilent(k: Codec, w: World, a: Action)
    requires Enabled(w, a) && !a.Post? && !a.Publish?
    ensures Silent(w, Perform(k, w, a))
  {
    hide DrainOps, View, RollupPayload, ManifestChunksOf, Manifests.Resolve, RemovedBlobs;
    match a
    case Repost(_, _) =>
    case Garble(_) =>
    case Drain(_, _) =>
    case Resolve(c, reachable) => hide Enabled; ResolveSilent(k, w, c, reachable);
    case PutChunk(_, _) =>
    case Delete(c, done) => if |w.clients[c].task.names| > 0 { if done {} }
    case Upload(_, _, _) =>
    case GiveUp(_) =>
    case Crash(_) =>
  }

  // ----- every id lands once

  /** From one world to a later one: what has landed since bears ids that were new, each of them once, no other id has
      come into use, and no object name has been given other content. */
  ghost predicate LandsNew(w: World, v: World) {
    && w.wire <= v.wire && w.used <= v.used && ContentsKept(w, v)
    && (forall i :: |w.wire| <= i < |v.wire| ==> v.wire[i].record.id !in w.used && v.wire[i].record.id in v.used)
    && (forall i, j :: |w.wire| <= i < j < |v.wire| ==> v.wire[i].record.id != v.wire[j].record.id)
    && forall id :: id in v.used && id !in w.used ==> LandedSince(w, v, id)
  }

  ghost predicate LandedSince(w: World, v: World, id: OpId) {
    exists i :: |w.wire| <= i < |v.wire| && v.wire[i].record.id == id
  }

  lemma LandsSilent(w: World, v: World)
    requires Silent(w, v)
    ensures LandsNew(w, v)
  {
  }

  lemma LandsOnce(w: World, v: World, sr: SeqRecord)
    requires Lands(w, v, sr)
    ensures LandsNew(w, v)
  {
    assert v.wire[|w.wire|] == sr;
  }

  lemma LandsTwice(u: World, w: World, v: World)
    requires LandsNew(u, w) && LandsNew(w, v)
    ensures LandsNew(u, v)
  {
    assert forall i :: |u.wire| <= i < |w.wire| ==> v.wire[i] == w.wire[i];
    forall id | id in v.used && id !in u.used ensures LandedSince(u, v, id) {
      if id in w.used {
        assert LandedSince(u, w, id);
        var i :| |u.wire| <= i < |w.wire| && w.wire[i].record.id == id;
        assert v.wire[i].record.id == id;
      } else {
        assert LandedSince(w, v, id);
      }
    }
  }

  lemma StepLandsNew(k: Codec, w: World, a: Action)
    requires Enabled(w, a)
    ensures LandsNew(w, Perform(k, w, a))
  {
    hide Enabled, Perform, Lands, Silent, LandsNew;
    if a.Post? {
      PostLandsOne(k, w, a);
      LandsOnce(w, Perform(k, w, a), SeqRecord(Record(a.id, a.author, w.clients[a.c].frontier, a.ts, a.op), a.seqNo));
    } else if a.Publish? {
      PublishLandsOne(k, w, a);
      var t := w.clients[a.c].task;
      if t.tail != LastSeq(w) {
        LandsSilent(w, Perform(k, w, a));
      } else {
        LandsOnce(w, Perform(k, w, a), SeqRecord(RollupRecord(t.mt, a.id, a.author, a.ts), a.seqNo));
      }
    } else {
      OthersSilent(k, w, a);
      LandsSilent(w, Perform(k, w, a));
    }
  }

  lemma {:induction false} RunLandsNew(k: Codec, w: World, run: seq<Action>)
    requires ValidRun(k, w, run)
    ensures LandsNew(w, After(k, w, run))
    decreases |run|
  {
    if |run| == 0 {
      LandsSilent(w, w);
    } else {
      hide Enabled, Perform, LandsNew;
      StepLandsNew(k, w, run[0]);
      RunLandsNew(k, Perform(k, w, run[0]), run[1..]);
      LandsTwice(w, Perform(k, w, run[0]), After(k, w, run));
    }
  }

  /** In every reachable world every id ever accepted was accepted once: a lost answer and a retry make no second. */
  lemma EveryIdOnce(k: Codec, w: World)
    requires Reachable(k, w)
    ensures forall i :: 0 <= i < |w.wire| ==> w.wire[i].record.id in w.used
    ensures forall i, j :: 0 <= i < j < |w.wire| ==> w.wire[i].record.id != w.wire[j].record.id
  {
    var start: World, run: seq<Action> :| Founded(start) && ValidRun(k, start, run) && After(k, start, run) == w;
    FoundedId(start);
    hide *;
    RunLandsNew(k, start, run);
    OneThenNew(start, w);
  }

  lemma FoundedId(w: World)
    requires Founded(w)
    ensures |w.wire| == 1 && w.wire[0].record.id in w.used
  {
    hide StoreOk, BlobsOk, Seed, Leaves;
    MentionsHas(w.wire[0].record);
    hide Mentions;
  }

  lemma OneThenNew(w: World, v: World)
    requires LandsNew(w, v) && |w.wire| == 1 && w.wire[0].record.id in w.used
    ensures forall i :: 0 <= i < |v.wire| ==> v.wire[i].record.id in v.used
    ensures forall i, j :: 0 <= i < j < |v.wire| ==> v.wire[i].record.id != v.wire[j].record.id
  {
  }

  // ----- every later baseline is a rollup of what came before it

  ghost predicate RollupAt(wire: seq<SeqRecord>, k: nat) {
    && k < |wire| && StartsWithBaseline(wire[..k]) && IsRollupOf(wire[k].record, EssenceOf(Truth(wire[..k])))
    && Sound(Truth(wire[..k])) && Leaves(Truth(wire[..k])) != {}
  }

  ghost predicate RollupsTrue(wire: seq<SeqRecord>) {
    StartsWithBaseline(wire) && forall k: nat :: 0 < k && BaselineAt(wire, k) ==> RollupAt(wire, k)
  }

  lemma RollupsAppend(wire: seq<SeqRecord>, sr: SeqRecord)
    requires RollupsTrue(wire) && Sound(Truth(wire)) && Leaves(Truth(wire)) != {}
    requires sr.record.op.Baseline? ==> IsRollupOf(sr.record, EssenceOf(Truth(wire)))
    ensures RollupsTrue(wire + [sr])
  {
    var longer := wire + [sr];
    hide IsRollupOf, EssenceOf, Truth, Sound, Leaves;
    forall k: nat | 0 < k && BaselineAt(longer, k) ensures RollupAt(longer, k) {
      if k < |wire| {
        assert longer[..k] == wire[..k] && BaselineAt(wire, k) && RollupAt(wire, k);
      } else {
        assert longer[..k] == wire;
      }
    }
  }

  lemma RollupsStep(k: Codec, w: World, a: Action)
    requires Inv(k, w) && Enabled(w, a) && RollupsTrue(w.wire)
    ensures RollupsTrue(Perform(k, w, a).wire)
  {
    hide *;
    InvStarts(k, w);
    TruthSound(w.wire, w.used);
    if a.Post? {
      PostLandsOne(k, w, a);
      var sr := SeqRecord(Record(a.id, a.author, w.clients[a.c].frontier, a.ts, a.op), a.seqNo);
      LandsIs(w, Perform(k, w, a), sr);
      RollupsAppend(w.wire, sr);
    } else if a.Publish? {
      PublishLandsOne(k, w, a);
      var t := w.clients[a.c].task;
      if t.tail != LastSeq(w) {
        SilentIs(w, Perform(k, w, a));
      } else {
        var sr := SeqRecord(RollupRecord(t.mt, a.id, a.author, a.ts), a.seqNo);
        LandsIs(w, Perform(k, w, a), sr);
        OwnTask(k, w, a.c);
        CoherentStarts(w.wire, w.used);
        GuardMeansCurrent(k, w, a.c, t);
        RollupTrue(w, t.from, a.id, a.author, a.ts);
        RollupsAppend(w.wire, sr);
      }
    } else {
      OthersSilent(k, w, a);
      SilentIs(w, Perform(k, w, a));
    }
  }

  lemma TruthSound(wire: seq<SeqRecord>, used: set<OpId>)
    requires Coherent(wire, used)
    ensures StartsWithBaseline(wire) && Sound(Truth(wire))
  {
    hide Sound, Truth, ReadFrom, EssenceOf;
  }

  lemma LandsIs(w: World, v: World, sr: SeqRecord)
    requires Lands(w, v, sr)
    ensures v.wire == w.wire + [sr]
  {
  }

  lemma SilentIs(w: World, v: World)
    requires Silent(w, v)
    ensures v.wire == w.wire
  {
  }

  lemma {:induction false} RollupsRun(k: Codec, w: World, run: seq<Action>)
    requires Lossless(k) && Inv(k, w) && ValidRun(k, w, run) && RollupsTrue(w.wire)
    ensures RollupsTrue(After(k, w, run).wire)
    decreases |run|
  {
    if |run| > 0 {
      hide Inv, Lossless, Enabled, Perform, RollupsTrue;
      InvStep(k, w, run[0]);
      RollupsStep(k, w, run[0]);
      RollupsRun(k, Perform(k, w, run[0]), run[1..]);
    }
  }

  // ----- dangling marks, whatever was rolled up on the way

  /** The ids a reader that starts at baseline `from` can resolve: those the founding baseline names, or those a rollup
      keeps and its own; and everything that landed since. */
  ghost function Resolvable(wire: seq<SeqRecord>, from: nat): set<OpId>
    requires BaselineAt(wire, from) && (from > 0 ==> StartsWithBaseline(wire[..from]))
  {
    (if from == 0 then Seed(wire[0].record).seen else {wire[from].record.id} + Kept(Truth(wire[..from])))
    + SeenBy(wire[from + 1..])
  }

  lemma ReaderSees(wire: seq<SeqRecord>, from: nat)
    requires RollupsTrue(wire) && BaselineAt(wire, from) && Unmarked(Seed(wire[0].record))
    ensures from > 0 ==> StartsWithBaseline(wire[..from])
    ensures ReadFrom(wire, from).seen == Resolvable(wire, from) && Unmarked(ReadFrom(wire, from))
  {
    var r := wire[from].record;
    assert wire[from..][0] == wire[from] && wire[from..][1..] == wire[from + 1..];
    if from > 0 {
      assert RollupAt(wire, from);
      hide Sound, EssenceOf, IsRollupOf, Truth;
      SeedSeen(Truth(wire[..from]), r);
    }
    hide RollupsTrue, Seed, Kept, SeenBy, Truth, Unmarked, Leaves;
    SeenTail(Seed(r), wire[from + 1..]);
  }

  /** The ids of the rollups. */
  function RollupIds(wire: seq<SeqRecord>): set<OpId> {
    set j | 0 < j < |wire| && wire[j].record.op.Baseline? :: wire[j].record.id
  }

  lemma TruthSeenGrows(wire: seq<SeqRecord>, sr: SeqRecord)
    requires StartsWithBaseline(wire)
    ensures StartsWithBaseline(wire + [sr]) && Truth(wire).seen <= Truth(wire + [sr]).seen
    ensures !sr.record.op.Baseline? ==> sr.record.id in Truth(wire + [sr]).seen
  {
    TruthAppend(wire, sr);
    hide Truth, Step;
    if !sr.record.op.Baseline? { GraphStep(Truth(wire), sr); }
  }

  lemma SeenByAppend(tail: seq<SeqRecord>, sr: SeqRecord)
    ensures SeenBy(tail + [sr]) == SeenBy(tail) + {sr.record.id}
              + if sr.record.op.Baseline? && sr.record.op.readable then Elems(sr.record.op.baseline.frontier) else {}
  {
    assert (tail + [sr])[..|tail|] == tail;
  }

  /** What lands after a baseline tells a reader nothing the full log does not, but for the rollups' own ids. */
  lemma {:induction false} SinceKnown(wire: seq<SeqRecord>, from: nat)
    requires RollupsTrue(wire) && from < |wire|
    ensures SeenBy(wire[from + 1..]) <= Truth(wire).seen + RollupIds(wire)
    decreases |wire|
  {
    var n := |wire| - 1;
    if from == n {
      assert wire[from + 1..] == [];
    } else {
      var sooner, sr := wire[..n], wire[n];
      assert wire == sooner + [sr] && wire[from + 1..] == sooner[from + 1..] + [sr];
      RollupsSooner(wire);
      SinceKnown(sooner, from);
      TruthSeenGrows(sooner, sr);
      SeenByAppend(sooner[from + 1..], sr);
      RollupIdsAppend(sooner, sr);
      if sr.record.op.Baseline? {
        assert RollupAt(wire, n);
        CheckpointLeaves(Truth(sooner), sr.record);
      }
      hide RollupsTrue, Truth, SeenBy, RollupIds, Leaves;
    }
  }

  lemma RollupsSooner(wire: seq<SeqRecord>)
    requires RollupsTrue(wire) && |wire| > 1
    ensures RollupsTrue(wire[..|wire| - 1])
  {
    var sooner := wire[..|wire| - 1];
    hide IsRollupOf, EssenceOf, Truth, Sound, Leaves;
    forall k: nat | 0 < k && BaselineAt(sooner, k) ensures RollupAt(sooner, k) {
      assert BaselineAt(wire, k) && sooner[..k] == wire[..k];
    }
  }

  lemma RollupIdsAppend(wire: seq<SeqRecord>, sr: SeqRecord)
    requires |wire| > 0
    ensures RollupIds(wire + [sr]) == RollupIds(wire) + if sr.record.op.Baseline? then {sr.record.id} else {}
  {
    var longer := wire + [sr];
    forall id | id in RollupIds(wire) ensures id in RollupIds(longer) {
      var j :| 0 < j < |wire| && wire[j].record.op.Baseline? && wire[j].record.id == id;
      assert longer[j] == wire[j];
    }
    forall id | id in RollupIds(longer)
      ensures id in RollupIds(wire) || (sr.record.op.Baseline? && id == sr.record.id) {
      var j :| 0 < j < |longer| && longer[j].record.op.Baseline? && longer[j].record.id == id;
      if j < |wire| { assert longer[j] == wire[j]; }
    }
    if sr.record.op.Baseline? { assert longer[|wire|] == sr; }
  }

  lemma CheckpointLeaves(s: State, rb: Record)
    requires IsRollupOf(rb, EssenceOf(s))
    ensures rb.op.Baseline? && Elems(rb.op.baseline.frontier) <= s.seen
  {
    RollupShape(s, rb);
    assert Leaves(s) <= s.seen;
    hide EssenceOf, IsRollupOf;
  }

  /** Rollups only ever take from what a reader can resolve, and add nothing but their own ids. */
  lemma ResolvableWithin(wire: seq<SeqRecord>, from: nat)
    requires RollupsTrue(wire) && BaselineAt(wire, from)
    ensures from > 0 ==> StartsWithBaseline(wire[..from])
    ensures Resolvable(wire, from) <= Truth(wire).seen + RollupIds(wire)
  {
    SinceKnown(wire, from);
    if from > 0 {
      assert RollupAt(wire, from);
      assert wire[from].record.id in RollupIds(wire);
      SeenKeeps(Truth(wire[..from]));
      TruthSeenPrefix(wire, from);
    } else {
      PlainStarts(wire);
      FoundingSeen(wire);
    }
    hide RollupsTrue, Truth, SeenBy, RollupIds, Kept, Seed;
  }

  lemma {:induction false} TruthSeenPrefix(wire: seq<SeqRecord>, k: nat)
    requires k <= |wire| && StartsWithBaseline(wire[..k])
    ensures StartsWithBaseline(wire) && Truth(wire[..k]).seen <= Truth(wire).seen
    decreases |wire| - k
  {
    if k == |wire| {
      assert wire[..k] == wire;
    } else {
      assert wire[..k + 1] == wire[..k] + [wire[k]];
      TruthSeenGrows(wire[..k], wire[k]);
      TruthSeenPrefix(wire, k + 1);
    }
  }

  lemma FoundingSeen(wire: seq<SeqRecord>)
    requires StartsWithBaseline(wire)
    ensures Seed(wire[0].record).seen <= Truth(wire).seen
  {
    PlainStarts(wire);
    hide Seed, FoldFrom, Plain;
    SeenGrowsTail(Seed(wire[0].record), Plain(wire)[1..]);
  }

  lemma SeenGrowsTail(s: State, tail: seq<SeqRecord>)
    requires Bounded(s)
    ensures s.seen <= FoldFrom(s, tail).seen
  {
    hide FoldFrom;
    SeenGrows(s, tail);
  }

  ghost predicate DanglesExactly(anchor: OpId, dangling: bool, seen: set<OpId>) {
    dangling <==> anchor != "" && anchor !in seen
  }

  /** Dangling marks over whole runs, with any number of rollups: a reader's mark stands exactly where the anchor is
      none of the ids it can resolve; and next to the log nobody compacted, a mark is never missing except where the
      anchor is a rollup's own id. */
  lemma MarksOverRuns(k: Codec, start: World, run: seq<Action>, w: World, from: nat)
    requires Lossless(k) && Founded(start) && ValidRun(k, start, run) && After(k, start, run) == w
    requires Unmarked(Seed(start.wire[0].record)) && BaselineAt(w.wire, from)
    ensures StartsWithBaseline(w.wire) && (from > 0 ==> StartsWithBaseline(w.wire[..from]))
    ensures Resolvable(w.wire, from) <= Truth(w.wire).seen + RollupIds(w.wire)
    ensures var mt := View(w.path, w.wire[from..]);
      && (forall i :: 0 <= i < |mt.contributions| ==>
            DanglesExactly(mt.contributions[i].anchor, mt.contributions[i].dangling, Resolvable(w.wire, from)))
      && (forall i :: 0 <= i < |mt.attachments| ==>
            DanglesExactly(mt.attachments[i].anchor, mt.attachments[i].dangling, Resolvable(w.wire, from)))
    ensures var mt := View(w.path, Plain(w.wire));
      && (forall i :: 0 <= i < |mt.contributions| ==>
            DanglesExactly(mt.contributions[i].anchor, mt.contributions[i].dangling, Truth(w.wire).seen))
      && (forall i :: 0 <= i < |mt.attachments| ==>
            DanglesExactly(mt.attachments[i].anchor, mt.attachments[i].dangling, Truth(w.wire).seen))
  {
    FoundingRollups(start);
    hide *;
    FoundedInv(k, start);
    RollupsRun(k, start, run);
    RunExtends(k, start, run);
    RollupsStart(w.wire);
    FirstKept(start.wire, w.wire);
    ReaderSees(w.wire, from);
    ResolvableWithin(w.wire, from);
    TruthUnmarked(w.wire);
    ReaderMarks(w.path, w.wire, from);
    PlainMarks(w.path, w.wire);
  }

  lemma FoundingRollups(start: World)
    requires Founded(start)
    ensures |start.wire| == 1 && RollupsTrue(start.wire)
  {
    hide StoreOk, BlobsOk, Seed, Mentions, RollupAt;
  }

  lemma RollupsStart(wire: seq<SeqRecord>)
    requires RollupsTrue(wire)
    ensures StartsWithBaseline(wire) && |wire| > 0
  {
    hide RollupAt;
  }

  lemma FirstKept(wire: seq<SeqRecord>, longer: seq<SeqRecord>)
    requires wire <= longer && |wire| > 0
    ensures longer[0] == wire[0]
  {
  }

  lemma TruthUnmarked(wire: seq<SeqRecord>)
    requires StartsWithBaseline(wire) && Unmarked(Seed(wire[0].record))
    ensures Unmarked(Truth(wire))
  {
    PlainStarts(wire);
    hide Unmarked, Seed, Plain;
    SeenTail(Seed(wire[0].record), Plain(wire)[1..]);
  }

  lemma ReaderMarks(path: string, wire: seq<SeqRecord>, from: nat)
    requires BaselineAt(wire, from) && Unmarked(ReadFrom(wire, from))
    ensures var mt, seen := View(path, wire[from..]), ReadFrom(wire, from).seen;
      && (forall i :: 0 <= i < |mt.contributions| ==>
            DanglesExactly(mt.contributions[i].anchor, mt.contributions[i].dangling, seen))
      && (forall i :: 0 <= i < |mt.attachments| ==>
            DanglesExactly(mt.attachments[i].anchor, mt.attachments[i].dangling, seen))
  {
    hide FoldLog, View, Unmarked, CleanContribution, CleanAttachment;
    MarksOf(path, wire[from..]);
  }

  lemma PlainMarks(path: string, wire: seq<SeqRecord>)
    requires StartsWithBaseline(wire) && Unmarked(Truth(wire))
    ensures var mt, seen := View(path, Plain(wire)), Truth(wire).seen;
      && (forall i :: 0 <= i < |mt.contributions| ==>
            DanglesExactly(mt.contributions[i].anchor, mt.contributions[i].dangling, seen))
      && (forall i :: 0 <= i < |mt.attachments| ==>
            DanglesExactly(mt.attachments[i].anchor, mt.attachments[i].dangling, seen))
  {
    PlainStarts(wire);
    hide FoldLog, View, Unmarked, Plain, CleanContribution, CleanAttachment;
    MarksOf(path, Plain(wire));
  }
}
