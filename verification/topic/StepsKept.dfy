/** One lemma per action: the step keeps the invariant of the topic machine. */
module StepsKept {
  import opened Prelude
  import opened Vocabulary
  import opened Fold
  import opened EssenceOfTopic
  import opened Compaction
  import opened LifecycleRules
  import opened History
  import opened Manifests
  import opened Machine
  import opened Safety
  import opened Steps

  // ----- steps that change only the client

  lemma OwnState(k: Codec, w: World, c: ClientId)
    requires Inv(k, w) && c in w.clients
    ensures ClientOk(k, w, c, w.clients[c]) && StartsWithBaseline(w.wire) && Coherent(w.wire, w.used) && LogOk(k, w)
      && StoreOk(w) && BlobsOk(w)
  {
    hide ClientOk, LogOk, StoreOk, BlobsOk;
  }

  lemma OwnTask(k: Codec, w: World, c: ClientId)
    requires Inv(k, w) && c in w.clients
    ensures LogOk(k, w) && StoreOk(w)
    ensures Elems(w.clients[c].frontier) <= w.used && (w.clients[c].lifecycle.Archived? ==> IsArchived(w))
      && TaskOk(k, w, c, w.clients[c].task)
  {
    OwnState(k, w, c);
    hide Inv, LogOk, StoreOk, BlobsOk, TaskOk, IsArchived;
  }

  lemma IdleOk(k: Codec, w: World, c: ClientId, cl: Client)
    requires ClientOk(k, w, c, cl)
    ensures ClientOk(k, w, c, cl.(task := Idle))
  {
    hide IsArchived;
  }

  lemma RepostKept(k: Codec, w: World, c: ClientId, id: OpId)
    requires Inv(k, w) && Enabled(w, Repost(c, id))
    ensures Inv(k, Perform(k, w, Repost(c, id)))
  {
    OwnState(k, w, c);
    hide Inv, IsArchived;
    ClientStep(k, w, c, w.clients[c].(frontier := [id]));
  }

  lemma DrainKept(k: Codec, w: World, c: ClientId, purpose: Purpose)
    requires Inv(k, w) && Enabled(w, Drain(c, purpose))
    ensures Inv(k, Perform(k, w, Drain(c, purpose)))
  {
    hide *;
    DrainIs(k, w, c, purpose);
    OwnTask(k, w, c);
    FreshSnapshot(k, w, c, purpose);
    TaskStep(k, w, c, Drained(purpose, DrainOps(w.msgs), w.base, |w.wire|));
  }

  lemma DrainIs(k: Codec, w: World, c: ClientId, purpose: Purpose)
    requires Enabled(w, Drain(c, purpose))
    ensures |w.msgs| > 0 && c in w.clients && (purpose.Sweep? ==> w.clients[c].lifecycle.Archived?)
    ensures Perform(k, w, Drain(c, purpose)) == SetTask(w, c, Drained(purpose, DrainOps(w.msgs), w.base, |w.wire|))
  {
    hide DrainOps;
  }

  lemma FreshSnapshot(k: Codec, w: World, c: ClientId, purpose: Purpose)
    requires LogOk(k, w) && (purpose.Sweep? ==> IsArchived(w))
    ensures TaskOk(k, w, c, Drained(purpose, DrainOps(w.msgs), w.base, |w.wire|))
  {
    hide SnapOk, DrainOps, ManifestChunksOf, IsArchived;
  }

  lemma TaskStep(k: Codec, w: World, c: ClientId, t: Task)
    requires Inv(k, w) && c in w.clients && TaskOk(k, w, c, t)
    ensures Inv(k, SetTask(w, c, t))
  {
    OwnState(k, w, c);
    hide Inv, IsArchived, TaskOk;
    ClientStep(k, w, c, w.clients[c].(task := t));
  }

  lemma StopKept(k: Codec, w: World, c: ClientId)
    requires Inv(k, w) && c in w.clients
    ensures Inv(k, SetTask(w, c, Idle)) && Inv(k, SetClient(w, c, Client([], Unset, Idle)))
      && Inv(k, SetClient(w, c, Client([], Proposed, Idle)))
  {
    OwnState(k, w, c);
    IdleOk(k, w, c, w.clients[c]);
    hide Inv, IsArchived;
    ClientStep(k, w, c, w.clients[c].(task := Idle));
    ClientStep(k, w, c, Client([], Unset, Idle));
    ClientStep(k, w, c, Client([], Proposed, Idle));
  }

  // ----- folding a snapshot

  /** Resolving a snapshot yields the logical stretch of history it stands for, or nothing at all. */
  lemma SnapshotResolves(k: Codec, w: World, objects: map<string, Bytes>, recs: seq<SeqRecord>, from: nat, upto: nat)
    requires Lossless(k) && StoreOk(w) && SnapOk(k, w, recs, from, upto) && objects.Items <= w.objects.Items
    ensures if forall n :: n in ManifestChunksOf(recs) ==> n in objects
            then Manifests.Resolve(k, objects, recs) == Inline(w.wire[from..upto])
            else Manifests.Resolve(k, objects, recs) == Broken(ManifestUnreadable)
  {
    var logical := w.wire[from].record;
    assert recs[0 := SeqRecord(logical, recs[0].streamSeq)] == w.wire[from..upto] by {
      var a, b := recs[0 := SeqRecord(logical, recs[0].streamSeq)], w.wire[from..upto];
      assert |a| == |b| && a[0] == b[0];
      assert a[1..] == recs[1..] && b[1..] == w.wire[from + 1..upto];
      assert a == [a[0]] + a[1..] && b == [b[0]] + b[1..];
    }
    forall n | n in objects ensures n in w.contents && objects[n] == w.contents[n] {
      assert (n, objects[n]) in objects.Items;
    }
    hide Manifests.Resolve, WireForm, Lossless, ManifestChunksOf;
    ResolveWireForm(k, w.contents, objects, recs, logical);
  }

  lemma {:induction false} RemovedBlobsExactly(xs: seq<Attachment>, n: string)
    ensures n in RemovedBlobs(xs) <==> exists i :: 0 <= i < |xs| && xs[i].removed && xs[i].blob == n
  {
    if |xs| > 0 {
      var m := |xs| - 1;
      var ys := xs[..m];
      RemovedBlobsExactly(ys, n);
      assert n in RemovedBlobs(xs) <==> n in RemovedBlobs(ys) || (xs[m].removed && xs[m].blob == n) by {
        if xs[m].removed {}
      }
      hide RemovedBlobs;
      if n in RemovedBlobs(ys) {
        var i :| 0 <= i < |ys| && ys[i].removed && ys[i].blob == n;
        assert xs[i] == ys[i];
      }
      if i :| 0 <= i < |xs| && xs[i].removed && xs[i].blob == n && i < m {
        assert ys[i] == xs[i];
      }
    }
  }

  /** What a view shows, in terms of the fold behind it. */
  lemma ViewFacts(path: string, log: seq<SeqRecord>)
    requires StartsWithBaseline(log)
    ensures var mt, s := View(path, log), FoldLog(log);
      && mt.malformed.None? && mt.lifecycle == SettledLifecycle(s) && Elems(mt.frontier) <= s.seen
      && |mt.attachments| == |s.attachments|
      && forall i :: 0 <= i < |s.attachments| ==>
         mt.attachments[i].blob == s.attachments[i].blob && mt.attachments[i].removed == s.attachments[i].removed
  {
  }

  /** An adopted view claims nothing that is not so. */
  lemma ViewSafe(k: Codec, w: World, from: nat, upto: nat)
    requires Inv(k, w) && BaselineAt(w.wire, from) && from < upto <= |w.wire|
    ensures var mt := View(w.path, w.wire[from..upto]);
      Elems(mt.frontier) <= w.used && mt.malformed.None? && (mt.lifecycle.Archived? ==> IsArchived(w))
  {
    SnapshotFacts(w.wire, w.used, from, upto);
    ViewFacts(w.path, w.wire[from..upto]);
    hide Inv, View, FoldLog, SettledLifecycle, EssenceOf, AttachmentsKept, Truth;
  }

  lemma RemovedWithdrawn(w: World, xs: seq<Attachment>, n: string)
    requires StartsWithBaseline(w.wire) && AttachmentsKept(xs, Now(w).attachments) && BlobsOk(w) && IsArchived(w)
      && n in RemovedBlobs(xs)
    ensures MayDelete(w, n)
  {
    RemovedBlobsExactly(xs, n);
    hide Now, IsArchived, RemovedBlobs;
    var i :| 0 <= i < |xs| && xs[i].removed && xs[i].blob == n;
    assert Now(w).attachments[i].blob == n && Now(w).attachments[i].removed;
  }

  lemma SameMarks(xs: seq<Attachment>, ys: seq<Attachment>, zs: seq<Attachment>)
    requires AttachmentsKept(xs, zs) && |ys| == |xs|
    requires forall i :: 0 <= i < |xs| ==> ys[i].blob == xs[i].blob && ys[i].removed == xs[i].removed
    ensures AttachmentsKept(ys, zs)
  {
  }

  lemma ViewAttachments(k: Codec, w: World, from: nat, upto: nat)
    requires Inv(k, w) && BaselineAt(w.wire, from) && from < upto <= |w.wire|
    ensures StartsWithBaseline(w.wire)
      && AttachmentsKept(View(w.path, w.wire[from..upto]).attachments, Now(w).attachments)
  {
    assert Coherent(w.wire, w.used) && StartsWithBaseline(w.wire);
    hide *;
    SnapshotFacts(w.wire, w.used, from, upto);
    ViewFacts(w.path, w.wire[from..upto]);
    NowIs(w);
    SameMarks(FoldLog(w.wire[from..upto]).attachments, View(w.path, w.wire[from..upto]).attachments,
              Now(w).attachments);
  }

  lemma NowIs(w: World)
    requires StartsWithBaseline(w.wire)
    ensures Now(w) == EssenceOf(Truth(w.wire))
  {
    hide EssenceOf, Truth;
  }

  lemma DeletingOk(k: Codec, w: World, c: ClientId, names: seq<string>)
    requires forall n :: n in names ==> MayDelete(w, n)
    ensures TaskOk(k, w, c, Deleting(names))
  {
    hide MayDelete;
  }

  lemma SweepKept(k: Codec, w: World, c: ClientId, from: nat, upto: nat)
    requires Inv(k, w) && c in w.clients && BaselineAt(w.wire, from) && from < upto <= |w.wire| && IsArchived(w)
    ensures Inv(k, SetTask(w, c, Deleting(RemovedBlobs(View(w.path, w.wire[from..upto]).attachments))))
  {
    OwnState(k, w, c);
    hide *;
    var xs := View(w.path, w.wire[from..upto]).attachments;
    ViewAttachments(k, w, from, upto);
    forall n | n in RemovedBlobs(xs) ensures MayDelete(w, n) { RemovedWithdrawn(w, xs, n); }
    DeletingOk(k, w, c, RemovedBlobs(xs));
    TaskStep(k, w, c, Deleting(RemovedBlobs(xs)));
  }

  lemma ReadKept(k: Codec, w: World, c: ClientId, from: nat, upto: nat)
    requires Inv(k, w) && c in w.clients && BaselineAt(w.wire, from) && from < upto <= |w.wire|
    ensures var mt := View(w.path, w.wire[from..upto]); Inv(k, SetClient(w, c, Client(mt.frontier, mt.lifecycle, Idle)))
  {
    var mt := View(w.path, w.wire[from..upto]);
    ViewSafe(k, w, from, upto);
    hide View, Inv, IsArchived;
    ClientStep(k, w, c, Client(mt.frontier, mt.lifecycle, Idle));
  }

  /** A rollup's plan, made from a resolved snapshot. */
  ghost function Plan(w: World, recs: seq<SeqRecord>, from: nat, upto: nat): Task
    requires from < upto <= |w.wire|
  {
    Ready(View(w.path, w.wire[from..upto]), ManifestChunksOf(recs), w.wire[upto - 1].streamSeq, from, upto, None)
  }

  lemma PlanOk(k: Codec, w: World, c: ClientId, purpose: Purpose, recs: seq<SeqRecord>, from: nat, upto: nat)
    requires from + 1 < upto && TaskOk(k, w, c, Drained(purpose, recs, from, upto))
    ensures upto <= |w.wire| && TaskOk(k, w, c, Plan(w, recs, from, upto))
  {
    hide View, SnapOk, BaselineAt, MayDelete, ManifestChunksOf, DrainOps, TaskOk;
    DrainedMeans(k, w, c, purpose, recs, from, upto);
    SnapBounds(k, w, recs, from, upto);
    PlanFits(k, w, c, Plan(w, recs, from, upto));
  }

  lemma DrainedMeans(k: Codec, w: World, c: ClientId, purpose: Purpose, recs: seq<SeqRecord>, from: nat, upto: nat)
    requires TaskOk(k, w, c, Drained(purpose, recs, from, upto))
    ensures SnapOk(k, w, recs, from, upto) && (purpose.Sweep? ==> IsArchived(w))
    ensures upto == |w.wire| ==> from == w.base && ManifestChunksOf(recs) == ManifestChunksOf(DrainOps(w.msgs))
  {
    hide SnapOk, ManifestChunksOf, DrainOps, IsArchived;
  }

  lemma SnapBounds(k: Codec, w: World, recs: seq<SeqRecord>, from: nat, upto: nat)
    requires SnapOk(k, w, recs, from, upto)
    ensures BaselineAt(w.wire, from) && from < upto <= |w.wire|
  {
    hide WireForm;
  }

  lemma PlanFits(k: Codec, w: World, c: ClientId, t: Task)
    requires t.Ready? && t.chunk.None? && BaselineAt(w.wire, t.from) && t.from + 1 < t.upto <= |w.wire|
    requires t.mt == View(w.path, w.wire[t.from..t.upto]) && t.tail == w.wire[t.upto - 1].streamSeq
    requires t.upto == |w.wire| ==> t.from == w.base && t.superseded == ManifestChunksOf(DrainOps(w.msgs))
    ensures TaskOk(k, w, c, t)
  {
    hide View, SnapOk, BaselineAt, MayDelete, ManifestChunksOf, DrainOps;
  }

  lemma PlanKept(k: Codec, w: World, c: ClientId, purpose: Purpose, recs: seq<SeqRecord>, from: nat, upto: nat)
    requires Inv(k, w) && c in w.clients && from + 1 < upto && w.clients[c].task == Drained(purpose, recs, from, upto)
    ensures upto <= |w.wire| && Inv(k, SetTask(w, c, Plan(w, recs, from, upto)))
  {
    OwnState(k, w, c);
    hide *;
    PlanOk(k, w, c, purpose, recs, from, upto);
    TaskStep(k, w, c, Plan(w, recs, from, upto));
  }

  lemma ReachedSome(w: World, reachable: bool)
    ensures Reached(w, reachable).Items <= w.objects.Items
  {
  }

  lemma ResolveIs(k: Codec, w: World, c: ClientId, reachable: bool)
    requires Enabled(w, Action.Resolve(c, reachable))
    ensures c in w.clients && w.clients[c].task.Drained?
      && Perform(k, w, Action.Resolve(c, reachable)) == ResolveStep(k, w, c, reachable)
  {
    hide ResolveStep;
  }

  lemma ResolveFails(k: Codec, w: World, c: ClientId, reachable: bool)
    requires c in w.clients && w.clients[c].task.Drained?
      && Manifests.Resolve(k, Reached(w, reachable), w.clients[c].task.recs).Broken?
    ensures ResolveStep(k, w, c, reachable) == SetTask(w, c, Idle)
      || ResolveStep(k, w, c, reachable) == SetClient(w, c, Client([], Proposed, Idle))
  {
    hide Manifests.Resolve, View;
  }

  lemma ResolveSucceeds(k: Codec, w: World, c: ClientId, reachable: bool, recs: seq<SeqRecord>)
    requires c in w.clients && w.clients[c].task.Drained? && |recs| > 0
    requires Manifests.Resolve(k, Reached(w, reachable), w.clients[c].task.recs) == Inline(recs)
    ensures var mt, t, v := View(w.path, recs), w.clients[c].task, ResolveStep(k, w, c, reachable);
      match t.purpose
      case Read => v == SetClient(w, c, Client(mt.frontier, mt.lifecycle, Idle))
      case Compact(_) => v == SetTask(w, c, Idle)
        || (|recs| > 1
           && v == SetTask(w, c, Ready(mt, ManifestChunksOf(t.recs), recs[|recs| - 1].streamSeq, t.from, t.upto, None)))
      case Sweep => v == SetTask(w, c, Deleting(RemovedBlobs(mt.attachments)))
  {
    hide Manifests.Resolve, View, ManifestChunksOf, RemovedBlobs;
  }

  /** A snapshot resolves to a stretch of history or not at all, so its view is that stretch's view. */
  lemma ResolveKept(k: Codec, w: World, c: ClientId, reachable: bool)
    requires Lossless(k) && Inv(k, w) && Enabled(w, Action.Resolve(c, reachable))
    ensures Inv(k, Perform(k, w, Action.Resolve(c, reachable)))
  {
    hide *;
    ResolveIs(k, w, c, reachable);
    OwnTask(k, w, c);
    StopKept(k, w, c);
    var t := w.clients[c].task;
    DrainedMeans(k, w, c, t.purpose, t.recs, t.from, t.upto);
    SnapBounds(k, w, t.recs, t.from, t.upto);
    ReachedSome(w, reachable);
    SnapshotResolves(k, w, Reached(w, reachable), t.recs, t.from, t.upto);
    if Manifests.Resolve(k, Reached(w, reachable), t.recs).Broken? {
      ResolveFails(k, w, c, reachable);
    } else {
      var recs := w.wire[t.from..t.upto];
      ResolveSucceeds(k, w, c, reachable, recs);
      match t.purpose
      case Read => ReadKept(k, w, c, t.from, t.upto);
      case Compact(_) =>
        if |recs| > 1 {
          PlanKept(k, w, c, t.purpose, t.recs, t.from, t.upto);
          PlanIs(w, t.recs, t.from, t.upto);
        }
      case Sweep => SweepKept(k, w, c, t.from, t.upto);
    }
  }

  lemma PlanIs(w: World, recs: seq<SeqRecord>, from: nat, upto: nat)
    requires from < upto <= |w.wire|
    ensures var log := w.wire[from..upto];
      Plan(w, recs, from, upto) ==
          Ready(View(w.path, log), ManifestChunksOf(recs), log[|log| - 1].streamSeq, from, upto, None)
  {
    hide View;
  }
}
