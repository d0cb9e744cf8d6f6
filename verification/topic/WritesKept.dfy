/** Steps that change the subject or the object store keep the invariant of the topic machine. */
module WritesKept {
  import opened Prelude
  import opened Vocabulary
  import opened Fold
  import opened EssenceOfTopic
  import opened Soundness
  import opened Compaction
  import opened LifecycleRules
  import opened History
  import opened Manifests
  import opened Machine
  import opened Safety
  import opened Steps
  import opened StepsKept

  // ----- an unparseable message

  lemma GarbleLog(k: Codec, w: World, seqNo: nat)
    requires LogOk(k, w) && w.lastSeq < seqNo
    ensures var v := w.(msgs := w.msgs + [Msg(seqNo, None)], lastSeq := seqNo);
      LogOk(k, v) && DrainOps(v.msgs) == DrainOps(w.msgs)
  {
    DrainAppend(w.msgs, Msg(seqNo, None));
    assert DrainOps(w.msgs) + [] == DrainOps(w.msgs);
    hide DrainOps, ManifestChunksOf, WireForm;
  }

  /** Worlds that tell the same story to every reader: only the raw messages differ, in garbage. */
  lemma GarbleKept(k: Codec, w: World, seqNo: nat)
    requires Inv(k, w) && Enabled(w, Garble(seqNo))
    ensures Inv(k, Perform(k, w, Garble(seqNo)))
  {
    hide *;
    var v := w.(msgs := w.msgs + [Msg(seqNo, None)], lastSeq := seqNo);
    GarbleIs(k, w, seqNo);
    InvParts(k, w);
    GarbleLog(k, w, seqNo);
    SameStory(w, v);
    AllKept(k, w, v);
  }

  lemma GarbleIs(k: Codec, w: World, seqNo: nat)
    requires Enabled(w, Garble(seqNo))
    ensures w.lastSeq < seqNo
      && Perform(k, w, Garble(seqNo)) == w.(msgs := w.msgs + [Msg(seqNo, None)], lastSeq := seqNo)
  {
  }

  lemma InvParts(k: Codec, w: World)
    requires Inv(k, w)
    ensures Coherent(w.wire, w.used) && LogOk(k, w) && StoreOk(w) && BlobsOk(w)
  {
    hide Coherent, LogOk, StoreOk, BlobsOk, ClientOk;
  }

  lemma SameStory(w: World, v: World)
    requires v == w.(msgs := v.msgs, lastSeq := v.lastSeq) && DrainOps(v.msgs) == DrainOps(w.msgs)
    ensures StoreOk(w) ==> StoreOk(v)
    ensures BlobsOk(w) ==> BlobsOk(v)
    ensures forall d :: Later(w, v, d)
  {
    forall d ensures Later(w, v, d) { SameStoryLater(w, v, d); }
    hide EssenceOf, Truth, ManifestChunksOf, DrainOps, Later;
  }

  lemma SameStoryLater(w: World, v: World, d: ClientId)
    requires v == w.(msgs := v.msgs, lastSeq := v.lastSeq) && DrainOps(v.msgs) == DrainOps(w.msgs)
    ensures Later(w, v, d)
  {
    SameTold(w, v);
    hide IsArchived, Withdrawn, ManifestChunksOf, DrainOps;
  }

  lemma AllKept(k: Codec, w: World, v: World)
    requires Inv(k, w) && Coherent(v.wire, v.used) && LogOk(k, v) && StoreOk(v) && BlobsOk(v)
    requires v.clients == w.clients && forall d :: Later(w, v, d)
    ensures Inv(k, v)
  {
    hide Coherent, LogOk, StoreOk, BlobsOk, Later, ClientOk;
    forall d | d in v.clients ensures ClientOk(k, v, d, v.clients[d]) {
      ClientLater(k, w, v, d, w.clients[d]);
    }
  }

  // ----- putting an object

  lemma MoreContents(k: Codec, w: World, v: World)
    requires LogOk(k, w) && v.msgs == w.msgs && v.wire == w.wire && v.base == w.base && v.lastSeq == w.lastSeq
    requires forall n :: n in w.contents ==> n in v.contents && v.contents[n] == w.contents[n]
    requires forall n :: n in w.fates && w.fates[n] == Live ==>
      n in v.fates && v.fates[n] == Live && (n in w.objects ==> n in v.objects)
    ensures LogOk(k, v)
  {
    hide DrainOps, ManifestChunksOf;
  }

  lemma BlobsStay(w: World, v: World)
    requires BlobsOk(w) && v.wire == w.wire
    requires forall n :: n in w.fates && w.fates[n] == Attached ==>
      n in v.fates && v.fates[n] == Attached && (n in w.objects ==> n in v.objects)
    ensures BlobsOk(v)
  {
    hide EssenceOf, Truth;
  }

  /** Nothing but the store and the fates changed, and no fate that others rely on. */
  lemma LaterStore(w: World, v: World, d: ClientId)
    requires v == w.(objects := v.objects, contents := v.contents, fates := v.fates, clients := v.clients)
    requires forall n :: n in w.contents ==> n in v.contents && v.contents[n] == w.contents[n]
    requires forall n :: n in w.fates && w.fates[n] in {Dead, Attached, InFlight(d), Pending(d)} ==>
      n in v.fates && v.fates[n] == w.fates[n]
    requires forall n :: n in w.fates && w.fates[n] in {InFlight(d), Pending(d)} && n in w.objects ==> n in v.objects
    ensures Later(w, v, d)
  {
    SameTold(w, v);
    hide IsArchived, Withdrawn, DrainOps, ManifestChunksOf;
  }

  lemma StoredFacts(w: World, name: string, data: Bytes, fate: Fate)
    requires StoreOk(w) && name !in w.contents
    ensures name !in w.fates && name !in w.objects && StoreOk(Stored(w, name, data, fate))
  {
  }

  lemma StoredLater(k: Codec, w: World, name: string, data: Bytes, fate: Fate)
    requires StoreOk(w) && LogOk(k, w) && BlobsOk(w) && name !in w.contents
    ensures var v := Stored(w, name, data, fate); LogOk(k, v) && StoreOk(v) && BlobsOk(v) && forall d :: Later(w, v, d)
  {
    hide *;
    var v := Stored(w, name, data, fate);
    StoredFacts(w, name, data, fate);
    StoredOnly(w, name, data, fate);
    MoreContents(k, w, v);
    BlobsStay(w, v);
    forall d ensures Later(w, v, d) { LaterStore(w, v, d); }
  }

  lemma StoredOnly(w: World, name: string, data: Bytes, fate: Fate)
    requires name !in w.contents && name !in w.fates
    ensures var v := Stored(w, name, data, fate);
      && v == w.(objects := v.objects, contents := v.contents, fates := v.fates)
      && (forall n :: n in w.contents ==> n in v.contents && v.contents[n] == w.contents[n])
      && (forall n :: n in w.fates ==> n in v.fates && v.fates[n] == w.fates[n])
      && (forall n :: n in w.objects ==> n in v.objects)
  {
  }

  lemma LaterClient(w: World, v: World, u: World, d: ClientId)
    requires Later(w, v, d) && u == v.(clients := u.clients)
    ensures Later(w, u, d)
  {
    SameTold(v, u);
    hide IsArchived, Withdrawn, DrainOps, ManifestChunksOf;
  }

  /** A step that leaves a sound server state behind, and the acting client in a sound one. */
  lemma ServersThenClient(k: Codec, w: World, v: World, c: ClientId, cl: Client)
    requires Inv(k, w) && Coherent(v.wire, v.used) && LogOk(k, v) && StoreOk(v) && BlobsOk(v) && v.clients == w.clients
    requires forall d :: d != c ==> Later(w, v, d)
    requires ClientOk(k, v, c, cl)
    ensures Inv(k, SetClient(v, c, cl))
  {
    var u := SetClient(v, c, cl);
    hide Inv, Later, LogOk, StoreOk, BlobsOk, ClientOk, Coherent;
    SameServers(k, v, u);
    forall d | d in w.clients && d != c ensures Later(w, u, d) { LaterClient(w, v, u, d); }
    ClientLater(k, v, u, c, cl);
    Assemble(k, w, u, c, cl);
  }

  lemma PutKept(k: Codec, w: World, c: ClientId, name: string, data: Bytes, fate: Fate, t: Task)
    requires Inv(k, w) && c in w.clients && name !in w.contents
    requires TaskOk(k, Stored(w, name, data, fate), c, t)
    ensures Inv(k, PutStep(w, c, name, data, fate, t))
  {
    hide *;
    OwnState(k, w, c);
    StoredLater(k, w, name, data, fate);
    StoredClient(k, w, c, name, data, fate, t);
    ServersThenClient(k, w, Stored(w, name, data, fate), c, w.clients[c].(task := t));
    PutIs(w, c, name, data, fate, t);
  }

  lemma StoredClient(k: Codec, w: World, c: ClientId, name: string, data: Bytes, fate: Fate, t: Task)
    requires c in w.clients && ClientOk(k, w, c, w.clients[c]) && TaskOk(k, Stored(w, name, data, fate), c, t)
    ensures Stored(w, name, data, fate).wire == w.wire && Stored(w, name, data, fate).used == w.used
      && Stored(w, name, data, fate).clients == w.clients
    ensures ClientOk(k, Stored(w, name, data, fate), c, w.clients[c].(task := t))
  {
    hide TaskOk, EssenceOf, Truth;
  }

  lemma PutIs(w: World, c: ClientId, name: string, data: Bytes, fate: Fate, t: Task)
    requires c in w.clients
    ensures PutStep(w, c, name, data, fate, t) == SetClient(Stored(w, name, data, fate), c, w.clients[c].(task := t))
  {
  }

  lemma PutChunkIs(k: Codec, w: World, c: ClientId, name: string)
    requires Enabled(w, PutChunk(c, name))
    ensures c in w.clients && w.clients[c].task.Ready? && w.clients[c].task.chunk.None? && name !in w.contents
    ensures var t := w.clients[c].task;
      Perform(k, w, PutChunk(c, name)) ==
          PutStep(w, c, name, k.encode(DocOf(RollupPayload(t.mt))), InFlight(c), t.(chunk := Some(name)))
  {
    hide RollupPayload, PutStep;
  }

  lemma ChunkTask(k: Codec, w: World, c: ClientId, name: string, t: Task)
    requires t.Ready? && t.chunk.None? && TaskOk(k, w, c, t) && name !in w.contents
    ensures TaskOk(k, Stored(w, name, k.encode(DocOf(RollupPayload(t.mt))), InFlight(c)), c, t.(chunk := Some(name)))
  {
    hide View, RollupPayload, ManifestChunksOf, DrainOps, DocOf;
  }

  lemma PutChunkKept(k: Codec, w: World, c: ClientId, name: string)
    requires Inv(k, w) && Enabled(w, PutChunk(c, name))
    ensures Inv(k, Perform(k, w, PutChunk(c, name)))
  {
    hide *;
    PutChunkIs(k, w, c, name);
    OwnTask(k, w, c);
    var t := w.clients[c].task;
    ChunkTask(k, w, c, name, t);
    PutKept(k, w, c, name, k.encode(DocOf(RollupPayload(t.mt))), InFlight(c), t.(chunk := Some(name)));
  }

  lemma UploadKept(k: Codec, w: World, c: ClientId, name: string, data: Bytes)
    requires Inv(k, w) && Enabled(w, Upload(c, name, data))
    ensures Inv(k, Perform(k, w, Upload(c, name, data)))
  {
    hide *;
    UploadIs(k, w, c, name, data);
    UploadedTask(k, w, c, name, data);
    PutKept(k, w, c, name, data, Pending(c), Uploaded(name));
  }

  lemma UploadIs(k: Codec, w: World, c: ClientId, name: string, data: Bytes)
    requires Enabled(w, Upload(c, name, data))
    ensures c in w.clients && name !in w.contents
    ensures Perform(k, w, Upload(c, name, data)) == PutStep(w, c, name, data, Pending(c), Uploaded(name))
  {
    hide PutStep;
  }

  lemma UploadedTask(k: Codec, w: World, c: ClientId, name: string, data: Bytes)
    ensures TaskOk(k, Stored(w, name, data, Pending(c)), c, Uploaded(name))
  {
  }

  // ----- deleting an object

  function Without(w: World, n: string): World {
    w.(objects := w.objects - {n})
  }

  lemma NotNeeded(w: World, n: string)
    requires MayDelete(w, n)
    ensures n in w.fates && w.fates[n] in {Dead, Attached} && (w.fates[n] == Attached ==> Withdrawn(w, n))
  {
    hide Withdrawn;
  }

  lemma DeleteLog(k: Codec, w: World, n: string)
    requires LogOk(k, w) && MayDelete(w, n)
    ensures LogOk(k, Without(w, n))
  {
    NotNeeded(w, n);
    hide MayDelete, Withdrawn, DrainOps, ManifestChunksOf, WireForm;
  }

  lemma DeleteBlobs(w: World, n: string)
    requires BlobsOk(w) && MayDelete(w, n)
    ensures BlobsOk(Without(w, n))
  {
    var v := Without(w, n);
    NotNeeded(w, n);
    hide MayDelete, EssenceOf, Truth;
    var xs := Now(w).attachments;
    assert IsArchived(w) ==> IsArchived(v);
    forall i | 0 <= i < |xs| ensures xs[i].blob in v.objects || (xs[i].removed && IsArchived(v)) {
      if xs[i].blob == n {
        var j :| 0 <= j < |xs| && xs[j].blob == n && xs[j].removed;
        assert i == j;
      }
    }
  }

  lemma DeleteLater(w: World, n: string, d: ClientId)
    requires MayDelete(w, n)
    ensures Later(w, Without(w, n), d)
  {
    NotNeeded(w, n);
    LaterStore(w, Without(w, n), d);
  }

  lemma DeleteServers(k: Codec, w: World, n: string)
    requires LogOk(k, w) && StoreOk(w) && BlobsOk(w) && MayDelete(w, n)
    ensures var v := Without(w, n);
      LogOk(k, v) && StoreOk(v) && BlobsOk(v) && v.clients == w.clients && v.wire == w.wire && v.used == w.used
        && forall d :: Later(w, v, d)
  {
    DeleteLog(k, w, n);
    DeleteBlobs(w, n);
    hide LogOk, BlobsOk, Later, MayDelete;
    forall d ensures Later(w, Without(w, n), d) { DeleteLater(w, n, d); }
  }

  lemma FewerNames(k: Codec, w: World, c: ClientId, cl: Client)
    requires ClientOk(k, w, c, cl) && cl.task.Deleting? && |cl.task.names| > 0
    ensures MayDelete(w, cl.task.names[0]) && ClientOk(k, w, c, cl.(task := Deleting(cl.task.names[1..])))
  {
    hide MayDelete, IsArchived;
  }

  lemma DeleteIs(k: Codec, w: World, c: ClientId, done: bool)
    requires Enabled(w, Delete(c, done))
    ensures c in w.clients && w.clients[c].task.Deleting?
    ensures var cl := w.clients[c];
      Perform(k, w, Delete(c, done)) ==
      if |cl.task.names| == 0 then SetTask(w, c, Idle)
      else
        var next := cl.(task := Deleting(cl.task.names[1..]));
        if done then SetClient(Without(w, cl.task.names[0]), c, next) else SetClient(w, c, next)
  {
  }

  lemma DeleteKept(k: Codec, w: World, c: ClientId, done: bool)
    requires Inv(k, w) && Enabled(w, Delete(c, done))
    ensures Inv(k, Perform(k, w, Delete(c, done)))
  {
    hide *;
    DeleteIs(k, w, c, done);
    OwnState(k, w, c);
    StopKept(k, w, c);
    var cl := w.clients[c];
    if |cl.task.names| > 0 {
      var n, next := cl.task.names[0], cl.(task := Deleting(cl.task.names[1..]));
      FewerNames(k, w, c, cl);
      ClientStep(k, w, c, next);
      DeleteServers(k, w, n);
      ClientLater(k, w, Without(w, n), c, next);
      ServersThenClient(k, w, Without(w, n), c, next);
    }
  }

  // ----- an ordinary operation

  lemma PostedSnap(k: Codec, w: World, v: World, r: Record, seqNo: nat)
    requires SnapOk(k, w, DrainOps(w.msgs), w.base, |w.wire|)
    requires v.wire == w.wire + [SeqRecord(r, seqNo)] && v.msgs == w.msgs + [Msg(seqNo, Some(r))] && v.base == w.base
      && v.contents == w.contents
    ensures SnapOk(k, v, DrainOps(v.msgs), v.base, |v.wire|)
      && ManifestChunksOf(DrainOps(v.msgs)) == ManifestChunksOf(DrainOps(w.msgs))
  {
    var ds, sr := DrainOps(w.msgs), SeqRecord(r, seqNo);
    DrainAppend(w.msgs, Msg(seqNo, Some(r)));
    assert DrainOps(v.msgs) == ds + [sr] && |ds| > 0;
    hide DrainOps, WireForm;
    assert v.wire[w.base] == w.wire[w.base] && (ds + [sr])[0] == ds[0];
    assert v.wire[w.base + 1..] == w.wire[w.base + 1..] + [sr] && (ds + [sr])[1..] == ds[1..] + [sr];
    assert w.wire[w.base + 1..|w.wire|] == w.wire[w.base + 1..] && v.wire[w.base + 1..|v.wire|] == v.wire[w.base + 1..];
    assert ManifestChunksOf(ds + [sr]) == ManifestChunksOf(ds);
  }

  lemma PostedShape(w: World, r: Record, seqNo: nat)
    requires r.op.AttachmentAdd? ==> r.op.blob in w.fates && w.fates[r.op.blob].Pending?
    ensures var v := Posted(w, r, seqNo);
      && v.wire == w.wire + [SeqRecord(r, seqNo)] && v.msgs == w.msgs + [Msg(seqNo, Some(r))] && v.base == w.base
      && v.contents == w.contents && v.objects == w.objects && v.lastSeq == seqNo
      && forall n :: n in w.fates && w.fates[n] == Live ==> n in v.fates && v.fates[n] == Live
  {
  }

  lemma PostedLog(k: Codec, w: World, r: Record, seqNo: nat)
    requires LogOk(k, w) && w.lastSeq < seqNo
    requires r.op.AttachmentAdd? ==> r.op.blob in w.fates && w.fates[r.op.blob].Pending?
    ensures LogOk(k, Posted(w, r, seqNo))
  {
    var v := Posted(w, r, seqNo);
    PostedShape(w, r, seqNo);
    hide DrainOps, ManifestChunksOf, WireForm, SnapOk, Posted;
    PostedSnap(k, w, v, r, seqNo);
    assert v.msgs[|v.msgs| - 1] == Msg(seqNo, Some(r));
  }

  lemma NowMoves(w: World, r: Record, seqNo: nat)
    requires StartsWithBaseline(w.wire) && !r.op.Baseline?
    ensures var v := Posted(w, r, seqNo);
      && StartsWithBaseline(v.wire)
      && (IsArchived(w) ==> IsArchived(v))
      && (r.op == LifeTransition(true, Archived) ==> IsArchived(v))
      && AttachmentsKept(Now(w).attachments, Now(v).attachments)
      && |Now(v).attachments| == |Now(w).attachments| + (if r.op.AttachmentAdd? then 1 else 0)
      && (r.op.AttachmentAdd? ==> Now(v).attachments[|Now(w).attachments|].blob == r.op.blob)
  {
    hide EssenceOf, Truth, AttachmentsKept;
    PostMoves(w.wire, SeqRecord(r, seqNo));
  }

  /** One more attachment, whose object is stored and belongs to nobody else. */
  lemma BlobsGrow(w: World, v: World, blob: Option<string>)
    requires BlobsOk(w) && StartsWithBaseline(w.wire) && StartsWithBaseline(v.wire) && (IsArchived(w) ==> IsArchived(v))
    requires AttachmentsKept(Now(w).attachments, Now(v).attachments)
    requires var xs, ys := Now(w).attachments, Now(v).attachments;
      if blob.None? then |ys| == |xs| else |ys| == |xs| + 1 && ys[|xs|].blob == blob.value
    requires v.objects == w.objects && v.fates == if blob.None? then w.fates else w.fates[blob.value := Attached]
    requires blob.Some? ==> blob.value in w.fates && w.fates[blob.value].Pending? && blob.value in w.objects
    ensures BlobsOk(v)
  {
    hide Now, IsArchived;
    var xs, ys := Now(w).attachments, Now(v).attachments;
    forall i | 0 <= i < |ys|
      ensures ys[i].blob in v.fates && v.fates[ys[i].blob] == Attached
      ensures ys[i].blob in v.objects || (ys[i].removed && IsArchived(v)) {
      if i < |xs| { assert ys[i].blob == xs[i].blob; }
    }
    forall i, j | 0 <= i < j < |ys| ensures ys[i].blob != ys[j].blob {
      if j < |xs| { assert ys[i].blob == xs[i].blob && ys[j].blob == xs[j].blob; }
    }
  }

  lemma PostedBlobs(w: World, r: Record, seqNo: nat)
    requires BlobsOk(w) && StartsWithBaseline(w.wire) && !r.op.Baseline?
    requires r.op.AttachmentAdd? ==> r.op.blob in w.fates && w.fates[r.op.blob].Pending? && r.op.blob in w.objects
    ensures BlobsOk(Posted(w, r, seqNo))
  {
    hide BlobsOk, Now, IsArchived, AttachmentsKept, StartsWithBaseline;
    NowMoves(w, r, seqNo);
    BlobsGrow(w, Posted(w, r, seqNo), if r.op.AttachmentAdd? then Some(r.op.blob) else None);
  }

  lemma WithdrawnAll(w: World, v: World)
    requires StartsWithBaseline(w.wire) && StartsWithBaseline(v.wire) && (IsArchived(w) ==> IsArchived(v))
    requires AttachmentsKept(Now(w).attachments, Now(v).attachments)
    ensures forall n :: Withdrawn(w, n) ==> Withdrawn(v, n)
  {
    hide Now, IsArchived, StartsWithBaseline;
    forall n | Withdrawn(w, n) ensures Withdrawn(v, n) { WithdrawnMoves(w, v, n); }
  }

  lemma WithdrawnMoves(w: World, v: World, n: string)
    requires Withdrawn(w, n) && (IsArchived(w) ==> IsArchived(v)) && StartsWithBaseline(w.wire)
      && StartsWithBaseline(v.wire)
    requires AttachmentsKept(Now(w).attachments, Now(v).attachments)
    ensures Withdrawn(v, n)
  {
    hide Now, IsArchived;
    var i :| 0 <= i < |Now(w).attachments| && Now(w).attachments[i].blob == n && Now(w).attachments[i].removed;
    assert Now(v).attachments[i].blob == n && Now(v).attachments[i].removed;
  }

  lemma PostedLater(w: World, r: Record, seqNo: nat, c: ClientId, d: ClientId)
    requires StartsWithBaseline(w.wire) && !r.op.Baseline? && d != c
    requires r.op.AttachmentAdd? ==> r.op.blob in w.fates && w.fates[r.op.blob] == Pending(c)
    ensures Later(w, Posted(w, r, seqNo), d)
  {
    var v := Posted(w, r, seqNo);
    hide Withdrawn, IsArchived, Now, AttachmentsKept, DrainOps, ManifestChunksOf, StartsWithBaseline;
    NowMoves(w, r, seqNo);
    WithdrawnAll(w, v);
  }

  lemma PostIs(k: Codec, w: World, a: Action)
    requires a.Post? && Enabled(w, a)
    ensures a.c in w.clients && a.id !in w.used && w.lastSeq < a.seqNo && !a.op.Baseline?
      && !w.clients[a.c].lifecycle.Archived?
    ensures a.op.AttachmentAdd? ==> w.clients[a.c].task == Uploaded(a.op.blob)
    ensures var cl := w.clients[a.c];
      exists next: Client :: Perform(k, w, a) ==
          SetClient(Posted(w, Record(a.id, a.author, cl.frontier, a.ts, a.op), a.seqNo), a.c, next)
        && next.task.Idle? && (next.frontier == cl.frontier || next.frontier == [a.id])
        && (next.lifecycle == cl.lifecycle || (a.op.LifeTransition? && a.op.readable && next.lifecycle == a.op.to))
  {
    var cl := w.clients[a.c];
    var adopts := a.acked && a.adopts && a.op.LifeTransition? && a.op.readable;
    hide Posted;
    var next := Client(if a.acked then [a.id] else cl.frontier, if adopts then a.op.to else cl.lifecycle, Idle);
    assert Perform(k, w, a) ==
        SetClient(Posted(w, Record(a.id, a.author, cl.frontier, a.ts, a.op), a.seqNo), a.c, next);
  }

  lemma PostedServers(k: Codec, w: World, c: ClientId, r: Record, seqNo: nat)
    requires Coherent(w.wire, w.used) && LogOk(k, w) && StoreOk(w) && BlobsOk(w)
    requires r.id !in w.used && Elems(r.parents) <= w.used && w.lastSeq < seqNo && !r.op.Baseline?
    requires r.op.AttachmentAdd? ==> r.op.blob in w.fates && w.fates[r.op.blob] == Pending(c) && r.op.blob in w.objects
    ensures var v := Posted(w, r, seqNo);
      && Coherent(v.wire, v.used) && LogOk(k, v) && StoreOk(v) && BlobsOk(v) && v.clients == w.clients
      && forall d :: d != c ==> Later(w, v, d)
  {
    var v := Posted(w, r, seqNo);
    hide *;
    LastBefore(k, w);
    PostedFields(w, r, seqNo);
    CoherentStarts(w.wire, w.used);
    CoherentPost(w.wire, w.used, SeqRecord(r, seqNo));
    PostedLog(k, w, r, seqNo);
    PostedBlobs(w, r, seqNo);
    forall d | d != c ensures Later(w, v, d) { PostedLater(w, r, seqNo, c, d); }
  }

  lemma LastBefore(k: Codec, w: World)
    requires LogOk(k, w)
    ensures |w.wire| > 0 && w.wire[|w.wire| - 1].streamSeq <= w.lastSeq
  {
    hide SnapOk, DrainOps, ManifestChunksOf;
  }

  lemma PostedFields(w: World, r: Record, seqNo: nat)
    requires r.op.AttachmentAdd? ==> r.op.blob in w.fates
    ensures var v := Posted(w, r, seqNo);
      && v.wire == w.wire + [SeqRecord(r, seqNo)] && v.used == w.used + {r.id} && v.clients == w.clients
      && (StoreOk(w) ==> StoreOk(v))
  {
  }

  lemma PostedClient(k: Codec, w: World, c: ClientId, cl: Client, r: Record, seqNo: nat, next: Client)
    requires StartsWithBaseline(w.wire) && !r.op.Baseline? && Elems(cl.frontier) <= w.used && !cl.lifecycle.Archived?
    requires next.task.Idle? && (next.frontier == cl.frontier || next.frontier == [r.id])
    requires next.lifecycle == cl.lifecycle || (r.op.LifeTransition? && r.op.readable && next.lifecycle == r.op.to)
    ensures ClientOk(k, Posted(w, r, seqNo), c, next)
  {
    hide IsArchived, Now, AttachmentsKept;
    NowMoves(w, r, seqNo);
    if next.lifecycle.Archived? { assert r.op == LifeTransition(true, Archived); }
  }

  lemma UploadedMeans(k: Codec, w: World, c: ClientId, name: string)
    requires TaskOk(k, w, c, Uploaded(name))
    ensures name in w.fates && w.fates[name] == Pending(c) && name in w.objects
  {
  }

  lemma CoherentStarts(wire: seq<SeqRecord>, used: set<OpId>)
    requires Coherent(wire, used)
    ensures StartsWithBaseline(wire) && Increasing(wire)
  {
  }

  lemma PostKept(k: Codec, w: World, a: Action)
    requires Inv(k, w) && a.Post? && Enabled(w, a)
    ensures Inv(k, Perform(k, w, a))
  {
    hide *;
    PostIs(k, w, a);
    OwnState(k, w, a.c);
    OwnTask(k, w, a.c);
    var cl := w.clients[a.c];
    var r := Record(a.id, a.author, cl.frontier, a.ts, a.op);
    var next: Client :| Perform(k, w, a) == SetClient(Posted(w, r, a.seqNo), a.c, next)
        && next.task.Idle? && (next.frontier == cl.frontier || next.frontier == [a.id])
        && (next.lifecycle == cl.lifecycle || (a.op.LifeTransition? && a.op.readable && next.lifecycle == a.op.to));
    if a.op.AttachmentAdd? { UploadedMeans(k, w, a.c, a.op.blob); }
    CoherentStarts(w.wire, w.used);
    PostedServers(k, w, a.c, r, a.seqNo);
    PostedClient(k, w, a.c, cl, r, a.seqNo, next);
    ServersThenClient(k, w, Posted(w, r, a.seqNo), a.c, next);
  }

  // ----- a rollup

  /** The state document is stored under a name nobody else uses. */
  ghost predicate ChunkReady(k: Codec, w: World, c: ClientId, name: string, p: BaselinePayload) {
    && name in w.fates && w.fates[name] == InFlight(c) && name in w.objects
    && name in w.contents && w.contents[name] == k.encode(DocOf(p))
  }

  /** The guard holds only while the snapshot is still the whole log. */
  lemma GuardMeansCurrent(k: Codec, w: World, c: ClientId, t: Task)
    requires t.Ready? && TaskOk(k, w, c, t) && LogOk(k, w) && Increasing(w.wire) && t.tail == LastSeq(w)
    ensures BaselineAt(w.wire, t.from) && t.upto == |w.wire| && t.superseded == ManifestChunksOf(DrainOps(w.msgs))
    ensures t.mt == View(w.path, w.wire[t.from..])
    ensures forall n :: n in t.superseded ==> n in w.fates && w.fates[n] == Live
    ensures t.chunk.Some? ==> ChunkReady(k, w, c, t.chunk.value, RollupPayload(t.mt))
  {
    hide View, RollupPayload, DrainOps, ManifestChunksOf, WireForm;
    assert w.wire[t.upto - 1].streamSeq >= w.wire[|w.wire| - 1].streamSeq;
    assert w.wire[t.from..t.upto] == w.wire[t.from..];
  }

  lemma RollupTrue(w: World, from: nat, id: OpId, author: Persona, ts: Time)
    requires Coherent(w.wire, w.used) && BaselineAt(w.wire, from)
    ensures IsRollupOf(RollupRecord(View(w.path, w.wire[from..]), id, author, ts), EssenceOf(Truth(w.wire)))
  {
    assert Agrees(ReadFrom(w.wire, from), w.used, EssenceOf(Truth(w.wire)));
    assert EssenceOf(FoldLog(w.wire[from..])) == EssenceOf(Truth(w.wire));
    hide EssenceOf, View, RollupRecord, IsRollupOf, Truth, FoldLog;
    RollupIsRollup(w.path, w.wire[from..], id, author, ts);
  }

  lemma ReplacedLog(k: Codec, w: World, c: ClientId, t: Task, logical: Record, seqNo: nat)
    requires LogOk(k, w) && StoreOk(w) && w.lastSeq < seqNo && t.Ready?
    requires logical.op.Baseline? && logical.op.readable && logical.op.baseline.manifest.None?
    requires t.chunk.Some? ==> ChunkReady(k, w, c, t.chunk.value, logical.op.baseline)
    ensures LogOk(k, Replaced(k, w, t, logical, seqNo))
  {
    var v := Replaced(k, w, t, logical, seqNo);
    var r := v.msgs[0].rec.value;
    DrainOne(r, seqNo);
    assert v.msgs == [Msg(seqNo, Some(r))];
    hide DrainOps, Bury;
    if t.chunk.Some? {
      assert r == ManifestForm(k, logical, t.chunk.value);
      assert ManifestChunksOf([SeqRecord(r, seqNo)]) == [t.chunk.value];
    } else {
      assert ManifestChunksOf([SeqRecord(r, seqNo)]) == [];
    }
    hide ManifestChunksOf, LogOk;
    assert WireForm(k, v.contents, r, logical);
    assert SnapOk(k, v, [SeqRecord(r, seqNo)], v.base, |v.wire|);
    assert LastSeq(v) == seqNo;
  }

  lemma BuryFates(fates: map<string, Fate>, names: seq<string>)
    requires forall n :: n in names ==> n in fates && fates[n] == Live
    ensures Bury(fates, names).Keys == fates.Keys
    ensures forall n :: n in fates ==> Bury(fates, names)[n] == if n in names then Dead else fates[n]
  {
  }

  lemma ReplacedFields(k: Codec, w: World, c: ClientId, t: Task, logical: Record, seqNo: nat)
    requires t.Ready? && logical.op.Baseline?
    requires forall n :: n in t.superseded ==> n in w.fates && w.fates[n] == Live
    requires t.chunk.Some? ==> t.chunk.value in w.fates && w.fates[t.chunk.value] == InFlight(c)
    ensures var v := Replaced(k, w, t, logical, seqNo);
      && v == w.(wire := w.wire + [SeqRecord(logical, seqNo)], used := w.used + {logical.id}, base := |w.wire|,
                 msgs := v.msgs, lastSeq := seqNo, fates := v.fates)
      && v.fates.Keys == w.fates.Keys
      && (forall n ::
        n in w.fates
        && (w.fates[n].Dead? || w.fates[n].Attached? || w.fates[n].Pending?
            || (w.fates[n].InFlight? && w.fates[n] != InFlight(c)))
        ==> v.fates[n] == w.fates[n])
      && (forall n :: n in t.superseded ==> v.fates[n] == Dead)
  {
    BuryFates(w.fates, t.superseded);
    hide Bury;
  }

  lemma SameNow(w: World, v: World)
    requires StartsWithBaseline(w.wire) && StartsWithBaseline(v.wire) && Truth(v.wire) == Truth(w.wire)
    ensures Now(v) == Now(w) && (IsArchived(v) <==> IsArchived(w)) && forall n :: Withdrawn(v, n) <==> Withdrawn(w, n)
  {
    hide EssenceOf, Truth;
  }

  lemma BlobsSame(w: World, v: World)
    requires BlobsOk(w) && StartsWithBaseline(v.wire) && Now(v) == Now(w) && (IsArchived(w) ==> IsArchived(v))
    requires v.objects == w.objects && forall n :: n in w.fates && w.fates[n].Attached? ==>
      n in v.fates && v.fates[n] == w.fates[n]
    ensures BlobsOk(v)
  {
    hide Now, IsArchived;
  }

  lemma StoreSame(w: World, v: World)
    requires StoreOk(w) && v.objects == w.objects && v.contents == w.contents && v.fates.Keys == w.fates.Keys
    ensures StoreOk(v)
  {
  }

  lemma LaterReplaced(w: World, v: World, c: ClientId, d: ClientId)
    requires v.path == w.path && w.wire <= v.wire && |w.wire| < |v.wire| && w.used <= v.used
      && v.contents == w.contents && v.objects == w.objects
    requires (IsArchived(w) ==> IsArchived(v)) && (forall n :: Withdrawn(w, n) ==> Withdrawn(v, n)) && d != c
      && v.fates.Keys == w.fates.Keys
    requires forall n ::
      n in w.fates
      && (w.fates[n].Dead? || w.fates[n].Attached? || w.fates[n].Pending?
          || (w.fates[n].InFlight? && w.fates[n] != InFlight(c)))
      ==> v.fates[n] == w.fates[n]
    ensures Later(w, v, d)
  {
    hide IsArchived, Withdrawn, DrainOps, ManifestChunksOf;
  }

  lemma ReplacedServers(k: Codec, w: World, c: ClientId, t: Task, logical: Record, seqNo: nat)
    requires Coherent(w.wire, w.used) && LogOk(k, w) && StoreOk(w) && BlobsOk(w) && t.Ready? && w.lastSeq < seqNo
      && logical.id !in w.used
    requires StartsWithBaseline(w.wire) && IsRollupOf(logical, EssenceOf(Truth(w.wire)))
    requires logical.op.Baseline? && logical.op.readable && logical.op.baseline.manifest.None?
    requires forall n :: n in t.superseded ==> n in w.fates && w.fates[n] == Live
    requires t.chunk.Some? ==> ChunkReady(k, w, c, t.chunk.value, logical.op.baseline)
    ensures var v := Replaced(k, w, t, logical, seqNo);
      && Coherent(v.wire, v.used) && LogOk(k, v) && StoreOk(v) && BlobsOk(v) && v.clients == w.clients
      && (forall d :: d != c ==> Later(w, v, d))
      && v.used == w.used + {logical.id} && v.path == w.path && w.wire <= v.wire && (IsArchived(w) ==> IsArchived(v))
      && (forall n :: n in t.superseded ==> n in v.fates && v.fates[n] == Dead)
  {
    var v := Replaced(k, w, t, logical, seqNo);
    hide *;
    ChunkOwned(k, w, c, t, logical.op.baseline);
    ReplacedFields(k, w, c, t, logical, seqNo);
    LastBefore(k, w);
    ReplacedStory(w, v, logical, seqNo);
    ReplacedLog(k, w, c, t, logical, seqNo);
    StoreSame(w, v);
    BlobsSame(w, v);
    forall d | d != c ensures Later(w, v, d) { LaterReplaced(w, v, c, d); }
  }

  /** A rollup changes nothing anyone sees. */
  lemma ReplacedStory(w: World, v: World, logical: Record, seqNo: nat)
    requires Coherent(w.wire, w.used) && StartsWithBaseline(w.wire) && IsRollupOf(logical, EssenceOf(Truth(w.wire)))
    requires logical.id !in w.used && w.wire[|w.wire| - 1].streamSeq < seqNo
    requires v.wire == w.wire + [SeqRecord(logical, seqNo)] && v.used == w.used + {logical.id}
    ensures Coherent(v.wire, v.used) && StartsWithBaseline(v.wire)
    ensures Now(v) == Now(w) && (IsArchived(v) <==> IsArchived(w)) && forall n :: Withdrawn(v, n) <==> Withdrawn(w, n)
  {
    hide *;
    CoherentRollup(w.wire, w.used, SeqRecord(logical, seqNo));
    CoherentStarts(v.wire, v.used);
    SameNow(w, v);
  }

  lemma ChunkOwned(k: Codec, w: World, c: ClientId, t: Task, p: BaselinePayload)
    requires t.Ready? && (t.chunk.Some? ==> ChunkReady(k, w, c, t.chunk.value, p))
    ensures t.chunk.Some? ==> t.chunk.value in w.fates && w.fates[t.chunk.value] == InFlight(c)
  {
  }

  lemma PublishIs(k: Codec, w: World, a: Action)
    requires a.Publish? && Enabled(w, a)
    ensures |w.msgs| > 0 && a.c in w.clients && w.clients[a.c].task.Ready? && a.id !in w.used && w.lastSeq < a.seqNo
    ensures var t := w.clients[a.c].task;
      if t.tail != LastSeq(w) then Perform(k, w, a) == SetTask(w, a.c, Idle)
      else
        var v := Replaced(k, w, t, RollupRecord(t.mt, a.id, a.author, a.ts), a.seqNo);
        if a.acked
        then Perform(k, w, a) == SetClient(v, a.c, Client(t.mt.frontier, t.mt.lifecycle, Deleting(t.superseded)))
        else v.clients == w.clients && Perform(k, w, a) == SetClient(v, a.c, w.clients[a.c].(task := Idle))
  {
    hide RollupPayload, ManifestForm, Bury;
  }

  lemma ReplacedClient(k: Codec, w: World, v: World, c: ClientId, t: Task)
    requires t.Ready? && w.used <= v.used && (IsArchived(w) ==> IsArchived(v))
    requires Elems(t.mt.frontier) <= w.used && (t.mt.lifecycle.Archived? ==> IsArchived(w))
    requires forall n :: n in t.superseded ==> n in v.fates && v.fates[n] == Dead
    ensures ClientOk(k, v, c, Client(t.mt.frontier, t.mt.lifecycle, Deleting(t.superseded)))
  {
    hide IsArchived, Withdrawn;
  }

  lemma IdleLater(k: Codec, w: World, v: World, c: ClientId, cl: Client)
    requires w.used <= v.used && (IsArchived(w) ==> IsArchived(v)) && Elems(cl.frontier) <= w.used
      && (cl.lifecycle.Archived? ==> IsArchived(w))
    ensures ClientOk(k, v, c, cl.(task := Idle))
  {
    hide IsArchived;
  }

  lemma RollupForm(mt: MaterializedTopic, id: OpId, author: Persona, ts: Time)
    ensures var r := RollupRecord(mt, id, author, ts);
      r.id == id && r.op == Baseline(true, RollupPayload(mt)) && RollupPayload(mt).manifest.None?
  {
  }

  lemma PublishKept(k: Codec, w: World, a: Action)
    requires Inv(k, w) && a.Publish? && Enabled(w, a)
    ensures Inv(k, Perform(k, w, a))
  {
    hide *;
    PublishIs(k, w, a);
    OwnState(k, w, a.c);
    OwnTask(k, w, a.c);
    var t := w.clients[a.c].task;
    if t.tail != LastSeq(w) {
      StopKept(k, w, a.c);
    } else {
      var r := RollupRecord(t.mt, a.id, a.author, a.ts);
      var v := Replaced(k, w, t, r, a.seqNo);
      CoherentStarts(w.wire, w.used);
      GuardMeansCurrent(k, w, a.c, t);
      BaselineBelow(w.wire, t.from);
      assert w.wire[t.from..t.upto] == w.wire[t.from..];
      ViewSafe(k, w, t.from, t.upto);
      RollupTrue(w, t.from, a.id, a.author, a.ts);
      RollupForm(t.mt, a.id, a.author, a.ts);
      ReplacedServers(k, w, a.c, t, r, a.seqNo);
      ReplacedClient(k, w, v, a.c, t);
      IdleLater(k, w, v, a.c, w.clients[a.c]);
      ServersThenClient(k, w, v, a.c, Client(t.mt.frontier, t.mt.lifecycle, Deleting(t.superseded)));
      ServersThenClient(k, w, v, a.c, w.clients[a.c].(task := Idle));
    }
  }

  lemma BaselineBelow(wire: seq<SeqRecord>, from: nat)
    requires BaselineAt(wire, from)
    ensures from < |wire|
  {
  }
}
