/** What each of a handle's steps makes possible and does, stated on worlds. */
module Requests {
  import opened Prelude
  import opened Vocabulary
  import opened Fold
  import opened Compaction
  import opened History
  import opened Manifests
  import opened Machine
  import opened Safety
  import opened Steps
  import opened StepsKept
  import opened WritesKept
  import opened Realms

  /** The client's own state as the world records it. */
  ghost predicate Has(w: World, c: ClientId, cl: Client) {
    c in w.clients && w.clients[c] == cl
  }

  /** Same servers; only client `c` changed, and is now `cl`. */
  ghost predicate Only(w: World, v: World, c: ClientId, cl: Client) {
    v == SetClient(w, c, cl)
  }

  lemma OnlyHas(w: World, v: World, c: ClientId, cl: Client)
    requires Only(w, v, c, cl)
    ensures Has(v, c, cl) && v.msgs == w.msgs && v.wire == w.wire && v.base == w.base && v.objects == w.objects
      && v.path == w.path
    ensures v.used == w.used && v.contents == w.contents && v.lastSeq == w.lastSeq
  {
  }

  lemma OnlyTwice(w: World, v: World, u: World, c: ClientId, cl: Client, next: Client)
    requires Only(w, v, c, cl) && Only(v, u, c, next)
    ensures Only(w, u, c, next)
  {
    assert w.clients[c := cl][c := next] == w.clients[c := next];
  }

  lemma CanDrain(k: Codec, w: World, c: ClientId, cl: Client, purpose: Purpose)
    requires |w.msgs| > 0 && Has(w, c, cl) && cl.task.Idle? && (purpose.Sweep? ==> cl.lifecycle.Archived?)
    ensures Enabled(w, Drain(c, purpose))
    ensures Only(w, Perform(k, w, Drain(c, purpose)), c,
                 cl.(task := Drained(purpose, DrainOps(w.msgs), w.base, |w.wire|)))
  {
    hide DrainOps;
  }

  lemma CanStop(k: Codec, w: World, c: ClientId, cl: Client)
    requires |w.msgs| > 0 && Has(w, c, cl)
    ensures Enabled(w, GiveUp(c)) && Only(w, Perform(k, w, GiveUp(c)), c, cl.(task := Idle))
  {
  }

  /** What a handle makes of a resolved snapshot. */
  function AfterResolve(path: string, cl: Client, resolved: Resolved): Client
    requires cl.task.Drained?
  {
    var t := cl.task;
    match resolved
    case Broken(_) => if t.purpose.Read? then Client([], Proposed, Idle) else cl.(task := Idle)
    case Inline(recs) =>
      var mt := View(path, recs);
      match t.purpose
      case Read => Client(mt.frontier, mt.lifecycle, Idle)
      case Compact(allowArchived) =>
        if mt.malformed.Some? || (mt.lifecycle.Archived? && !allowArchived) || |recs| <= 1 then cl.(task := Idle)
        else cl.(task := Ready(mt, ManifestChunksOf(t.recs), recs[|recs| - 1].streamSeq, t.from, t.upto, None))
      case Sweep => cl.(task := Deleting(RemovedBlobs(mt.attachments)))
  }

  lemma CanResolve(k: Codec, w: World, c: ClientId, cl: Client, reachable: bool)
    requires |w.msgs| > 0 && Has(w, c, cl) && cl.task.Drained?
    ensures Enabled(w, Action.Resolve(c, reachable))
    ensures Only(w, Perform(k, w, Action.Resolve(c, reachable)), c,
                 AfterResolve(w.path, cl, Manifests.Resolve(k, Reached(w, reachable), cl.task.recs)))
  {
    hide Manifests.Resolve, View, ManifestChunksOf, RemovedBlobs;
    var r := Manifests.Resolve(k, Reached(w, reachable), cl.task.recs);
    if r.Inline? {
      match cl.task.purpose
      case Read =>
      case Compact(_) =>
      case Sweep =>
    }
  }

  lemma CanPutChunk(k: Codec, w: World, c: ClientId, cl: Client, name: string)
    requires |w.msgs| > 0 && Has(w, c, cl) && cl.task.Ready? && cl.task.chunk.None? && name !in w.contents
    ensures Enabled(w, PutChunk(c, name))
    ensures var v := Perform(k, w, PutChunk(c, name));
      Has(v, c, cl.(task := cl.task.(chunk := Some(name)))) && v.msgs == w.msgs && v.wire == w.wire && v.base == w.base
        && v.path == w.path && name in v.contents && v.objects == w.objects[name := v.contents[name]]
  {
    hide RollupPayload;
  }

  lemma CanDelete(k: Codec, w: World, c: ClientId, cl: Client, done: bool)
    requires |w.msgs| > 0 && Has(w, c, cl) && cl.task.Deleting?
    ensures Enabled(w, Delete(c, done))
    ensures var v := Perform(k, w, Delete(c, done));
      if cl.task.names == [] then Only(w, v, c, cl.(task := Idle))
      else Only(if done then Without(w, cl.task.names[0]) else w, v, c, cl.(task := Deleting(cl.task.names[1..])))
  {
    if cl.task.names != [] { if done {} }
  }

  lemma CanUpload(k: Codec, w: World, c: ClientId, cl: Client, name: string, data: Bytes)
    requires |w.msgs| > 0 && Has(w, c, cl) && cl.task.Idle? && !cl.lifecycle.Archived? && name !in w.contents
    ensures Enabled(w, Upload(c, name, data))
    ensures var v := Perform(k, w, Upload(c, name, data));
      Has(v, c, cl.(task := Uploaded(name))) && v.msgs == w.msgs && v.wire == w.wire
        && v.objects == w.objects[name := data] && v.contents == w.contents[name := data]
  {
  }

  lemma CanPost(k: Codec, w: World, a: Action, cl: Client)
    requires a.Post? && |w.msgs| > 0 && Has(w, a.c, cl) && a.id !in w.used && w.lastSeq < a.seqNo && !a.op.Baseline?
    requires !cl.lifecycle.Archived? && cl.task == if a.op.AttachmentAdd? then Uploaded(a.op.blob) else Idle
    ensures Enabled(w, a)
    ensures var v := Perform(k, w, a);
      && Has(v, a.c, Client(if a.acked then [a.id] else cl.frontier,
                            if a.acked && a.adopts && a.op.LifeTransition? && a.op.readable then a.op.to
                            else cl.lifecycle,
                            Idle))
      && v.wire == w.wire + [SeqRecord(Record(a.id, a.author, cl.frontier, a.ts, a.op), a.seqNo)]
      && v.msgs == w.msgs + [Msg(a.seqNo, Some(Record(a.id, a.author, cl.frontier, a.ts, a.op)))]
      && v.objects == w.objects && v.used == w.used + {a.id} && v.lastSeq == a.seqNo
  {
  }

  /** The rollup's record is all the log holds, in the form the client prepared. */
  ghost predicate Replaces(k: Codec, w: World, v: World, t: Task, logical: Record, seqNo: nat) {
    && t.Ready? && logical.op.Baseline?
    && v.wire == w.wire + [SeqRecord(logical, seqNo)] && v.objects == w.objects && v.contents == w.contents
    && v.msgs == [Msg(seqNo, Some(if t.chunk.None? then logical else ManifestForm(k, logical, t.chunk.value)))]
  }

  lemma CanPublish(k: Codec, w: World, a: Action, cl: Client)
    requires a.Publish? && |w.msgs| > 0 && Has(w, a.c, cl) && cl.task.Ready? && a.id !in w.used && w.lastSeq < a.seqNo
    ensures Enabled(w, a)
    ensures var t, v := cl.task, Perform(k, w, a);
      if t.tail != LastSeq(w) then Only(w, v, a.c, cl.(task := Idle))
      else
        && Single(v, a.id)
        && Has(v, a.c,
               if a.acked then Client(t.mt.frontier, t.mt.lifecycle, Deleting(t.superseded))
               else cl.(task := Idle))
        && Replaces(k, w, v, t, RollupRecord(t.mt, a.id, a.author, a.ts), a.seqNo)
  {
    var t := cl.task;
    hide Bury, RollupPayload, DrainOps;
    if t.tail == LastSeq(w) {
      var logical := RollupRecord(t.mt, a.id, a.author, a.ts);
      var r := if t.chunk.None? then logical else ManifestForm(k, logical, t.chunk.value);
      assert r.id == a.id;
      assert Perform(k, w, a).msgs == [Msg(a.seqNo, Some(r))] by { if a.acked {} }
      DrainOne(r, a.seqNo);
      if a.acked {}
    }
  }

  lemma CanRepost(k: Codec, w: World, c: ClientId, cl: Client, id: OpId)
    requires |w.msgs| > 0 && Has(w, c, cl) && cl.task.Idle? && !cl.lifecycle.Archived? && id in w.used
    ensures Enabled(w, Repost(c, id)) && Only(w, Perform(k, w, Repost(c, id)), c, cl.(frontier := [id]))
  {
  }
}
