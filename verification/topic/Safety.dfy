/** The invariant of the topic machine: every reader agrees with the log nobody compacted, manifests resolve, and no
    object anyone can still need is deleted. */
module Safety {
  import opened Prelude
  import opened Vocabulary
  import opened Fold
  import opened EssenceOfTopic
  import opened Soundness
  import opened Compaction
  import opened LifecycleRules
  import opened Permanence
  import opened History
  import opened Manifests
  import opened Machine

  // ----- the invariant

  /** What every reader should see now. */
  ghost function Now(w: World): Essence
    requires StartsWithBaseline(w.wire)
  {
    EssenceOf(Truth(w.wire))
  }

  ghost predicate IsArchived(w: World) {
    StartsWithBaseline(w.wire) && Now(w).lifecycle.Archived?
  }

  /** A drained snapshot is the wire form of a stretch of the history. */
  ghost predicate SnapOk(k: Codec, w: World, recs: seq<SeqRecord>, from: nat, upto: nat) {
    && BaselineAt(w.wire, from) && from < upto <= |w.wire| && |recs| == upto - from
    && recs[1..] == w.wire[from + 1..upto] && recs[0].streamSeq == w.wire[from].streamSeq
    && WireForm(k, w.contents, recs[0].record, w.wire[from].record)
  }

  /** The subject holds the current baseline and everything since, and that baseline resolves. */
  ghost predicate LogOk(k: Codec, w: World) {
    && |w.msgs| > 0 && |w.wire| > 0
    && w.wire[|w.wire| - 1].streamSeq <= LastSeq(w) <= w.lastSeq
    && (w.wire[|w.wire| - 1].streamSeq == LastSeq(w) ==> w.msgs[|w.msgs| - 1].rec.Some?)
    && SnapOk(k, w, DrainOps(w.msgs), w.base, |w.wire|)
    && forall n :: n in ManifestChunksOf(DrainOps(w.msgs)) ==> n in w.objects && n in w.fates && w.fates[n] == Live
  }

  ghost predicate StoreOk(w: World) {
    && w.fates.Keys == w.contents.Keys
    && forall n :: n in w.objects ==> n in w.contents && w.objects[n] == w.contents[n]
  }

  /** Every listed attachment has its own object, still stored unless it is withdrawn and the topic archived. */
  ghost predicate BlobsOk(w: World) {
    StartsWithBaseline(w.wire) &&
    var xs := Now(w).attachments;
    && (forall i :: 0 <= i < |xs| ==> xs[i].blob in w.fates && w.fates[xs[i].blob] == Attached)
    && (forall i :: 0 <= i < |xs| ==> xs[i].blob in w.objects || (xs[i].removed && IsArchived(w)))
    && (forall i, j :: 0 <= i < j < |xs| ==> xs[i].blob != xs[j].blob)
  }

  ghost predicate Withdrawn(w: World, n: string) {
    IsArchived(w) && exists i ::
      0 <= i < |Now(w).attachments| && Now(w).attachments[i].blob == n && Now(w).attachments[i].removed
  }

  ghost predicate MayDelete(w: World, n: string) {
    n in w.fates && (w.fates[n] == Dead || (w.fates[n] == Attached && Withdrawn(w, n)))
  }

  ghost predicate TaskOk(k: Codec, w: World, c: ClientId, t: Task) {
    match t
    case Idle => true
    case Drained(purpose, recs, from, upto) =>
      && SnapOk(k, w, recs, from, upto)
      && (purpose.Sweep? ==> IsArchived(w))
      && (upto == |w.wire| ==> from == w.base && ManifestChunksOf(recs) == ManifestChunksOf(DrainOps(w.msgs)))
    case Ready(mt, superseded, tail, from, upto, chunk) =>
      && BaselineAt(w.wire, from) && from + 1 < upto <= |w.wire|
      && mt == View(w.path, w.wire[from..upto]) && tail == w.wire[upto - 1].streamSeq
      && (upto == |w.wire| ==> from == w.base && superseded == ManifestChunksOf(DrainOps(w.msgs)))
      && (chunk.Some? ==>
            && chunk.value in w.fates && w.fates[chunk.value] == InFlight(c)
            && chunk.value in w.objects && chunk.value in w.contents
            && w.contents[chunk.value] == k.encode(DocOf(RollupPayload(mt))))
    case Uploaded(name) => name in w.fates && w.fates[name] == Pending(c) && name in w.objects
    case Deleting(names) => forall n :: n in names ==> MayDelete(w, n)
  }

  ghost predicate ClientOk(k: Codec, w: World, c: ClientId, cl: Client) {
    && Elems(cl.frontier) <= w.used
    && (cl.lifecycle.Archived? ==> IsArchived(w))
    && TaskOk(k, w, c, cl.task)
  }

  ghost predicate Inv(k: Codec, w: World) {
    && Coherent(w.wire, w.used) && LogOk(k, w) && StoreOk(w) && BlobsOk(w)
    && forall c :: c in w.clients ==> ClientOk(k, w, c, w.clients[c])
  }

  // ----- what other clients' steps leave alone

  /** `v` is a later world as far as client `d` can tell: nothing it relies on was taken back. */
  ghost predicate Later(w: World, v: World, d: ClientId) {
    && w.path == v.path && w.wire <= v.wire && w.used <= v.used
    && (forall n :: n in w.contents ==> n in v.contents && v.contents[n] == w.contents[n])
    && (|v.wire| == |w.wire| ==>
       v.base == w.base && ManifestChunksOf(DrainOps(v.msgs)) == ManifestChunksOf(DrainOps(w.msgs)))
    && (IsArchived(w) ==> IsArchived(v))
    && (forall n :: Withdrawn(w, n) ==> Withdrawn(v, n))
    && (forall n :: n in w.fates && w.fates[n] in {Dead, Attached, InFlight(d), Pending(d)} ==>
       n in v.fates && v.fates[n] == w.fates[n])
    && (forall n :: n in w.fates && w.fates[n] in {InFlight(d), Pending(d)} && n in w.objects ==> n in v.objects)
  }

  lemma LaterHistory(w: World, v: World, d: ClientId)
    requires Later(w, v, d)
    ensures w.wire <= v.wire && forall n :: n in w.contents ==> n in v.contents && v.contents[n] == w.contents[n]
  {
    hide IsArchived, Withdrawn, ManifestChunksOf, DrainOps;
  }

  lemma SnapLonger(k: Codec, w: World, v: World, recs: seq<SeqRecord>, from: nat, upto: nat)
    requires w.wire <= v.wire && SnapOk(k, w, recs, from, upto)
    requires WireForm(k, w.contents, recs[0].record, w.wire[from].record) ==>
      WireForm(k, v.contents, recs[0].record, w.wire[from].record)
    ensures SnapOk(k, v, recs, from, upto)
  {
    assert v.wire[from] == w.wire[from] && v.wire[from + 1..upto] == w.wire[from + 1..upto];
    hide WireForm;
  }

  lemma SnapWire(k: Codec, w: World, recs: seq<SeqRecord>, from: nat, upto: nat)
    requires SnapOk(k, w, recs, from, upto)
    ensures from < |w.wire| && |recs| > 0 && WireForm(k, w.contents, recs[0].record, w.wire[from].record)
  {
    hide WireForm;
  }

  lemma SnapLater(k: Codec, w: World, v: World, d: ClientId, recs: seq<SeqRecord>, from: nat, upto: nat)
    requires Later(w, v, d) && SnapOk(k, w, recs, from, upto)
    ensures SnapOk(k, v, recs, from, upto)
  {
    hide *;
    LaterHistory(w, v, d);
    SnapWire(k, w, recs, from, upto);
    WireFormLater(k, w.contents, v.contents, recs[0].record, w.wire[from].record);
    SnapLonger(k, w, v, recs, from, upto);
  }

  lemma WireFormLater(k: Codec, contents: map<string, Bytes>, more: map<string, Bytes>, wire: Record, logical: Record)
    requires WireForm(k, contents, wire, logical) && forall n :: n in contents ==> n in more && more[n] == contents[n]
    ensures WireForm(k, more, wire, logical)
  {
    hide ManifestForm, DocOf;
  }

  lemma MayDeleteLater(w: World, v: World, d: ClientId, n: string)
    requires Later(w, v, d) && MayDelete(w, n)
    ensures MayDelete(v, n)
  {
    hide IsArchived, Now, Withdrawn;
  }

  lemma ClientLater(k: Codec, w: World, v: World, d: ClientId, cl: Client)
    requires Later(w, v, d) && ClientOk(k, w, d, cl)
    ensures ClientOk(k, v, d, cl)
  {
    hide IsArchived, Withdrawn, WireForm, View, RollupPayload;
    match cl.task
    case Idle =>
    case Drained(purpose, recs, from, upto) =>
      SnapLater(k, w, v, d, recs, from, upto);
      hide SnapOk;
    case Ready(mt, superseded, tail, from, upto, chunk) =>
      assert v.wire[from] == w.wire[from] && v.wire[upto - 1] == w.wire[upto - 1];
      assert v.wire[from..upto] == w.wire[from..upto];
    case Uploaded(name) =>
    case Deleting(names) =>
      forall n | n in names ensures MayDelete(v, n) { MayDeleteLater(w, v, d, n); }
  }
}
