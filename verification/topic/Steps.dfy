/** Every step of the topic machine keeps its invariant. */
module Steps {
  import opened Prelude
  import opened Vocabulary
  import opened Fold
  import opened EssenceOfTopic
  import opened Soundness
  import opened Anchors
  import opened Compaction
  import opened LifecycleRules
  import opened Permanence
  import opened History
  import opened Manifests
  import opened Machine
  import opened Safety

  // ----- facts about drains

  lemma DrainAppend(msgs: seq<Msg>, m: Msg)
    ensures DrainOps(msgs + [m]) == DrainOps(msgs) + if m.rec.Some? then [SeqRecord(m.rec.value, m.seqNo)] else []
  {
    assert (msgs + [m])[..|msgs|] == msgs;
  }

  lemma DrainOne(r: Record, seqNo: nat)
    ensures DrainOps([Msg(seqNo, Some(r))]) == [SeqRecord(r, seqNo)]
  {
    assert [Msg(seqNo, Some(r))][..0] == [];
  }

  // ----- facts about the essence everyone agrees on

  lemma {:induction false} SeenGrows(s: State, tail: seq<SeqRecord>)
    requires Bounded(s)
    ensures s.seen <= FoldFrom(s, tail).seen
  {
    if |tail| > 0 {
      var n := |tail| - 1;
      SeenGrows(s, tail[..n]);
      hide Apply;
      SeenStepGrows(FoldFrom(s, tail[..n]), tail[n]);
    }
  }

  lemma SeenStepGrows(s: State, sr: SeqRecord)
    requires Bounded(s)
    ensures s.seen <= Step(s, sr).seen
  {
    hide ApplyEdit, ApplyResolve, ApplyRemove, ApplyOpen, ApplyWorkRef, ApplyIssue, ApplyRevoke, ApplyTransition;
  }

  /** Attachments of the first list stand, with their objects and removal marks, in the second. */
  ghost predicate AttachmentsKept(xs: seq<Attachment>, ys: seq<Attachment>) {
    |xs| <= |ys| && forall i :: 0 <= i < |xs| ==> ys[i].blob == xs[i].blob && (xs[i].removed ==> ys[i].removed)
  }

  lemma GrowsKept(s: State, t: State)
    requires Grows(s, t)
    ensures AttachmentsKept(s.attachments, t.attachments)
  {
    forall i | 0 <= i < |s.attachments|
      ensures t.attachments[i].blob == s.attachments[i].blob
        && (s.attachments[i].removed ==> t.attachments[i].removed) {
      assert AttachmentGrows(s.attachments[i], t.attachments[i]);
    }
  }

  lemma EssenceKept(s: State)
    ensures AttachmentsKept(s.attachments, EssenceOf(s).attachments)
      && AttachmentsKept(EssenceOf(s).attachments, s.attachments)
    ensures forall i :: 0 <= i < |s.attachments| ==> EssenceOf(s).attachments[i].removed == s.attachments[i].removed
    ensures |EssenceOf(s).attachments| == |s.attachments|
  {
  }

  /** A later reader of the same log: archived stays archived, attachments and removals stand, ids stay known. */
  lemma LaterFold(s: State, t: State, tail: seq<SeqRecord>)
    requires Bounded(s) && t == FoldFrom(s, tail)
    ensures s.seen <= t.seen
    ensures SettledLifecycle(s).Archived? ==> SettledLifecycle(t).Archived?
    ensures AttachmentsKept(s.attachments, t.attachments)
  {
    hide *;
    SeenGrows(s, tail);
    TerminalStates(s, tail);
    ElementsArePermanent(s, tail);
    GrowsKept(s, t);
  }

  lemma EssenceOfLater(s: State, t: State)
    requires AttachmentsKept(s.attachments, t.attachments)
    ensures AttachmentsKept(s.attachments, EssenceOf(t).attachments)
  {
    hide EssenceOf, AttachmentsKept;
    EssenceKept(t);
    KeptTransitive(s.attachments, t.attachments, EssenceOf(t).attachments);
  }

  /** What a snapshot tells stays true: its ids are known, its attachments and removals stand, and archived is
      archived. */
  lemma SnapshotFacts(wire: seq<SeqRecord>, used: set<OpId>, from: nat, upto: nat)
    requires Coherent(wire, used) && BaselineAt(wire, from) && from < upto <= |wire|
    ensures StartsWithBaseline(wire) && StartsWithBaseline(wire[from..upto])
    ensures FoldLog(wire[from..upto]).seen <= used
    ensures SettledLifecycle(FoldLog(wire[from..upto])).Archived? ==> EssenceOf(Truth(wire)).lifecycle.Archived?
    ensures AttachmentsKept(FoldLog(wire[from..upto]).attachments, EssenceOf(Truth(wire)).attachments)
  {
    assert StartsWithBaseline(wire);
    ReadSplit(wire, from, upto);
    ReaderFacts(wire, used, from);
    hide *;
    LaterFold(FoldLog(wire[from..upto]), ReadFrom(wire, from), wire[upto..]);
    EssenceOfLater(FoldLog(wire[from..upto]), ReadFrom(wire, from));
  }

  lemma KeptTransitive(xs: seq<Attachment>, ys: seq<Attachment>, zs: seq<Attachment>)
    requires AttachmentsKept(xs, ys) && AttachmentsKept(ys, zs)
    ensures AttachmentsKept(xs, zs)
  {
  }

  lemma ReaderFacts(wire: seq<SeqRecord>, used: set<OpId>, from: nat)
    requires Coherent(wire, used) && BaselineAt(wire, from)
    ensures var t := ReadFrom(wire, from);
      Sound(t) && t.seen <= used && EssenceOf(t) == EssenceOf(Truth(wire))
        && EssenceOf(t).lifecycle == SettledLifecycle(t)
  {
    assert Agrees(ReadFrom(wire, from), used, EssenceOf(Truth(wire)));
    hide Sound, Truth, ReadFrom;
  }

  lemma ReadSplit(wire: seq<SeqRecord>, from: nat, upto: nat)
    requires BaselineAt(wire, from) && from < upto <= |wire|
    ensures StartsWithBaseline(wire[from..upto])
      && ReadFrom(wire, from) == FoldFrom(FoldLog(wire[from..upto]), wire[upto..])
  {
    Split(wire, from, upto);
    hide FoldLog, FoldFrom;
    FoldLogConcat(wire[from..upto], wire[upto..]);
  }

  lemma EditKeepsFiles(s: State, sr: SeqRecord)
    requires Bounded(s) && sr.record.op.Edit?
    ensures ApplyEdit(s, sr).attachments == s.attachments
  {
  }

  lemma ResolveKeepsFiles(s: State, r: Record)
    requires Bounded(s) && r.op.CommentResolve?
    ensures ApplyResolve(s, r).attachments == s.attachments
  {
  }

  lemma RemoveKeepsCount(s: State, r: Record)
    requires Bounded(s) && r.op.AttachmentRemove?
    ensures |ApplyRemove(s, r).attachments| == |s.attachments|
  {
  }

  lemma AttachmentsStep(s: State, sr: SeqRecord)
    requires Bounded(s)
    ensures var t := Step(s, sr);
      if sr.record.op.AttachmentAdd? then t.attachments == s.attachments + [NewAttachment(sr)]
      else |t.attachments| == |s.attachments|
  {
    var n, op := Note(s, sr.record), sr.record.op;
    assert n.attachments == s.attachments && Step(s, sr) == Apply(n, sr);
    ApplyArms(n, sr);
    hide Apply, Step, Note, ApplyEdit, ApplyResolve, ApplyRemove, Bounded, KeepsGraph;
    if op.Edit? {
      EditKeepsFiles(n, sr);
    } else if op.CommentResolve? {
      ResolveKeepsFiles(n, sr.record);
    } else if op.AttachmentRemove? {
      RemoveKeepsCount(n, sr.record);
    } else if op.TurnPost? || op.CommentAdd? || op.AttachmentAdd? {
    } else {
      KeepsConversation(n, sr);
    }
  }

  /** How an ordinary operation moves what everyone sees. */
  lemma PostMoves(wire: seq<SeqRecord>, sr: SeqRecord)
    requires StartsWithBaseline(wire) && !sr.record.op.Baseline?
    ensures StartsWithBaseline(wire + [sr])
    ensures var e, f := EssenceOf(Truth(wire)), EssenceOf(Truth(wire + [sr]));
      && (e.lifecycle.Archived? ==> f.lifecycle.Archived?)
      && (sr.record.op == LifeTransition(true, Archived) ==> f.lifecycle.Archived?)
      && AttachmentsKept(e.attachments, f.attachments)
      && |f.attachments| == |e.attachments| + (if sr.record.op.AttachmentAdd? then 1 else 0)
      && (sr.record.op.AttachmentAdd? ==> f.attachments[|e.attachments|].blob == sr.record.op.blob)
  {
    var s := Truth(wire);
    TruthAppend(wire, sr);
    hide *;
    EssenceMoves(s, sr);
  }

  lemma EssenceMoves(s: State, sr: SeqRecord)
    requires Bounded(s)
    ensures var e, f := EssenceOf(s), EssenceOf(Step(s, sr));
      && (e.lifecycle.Archived? ==> f.lifecycle.Archived?)
      && (sr.record.op == LifeTransition(true, Archived) ==> f.lifecycle.Archived?)
      && AttachmentsKept(e.attachments, f.attachments)
      && |f.attachments| == |e.attachments| + (if sr.record.op.AttachmentAdd? then 1 else 0)
      && (sr.record.op.AttachmentAdd? ==> f.attachments[|e.attachments|].blob == sr.record.op.blob)
  {
    var t := Step(s, sr);
    LifecycleMoves(s, sr);
    hide EssenceOf, Step, AttachmentsKept;
    GrowsStep(s, sr);
    GrowsKept(s, t);
    EssenceKept(s);
    EssenceKept(t);
    KeptTransitive(EssenceOf(s).attachments, s.attachments, t.attachments);
    KeptTransitive(EssenceOf(s).attachments, t.attachments, EssenceOf(t).attachments);
    AttachmentsStep(s, sr);
    if sr.record.op.AttachmentAdd? { NewBlob(s, t, sr); }
  }

  lemma NewBlob(s: State, t: State, sr: SeqRecord)
    requires sr.record.op.AttachmentAdd? && t.attachments == s.attachments + [NewAttachment(sr)]
    ensures |EssenceOf(t).attachments| == |s.attachments| + 1
    ensures EssenceOf(t).attachments[|s.attachments|].blob == sr.record.op.blob
  {
  }

  lemma LifecycleMoves(s: State, sr: SeqRecord)
    requires Bounded(s)
    ensures var e, f := EssenceOf(s), EssenceOf(Step(s, sr));
      && (e.lifecycle.Archived? ==> f.lifecycle.Archived?)
      && (sr.record.op == LifeTransition(true, Archived) ==> f.lifecycle.Archived?)
  {
    hide Step, CountsAsContent, SettledLifecycle;
    LifecycleStep(s, sr);
  }

  // ----- putting a step together

  lemma Assemble(k: Codec, w: World, v: World, c: ClientId, cl: Client)
    requires Inv(k, w) && Coherent(v.wire, v.used) && LogOk(k, v) && StoreOk(v) && BlobsOk(v)
    requires v.clients == w.clients[c := cl] && ClientOk(k, v, c, cl)
    requires forall d :: d in w.clients && d != c ==> Later(w, v, d)
    ensures Inv(k, v)
  {
    hide Coherent, LogOk, StoreOk, BlobsOk, Later, ClientOk;
    forall d | d in v.clients ensures ClientOk(k, v, d, v.clients[d]) {
      if d != c {
        ClientLater(k, w, v, d, w.clients[d]);
      }
    }
  }

  /** Only the client's own state changes. */
  lemma ClientStep(k: Codec, w: World, c: ClientId, cl: Client)
    requires Inv(k, w) && ClientOk(k, w, c, cl)
    ensures Inv(k, SetClient(w, c, cl))
  {
    var v := SetClient(w, c, cl);
    SameServers(k, w, v);
    hide Coherent, LogOk, StoreOk, BlobsOk, Later, ClientOk;
    forall d | d in v.clients ensures ClientOk(k, v, d, v.clients[d]) {
      if d != c {
        ClientLater(k, w, v, d, w.clients[d]);
      } else {
        ClientLater(k, w, v, c, cl);
      }
    }
  }

  lemma SameServers(k: Codec, w: World, v: World)
    requires v == w.(clients := v.clients)
    ensures LogOk(k, w) ==> LogOk(k, v)
    ensures StoreOk(w) ==> StoreOk(v)
    ensures BlobsOk(w) ==> BlobsOk(v)
    ensures forall d :: Later(w, v, d)
  {
    forall d ensures Later(w, v, d) { SameLater(w, v, d); }
    hide EssenceOf, Truth, WireForm, Later, DrainOps, ManifestChunksOf;
  }

  /** The same history tells the same of archival and withdrawals. */
  lemma SameTold(w: World, v: World)
    requires v.wire == w.wire
    ensures IsArchived(v) <==> IsArchived(w)
    ensures forall n :: Withdrawn(v, n) <==> Withdrawn(w, n)
  {
    hide EssenceOf, Truth;
  }

  lemma SameLater(w: World, v: World, d: ClientId)
    requires v == w.(clients := v.clients)
    ensures Later(w, v, d)
  {
    SameTold(w, v);
    hide IsArchived, Withdrawn, DrainOps, ManifestChunksOf;
  }
}
