/** Dangling marks: exactly which anchors a rollup loses (topic/view.go, the seeding of `seen` and the final
    marking). */
module Anchors {
  import opened Prelude
  import opened Vocabulary
  import opened Fold
  import opened EssenceOfTopic
  import opened Soundness
  import opened Compaction

  /** Marks are derived while reading: no fold state carries one unless its baseline brought it. */
  ghost predicate Unmarked(s: State) {
    && (forall i :: 0 <= i < |s.contributions| ==> !s.contributions[i].dangling)
    && (forall i :: 0 <= i < |s.attachments| ==> !s.attachments[i].dangling)
  }

  /** Work, grants, transitions and checkpoints touch neither contributions nor attachments. */
  lemma KeepsConversation(s: State, sr: SeqRecord)
    requires Bounded(s)
    requires var op := sr.record.op;
      op.WorkOpen? || op.WorkRef? || op.GrantIssue? || op.GrantRevoke? || op.LifeTransition? || op.Baseline?
        || op.Unknown?
    ensures Apply(s, sr).contributions == s.contributions && Apply(s, sr).attachments == s.attachments
  {
    ApplyArms(s, sr);
    var op := sr.record.op;
    hide Apply, Bounded, KeepsGraph, Touched, Challenged;
    match op
    case WorkOpen(_, _, _, _) =>
      if !op.readable || IsBlank(op.title) {}
    case WorkRef(_, _, _) =>
      if TargetOf(op).Some? { if TargetOf(op).value in s.workIdx {} }
    case GrantIssue(_, _, _, _) =>
      if !op.readable || IsBlank(op.grantee) || IsBlank(op.scope) {}
    case GrantRevoke(_, _) =>
      if TargetOf(op).Some? { if TargetOf(op).value in s.grantIdx {} }
    case LifeTransition(_, _) => hide ApplyTransition;
    case Baseline(_, _) =>
    case Unknown(_) =>
  }

  lemma UnmarkedEdit(s: State, sr: SeqRecord)
    requires Bounded(s) && Unmarked(s) && sr.record.op.Edit?
    ensures Unmarked(ApplyEdit(s, sr))
  {
    var op := sr.record.op;
    if !op.readable || IsBlank(op.editBody) || op.editAnchor == "" || op.editAnchor !in s.editTarget {
    } else {
      var i := s.editTarget[op.editAnchor];
      hide Bounded, KeepsGraph;
      if s.contributions[i].author == sr.record.author {}
      assert !s.contributions[i].dangling;
    }
  }

  lemma UnmarkedResolve(s: State, r: Record)
    requires Bounded(s) && Unmarked(s) && r.op.CommentResolve?
    ensures Unmarked(ApplyResolve(s, r))
  {
    if TargetOf(r.op).Some? && TargetOf(r.op).value in s.editTarget {
      var i := s.editTarget[TargetOf(r.op).value];
      hide Bounded, KeepsGraph;
      if s.contributions[i].kind.Turn? {} else if s.contributions[i].resolved {}
      assert !s.contributions[i].dangling;
    }
  }

  lemma UnmarkedRemove(s: State, r: Record)
    requires Bounded(s) && Unmarked(s) && r.op.AttachmentRemove?
    ensures Unmarked(ApplyRemove(s, r))
  {
    if TargetOf(r.op).Some? && TargetOf(r.op).value in s.attIdx {
      var i := s.attIdx[TargetOf(r.op).value];
      hide Bounded, KeepsGraph;
      if s.attachments[i].removed {}
      assert !s.attachments[i].dangling;
    }
  }

  lemma UnmarkedAdded(s: State, sr: SeqRecord)
    requires Bounded(s) && Unmarked(s)
    ensures sr.record.op.TurnPost? ==> Unmarked(AddContribution(Content(s), NewTurn(sr)))
    ensures sr.record.op.CommentAdd? ==> Unmarked(AddContribution(Content(s), NewComment(sr)))
    ensures sr.record.op.AttachmentAdd? ==> Unmarked(AddAttachment(Content(s), NewAttachment(sr)))
  {
    hide Bounded, KeepsGraph;
  }

  lemma UnmarkedApply(s: State, sr: SeqRecord)
    requires Bounded(s) && Unmarked(s)
    ensures Unmarked(Apply(s, sr))
  {
    ApplyArms(s, sr);
    UnmarkedAdded(s, sr);
    hide Apply, ApplyEdit, ApplyResolve, ApplyRemove, ApplyTransition, ApplyIssue, ApplyRevoke, ApplyOpen,
        ApplyWorkRef, AddContribution, AddAttachment, KeepsGraph, Bounded;
    match sr.record.op
    case TurnPost(_, _, _) =>
    case CommentAdd(_, _, _, _) =>
    case Edit(_, _, _, _) => UnmarkedEdit(s, sr);
    case CommentResolve(_, _) => UnmarkedResolve(s, sr.record);
    case AttachmentAdd(_, _, _, _, _, _) =>
    case AttachmentRemove(_, _) => UnmarkedRemove(s, sr.record);
    case _ => KeepsConversation(s, sr);
  }

  function SeenBy(tail: seq<SeqRecord>): set<OpId> {
    if |tail| == 0 then {} else
    var r := tail[|tail| - 1].record;
    SeenBy(tail[..|tail| - 1]) + {r.id} + if r.op.Baseline? && r.op.readable then Elems(r.op.baseline.frontier) else {}
  }

  lemma SeenStep(s: State, sr: SeqRecord)
    requires Bounded(s)
    ensures Step(s, sr).seen == s.seen + SeenBy([sr])
  {
    hide ApplyEdit, ApplyResolve, ApplyRemove, ApplyOpen, ApplyWorkRef, ApplyIssue, ApplyRevoke, ApplyTransition;
    assert [sr][..0] == [];
  }

  lemma {:induction false} SeenTail(s: State, tail: seq<SeqRecord>)
    requires Bounded(s) && Unmarked(s)
    ensures FoldFrom(s, tail).seen == s.seen + SeenBy(tail) && Unmarked(FoldFrom(s, tail))
  {
    hide Unmarked, Apply;
    if |tail| > 0 {
      var n := |tail| - 1;
      SeenTail(s, tail[..n]);
      var t := FoldFrom(s, tail[..n]);
      SeenStep(t, tail[n]);
      assert [tail[n]][..0] == [];
      UnmarkedNote(t, tail[n].record);
      UnmarkedApply(Note(t, tail[n].record), tail[n]);
    }
  }

  lemma UnmarkedNote(s: State, r: Record)
    requires Unmarked(s)
    ensures Unmarked(Note(s, r))
  {
  }

  /** The ids a rollup keeps resolvable: the elements it bakes and the frontier it continues. */
  function Kept(s: State): set<OpId> {
    ElementIds(s) + Leaves(s)
  }

  lemma UnmarkedClean(s: State)
    ensures forall i :: 0 <= i < |s.contributions| ==> !CleanContributions(s.contributions)[i].dangling
    ensures forall i :: 0 <= i < |s.attachments| ==> !CleanAttachments(s.attachments)[i].dangling
  {
  }

  lemma SeedUnmarked(s: State, rb: Record)
    requires IsRollupOf(rb, EssenceOf(s))
    ensures Unmarked(Seed(rb))
  {
    UnmarkedClean(s);
    hide BakedIds, IndexOf, Leaves, SettledLifecycle;
  }

  lemma SeedSeen(s: State, rb: Record)
    requires IsRollupOf(rb, EssenceOf(s)) && Leaves(s) != {}
    ensures Seed(rb).seen == {rb.id} + Kept(s) && Unmarked(Seed(rb))
  {
    BakedSame(s, rb);
    RollupShape(s, rb);
    SeedUnmarked(s, rb);
    hide BakedIds, ElementIds, EssenceOf, IsRollupOf, Unmarked;
    SeedGraph(rb);
  }

  /** How a view marks: an anchor that resolves to nothing seen. */
  lemma MarksOf(path: string, log: seq<SeqRecord>)
    requires StartsWithBaseline(log) && Unmarked(FoldLog(log))
    ensures var mt, s := View(path, log), FoldLog(log);
      && |mt.contributions| == |s.contributions| && |mt.attachments| == |s.attachments|
      && (forall i :: 0 <= i < |mt.contributions| ==>
            mt.contributions[i].anchor == CleanContributions(mt.contributions)[i].anchor
            && (mt.contributions[i].dangling <==>
               mt.contributions[i].anchor != "" && mt.contributions[i].anchor !in s.seen))
      && (forall i :: 0 <= i < |mt.attachments| ==>
            mt.attachments[i].anchor == CleanAttachments(mt.attachments)[i].anchor
            && (mt.attachments[i].dangling <==> mt.attachments[i].anchor != "" && mt.attachments[i].anchor !in s.seen))
  {
  }

  /** What a rollup loses: ids it had seen that are neither baked nor leaves, and that the tail does not bring back. */
  function Lost(s: State, tail: seq<SeqRecord>): set<OpId> {
    s.seen - Kept(s) - SeenBy(tail)
  }

  ghost predicate MarkMoves(anchor: OpId, before: bool, after: bool, rb: OpId, lost: set<OpId>) {
    anchor == rb || (after <==> before || (anchor != "" && anchor in lost))
  }

  /** A rollup only ever adds dangling marks, and adds one exactly where the anchor was neither baked nor a leaf. */
  lemma RollupMarksExactly(path: string, log: seq<SeqRecord>, rb: SeqRecord, tail: seq<SeqRecord>)
    requires CausalLog(log) && View(path, log).frontier != [] && Unmarked(Seed(log[0].record))
    requires rb.record == RollupRecord(View(path, log), rb.record.id, rb.record.author, rb.record.ts)
    requires Causal(IdsOf(log) + {rb.record.id}, tail)
    ensures var full, rolled, lost := View(path, log + tail), View(path, [rb] + tail), Lost(FoldLog(log), tail);
      && |full.contributions| == |rolled.contributions| && |full.attachments| == |rolled.attachments|
      && (forall i :: 0 <= i < |full.contributions| ==>
            && rolled.contributions[i].anchor == full.contributions[i].anchor
            && MarkMoves(full.contributions[i].anchor, full.contributions[i].dangling,
                         rolled.contributions[i].dangling, rb.record.id, lost))
      && (forall i :: 0 <= i < |full.attachments| ==>
            && rolled.attachments[i].anchor == full.attachments[i].anchor
            && MarkMoves(full.attachments[i].anchor, full.attachments[i].dangling, rolled.attachments[i].dangling,
                         rb.record.id, lost))
  {
    assert StartsWithBaseline(log) && rb.record.op.Baseline?;
    CompactionCongruence(path, log, rb, tail);
    var s := FoldLog(log);
    SeenTail(Seed(log[0].record), log[1..]);
    RollupIsRollup(path, log, rb.record.id, rb.record.author, rb.record.ts);
    FrontierIsLeaves(path, log);
    LogSound(log);
    hide RollupRecord, EssenceOf, View, FoldLog, FoldFrom, Seed, Unmarked, IsRollupOf, Sound, Covers, Mentions, Causal,
        Leaves, ElementIds, CleanContribution, CleanAttachment;
    SeedSeen(s, rb.record);
    SeenTail(s, tail);
    SeenTail(Seed(rb.record), tail);
    FoldLogConcat(log, tail);
    FoldFromBaseline(rb, tail);
    LongerLog(log, tail);
    MarksOf(path, log + tail);
    MarksOf(path, [rb] + tail);
    SeenKeeps(s);
  }

  lemma SeenKeeps(s: State)
    requires Sound(s)
    ensures Kept(s) <= s.seen
  {
    ElementsSeen(s);
  }
}
