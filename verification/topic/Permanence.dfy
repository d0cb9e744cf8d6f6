/** Nothing said is unsaid: how elements may change along a log, and what their marks and trails always tell
    (topic/view.go, the edit, resolve, remove and revoke arms). */
module Permanence {
  import opened Prelude
  import opened Vocabulary
  import opened Fold

  // ----- how one element may change

  /** Authorship and place are fixed; edits only append, a body changes only with them; the first resolver stays. */
  ghost predicate ContributionGrows(c: Contribution, d: Contribution) {
    && d == c.(body := d.body, mentions := d.mentions, edits := d.edits,
               resolved := d.resolved, resolvedBy := d.resolvedBy, resolvedTs := d.resolvedTs)
    && c.edits <= d.edits
    && (|c.edits| == |d.edits| ==> d.body == c.body && d.mentions == c.mentions)
    && (c.resolved ==> d.resolved && d.resolvedBy == c.resolvedBy && d.resolvedTs == c.resolvedTs)
  }

  /** Only the removal mark may appear, and the first remover stays. */
  ghost predicate AttachmentGrows(a: Attachment, b: Attachment) {
    && b == a.(removed := b.removed, removedBy := b.removedBy, removedTs := b.removedTs)
    && (a.removed ==> b == a)
  }

  /** The timeline only appends; done is final, owner included. */
  ghost predicate WorkGrows(v: WorkItem, w: WorkItem) {
    && w == v.(status := w.status, owner := w.owner, timeline := w.timeline)
    && v.timeline <= w.timeline
    && (v.status.Done? ==> w.status.Done? && w.owner == v.owner)
  }

  /** The timeline only appends; a revoked grant never stands again. */
  ghost predicate GrantGrows(g: Grant, h: Grant) {
    && h == g.(status := h.status, timeline := h.timeline)
    && g.timeline <= h.timeline
    && (g.status.Revoked? ==> h.status.Revoked?)
  }

  /** No element disappears or moves, and each changes only as it may. */
  ghost predicate Grows(s: State, t: State) {
    && |s.contributions| <= |t.contributions| && |s.attachments| <= |t.attachments|
    && |s.workItems| <= |t.workItems| && |s.grants| <= |t.grants|
    && (forall i :: 0 <= i < |s.contributions| ==> ContributionGrows(s.contributions[i], t.contributions[i]))
    && (forall i :: 0 <= i < |s.attachments| ==> AttachmentGrows(s.attachments[i], t.attachments[i]))
    && (forall i :: 0 <= i < |s.workItems| ==> WorkGrows(s.workItems[i], t.workItems[i]))
    && (forall i :: 0 <= i < |s.grants| ==> GrantGrows(s.grants[i], t.grants[i]))
  }

  lemma GrowsTransitive(s: State, t: State, u: State)
    requires Grows(s, t) && Grows(t, u)
    ensures Grows(s, u)
  {
    forall i | 0 <= i < |s.contributions| ensures ContributionGrows(s.contributions[i], u.contributions[i]) {
      assert ContributionGrows(s.contributions[i], t.contributions[i])
        && ContributionGrows(t.contributions[i], u.contributions[i]);
    }
    forall i | 0 <= i < |s.attachments| ensures AttachmentGrows(s.attachments[i], u.attachments[i]) {
      assert AttachmentGrows(s.attachments[i], t.attachments[i]) && AttachmentGrows(t.attachments[i], u.attachments[i]);
    }
    forall i | 0 <= i < |s.workItems| ensures WorkGrows(s.workItems[i], u.workItems[i]) {
      assert WorkGrows(s.workItems[i], t.workItems[i]) && WorkGrows(t.workItems[i], u.workItems[i]);
    }
    forall i | 0 <= i < |s.grants| ensures GrantGrows(s.grants[i], u.grants[i]) {
      assert GrantGrows(s.grants[i], t.grants[i]) && GrantGrows(t.grants[i], u.grants[i]);
    }
  }

  // ----- one operation

  /** The elements of `t` are those of `s`. */
  ghost predicate SameElements(s: State, t: State) {
    s.contributions == t.contributions && s.attachments == t.attachments && s.workItems == t.workItems
      && s.grants == t.grants
  }

  lemma GrowsSame(s: State, t: State)
    requires SameElements(s, t)
    ensures Grows(s, t)
  {
  }

  lemma GrowsContribution(s: State, t: State, i: nat, c: Contribution)
    requires SameElements(s, t.(contributions := s.contributions))
    requires if i < |s.contributions|
             then ContributionGrows(s.contributions[i], c) && t.contributions == s.contributions[i := c]
             else t.contributions == s.contributions + [c]
    ensures Grows(s, t)
  {
  }

  lemma GrowsAttachment(s: State, t: State, i: nat, a: Attachment)
    requires SameElements(s, t.(attachments := s.attachments))
    requires if i < |s.attachments| then AttachmentGrows(s.attachments[i], a) && t.attachments == s.attachments[i := a]
             else t.attachments == s.attachments + [a]
    ensures Grows(s, t)
  {
  }

  lemma GrowsWork(s: State, t: State, i: nat, w: WorkItem)
    requires SameElements(s, t.(workItems := s.workItems))
    requires if i < |s.workItems| then WorkGrows(s.workItems[i], w) && t.workItems == s.workItems[i := w]
             else t.workItems == s.workItems + [w]
    ensures Grows(s, t)
  {
  }

  lemma GrowsGrant(s: State, t: State, i: nat, g: Grant)
    requires SameElements(s, t.(grants := s.grants))
    requires if i < |s.grants| then GrantGrows(s.grants[i], g) && t.grants == s.grants[i := g]
             else t.grants == s.grants + [g]
    ensures Grows(s, t)
  {
  }

  lemma GrowsEdit(s: State, sr: SeqRecord)
    requires Bounded(s) && sr.record.op.Edit?
    ensures Grows(s, ApplyEdit(s, sr))
  {
    var r, t := sr.record, ApplyEdit(s, sr);
    hide Grows, KeepsGraph;
    if !r.op.readable || IsBlank(r.op.editBody) || r.op.editAnchor == "" || r.op.editAnchor !in s.editTarget {
      GrowsSame(s, t);
    } else {
      var i := s.editTarget[r.op.editAnchor];
      if s.contributions[i].author != r.author {
        GrowsSame(s, t);
      } else {
        GrowsContribution(s, t, i, Edited(s.contributions[i], sr));
      }
    }
  }

  lemma GrowsResolve(s: State, r: Record)
    requires Bounded(s) && r.op.CommentResolve?
    ensures Grows(s, ApplyResolve(s, r))
  {
    var t := ApplyResolve(s, r);
    hide Grows, KeepsGraph;
    if TargetOf(r.op).None? || TargetOf(r.op).value !in s.editTarget {
      GrowsSame(s, t);
    } else {
      var i := s.editTarget[TargetOf(r.op).value];
      var c := s.contributions[i];
      if c.kind.Turn? || c.resolved {
        GrowsSame(s, t);
      } else {
        GrowsContribution(s, t, i, c.(resolved := true, resolvedBy := r.author, resolvedTs := r.ts));
      }
    }
  }

  lemma GrowsRemove(s: State, r: Record)
    requires Bounded(s) && r.op.AttachmentRemove?
    ensures Grows(s, ApplyRemove(s, r))
  {
    var t := ApplyRemove(s, r);
    hide Grows, KeepsGraph;
    if TargetOf(r.op).None? || TargetOf(r.op).value !in s.attIdx {
      GrowsSame(s, t);
    } else {
      var i := s.attIdx[TargetOf(r.op).value];
      var a := s.attachments[i];
      if a.removed {
        GrowsSame(s, t);
      } else {
        GrowsAttachment(s, t, i, a.(removed := true, removedBy := r.author, removedTs := r.ts));
      }
    }
  }

  lemma GrowsOpen(s: State, sr: SeqRecord)
    requires Bounded(s) && sr.record.op.WorkOpen?
    ensures Grows(s, ApplyOpen(s, sr))
  {
    var t := ApplyOpen(s, sr);
    hide Grows, KeepsGraph, Bounded;
    if !sr.record.op.readable || IsBlank(sr.record.op.title) {
      GrowsSame(s, t);
    } else {
      GrowsWork(s, t, |s.workItems|, NewWorkItem(sr));
    }
  }

  lemma GrowsWorkRef(s: State, sr: SeqRecord)
    requires Bounded(s) && sr.record.op.WorkRef?
    ensures Grows(s, ApplyWorkRef(s, sr))
  {
    var op, t := sr.record.op, ApplyWorkRef(s, sr);
    hide Grows, KeepsGraph;
    if TargetOf(op).None? || TargetOf(op).value !in s.workIdx {
      GrowsSame(s, t);
    } else {
      var i := s.workIdx[TargetOf(op).value];
      GrowsWork(s, t, i, Touched(s.workItems[i], sr));
    }
  }

  lemma GrowsIssue(s: State, sr: SeqRecord)
    requires Bounded(s) && sr.record.op.GrantIssue?
    ensures Grows(s, ApplyIssue(s, sr))
  {
    var op, t := sr.record.op, ApplyIssue(s, sr);
    hide Grows, KeepsGraph, Bounded;
    if !op.readable || IsBlank(op.grantee) || IsBlank(op.scope) {
      GrowsSame(s, t);
    } else {
      GrowsGrant(s, t, |s.grants|, NewGrant(sr));
    }
  }

  lemma GrowsRevoke(s: State, sr: SeqRecord)
    requires Bounded(s) && sr.record.op.GrantRevoke?
    ensures Grows(s, ApplyRevoke(s, sr))
  {
    var op, t := sr.record.op, ApplyRevoke(s, sr);
    hide Grows, KeepsGraph;
    if TargetOf(op).None? || TargetOf(op).value !in s.grantIdx {
      GrowsSame(s, t);
    } else {
      var i := s.grantIdx[TargetOf(op).value];
      GrowsGrant(s, t, i, Challenged(s.grants[i], sr));
    }
  }

  lemma GrowsAdded(s: State, sr: SeqRecord)
    requires Bounded(s)
    ensures sr.record.op.TurnPost? ==> Grows(s, AddContribution(Content(s), NewTurn(sr)))
    ensures sr.record.op.CommentAdd? ==> Grows(s, AddContribution(Content(s), NewComment(sr)))
    ensures sr.record.op.AttachmentAdd? ==> Grows(s, AddAttachment(Content(s), NewAttachment(sr)))
  {
    hide Grows, KeepsGraph;
    if sr.record.op.TurnPost? {
      GrowsContribution(s, AddContribution(Content(s), NewTurn(sr)), |s.contributions|, NewTurn(sr));
    } else if sr.record.op.CommentAdd? {
      GrowsContribution(s, AddContribution(Content(s), NewComment(sr)), |s.contributions|, NewComment(sr));
    } else if sr.record.op.AttachmentAdd? {
      GrowsAttachment(s, AddAttachment(Content(s), NewAttachment(sr)), |s.attachments|, NewAttachment(sr));
    }
  }

  lemma GrowsApply(s: State, sr: SeqRecord)
    requires Bounded(s)
    ensures Grows(s, Apply(s, sr))
  {
    ApplyArms(s, sr);
    hide Grows, KeepsGraph, Apply, ApplyEdit, ApplyResolve, ApplyRemove, ApplyOpen, ApplyWorkRef, ApplyIssue,
        ApplyRevoke, ApplyTransition, AddContribution, AddAttachment, Bounded;
    match sr.record.op
    case TurnPost(_, _, _) => GrowsAdded(s, sr);
    case CommentAdd(_, _, _, _) => GrowsAdded(s, sr);
    case Edit(_, _, _, _) => GrowsEdit(s, sr);
    case CommentResolve(_, _) => GrowsResolve(s, sr.record);
    case AttachmentAdd(_, _, _, _, _, _) => GrowsAdded(s, sr);
    case AttachmentRemove(_, _) => GrowsRemove(s, sr.record);
    case WorkOpen(_, _, _, _) => GrowsOpen(s, sr);
    case WorkRef(_, _, _) => GrowsWorkRef(s, sr);
    case GrantIssue(_, _, _, _) => GrowsIssue(s, sr);
    case GrantRevoke(_, _) => GrowsRevoke(s, sr);
    case LifeTransition(_, _) => GrowsSame(s, Apply(s, sr));
    case Baseline(_, _) => GrowsSame(s, Apply(s, sr));
    case Unknown(_) => GrowsSame(s, Apply(s, sr));
  }

  lemma GrowsStep(s: State, sr: SeqRecord)
    requires Bounded(s)
    ensures Grows(s, Step(s, sr))
  {
    var n := Note(s, sr.record);
    GrowsSame(s, n);
    hide Grows, Apply, SameElements;
    GrowsApply(n, sr);
    GrowsTransitive(s, n, Step(s, sr));
  }

  /** Along any log, whatever it holds, elements are permanent: none vanishes, moves, changes author, is resolved or
      removed twice, or comes back from revocation. */
  lemma {:induction false} ElementsArePermanent(s: State, tail: seq<SeqRecord>)
    requires Bounded(s)
    ensures Grows(s, FoldFrom(s, tail))
  {
    hide Step, Grows, SameElements;
    if |tail| == 0 {
      assert SameElements(s, s) by { Reflexive(s); }
      GrowsSame(s, s);
    } else {
      var n := |tail| - 1;
      ElementsArePermanent(s, tail[..n]);
      GrowsStep(FoldFrom(s, tail[..n]), tail[n]);
      GrowsTransitive(s, FoldFrom(s, tail[..n]), FoldFrom(s, tail));
    }
  }

  lemma Reflexive(s: State)
    ensures SameElements(s, s)
  {
  }
}
