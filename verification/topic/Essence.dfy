/** What a rollup must not change: the fold's state up to stream sequences, signature statuses, dangling marks and
    warnings. `EssenceStep` is the simulation every compaction theorem rests on. */
module EssenceOfTopic {
  import opened Prelude
  import opened Vocabulary
  import opened Fold

  // ----- the cleaning a baked element undergoes (topic/rollup.go)

  function CleanStamp(e: EditStamp): EditStamp {
    e.(streamSeq := 0, sig := "")
  }

  function CleanStamps(es: seq<EditStamp>): seq<EditStamp> {
    seq(|es|, i requires 0 <= i < |es| => CleanStamp(es[i]))
  }

  function CleanContribution(c: Contribution): Contribution {
    c.(streamSeq := 0, sig := "", dangling := false, edits := CleanStamps(c.edits))
  }

  function CleanContributions(cs: seq<Contribution>): seq<Contribution> {
    seq(|cs|, i requires 0 <= i < |cs| => CleanContribution(cs[i]))
  }

  function CleanAttachment(a: Attachment): Attachment {
    a.(streamSeq := 0, sig := "", dangling := false)
  }

  function CleanAttachments(xs: seq<Attachment>): seq<Attachment> {
    seq(|xs|, i requires 0 <= i < |xs| => CleanAttachment(xs[i]))
  }

  function CleanWorkEvent(e: WorkEvent): WorkEvent {
    e.(streamSeq := 0, sig := "")
  }

  function CleanWorkEvents(es: seq<WorkEvent>): seq<WorkEvent> {
    seq(|es|, i requires 0 <= i < |es| => CleanWorkEvent(es[i]))
  }

  function CleanWorkItem(w: WorkItem): WorkItem {
    w.(streamSeq := 0, sig := "", timeline := CleanWorkEvents(w.timeline))
  }

  function CleanWorkItems(ws: seq<WorkItem>): seq<WorkItem> {
    seq(|ws|, i requires 0 <= i < |ws| => CleanWorkItem(ws[i]))
  }

  function CleanGrantEvent(e: GrantEvent): GrantEvent {
    e.(streamSeq := 0, sig := "")
  }

  function CleanGrantEvents(es: seq<GrantEvent>): seq<GrantEvent> {
    seq(|es|, i requires 0 <= i < |es| => CleanGrantEvent(es[i]))
  }

  function CleanGrant(g: Grant): Grant {
    g.(streamSeq := 0, sig := "", timeline := CleanGrantEvents(g.timeline))
  }

  function CleanGrants(gs: seq<Grant>): seq<Grant> {
    seq(|gs|, i requires 0 <= i < |gs| => CleanGrant(gs[i]))
  }

  // ----- the essence of a fold state

  datatype Essence = Essence(
    baselineState: Option<string>, lifecycle: Lifecycle,
    contributions: seq<Contribution>, attachments: seq<Attachment>, workItems: seq<WorkItem>, grants: seq<Grant>,
    editTarget: map<OpId, nat>, attIdx: map<OpId, nat>, workIdx: map<OpId, nat>, grantIdx: map<OpId, nat>,
    leaves: set<OpId>)

  function EssenceOf(s: State): Essence {
    Essence(s.baselineState, SettledLifecycle(s),
            CleanContributions(s.contributions), CleanAttachments(s.attachments),
            CleanWorkItems(s.workItems), CleanGrants(s.grants),
            s.editTarget, s.attIdx, s.workIdx, s.grantIdx, Leaves(s))
  }

  /** An op-id no earlier operation carries or names. */
  ghost predicate Fresh(s: State, r: Record) {
    r.id !in s.seen && r.id !in s.referenced && r.id !in r.parents
  }

  // ----- the leaf set

  /** The leaves after an ordinary operation: it builds upon its parents and becomes a leaf itself. */
  lemma LeavesStep(s: State, sr: SeqRecord)
    requires Bounded(s) && !sr.record.op.Baseline? && Fresh(s, sr.record)
    ensures Leaves(Step(s, sr)) == Leaves(s) - Elems(sr.record.parents) + {sr.record.id}
  {
  }

  /** The leaves after a mid-log checkpoint: those it records, and whatever it does not build upon. */
  lemma LeavesCheckpoint(s: State, sr: SeqRecord)
    requires Bounded(s) && sr.record.op.Baseline? && sr.record.op.readable
    ensures Leaves(Step(s, sr)) ==
            Leaves(s) - Elems(sr.record.parents) - {sr.record.id} + Elems(sr.record.op.baseline.frontier)
  {
  }

  lemma LeavesUnreadableCheckpoint(s: State, sr: SeqRecord)
    requires Bounded(s) && sr.record.op.Baseline? && !sr.record.op.readable
    ensures Leaves(Step(s, sr)) == Leaves(s) - Elems(sr.record.parents) - {sr.record.id}
  {
  }

  // ----- cleaning commutes with what the fold does to elements

  lemma CleanEdited(c: Contribution, d: Contribution, x: SeqRecord, y: SeqRecord)
    requires CleanContribution(c) == CleanContribution(d) && x.record == y.record && x.record.op.Edit?
    ensures CleanContribution(Edited(c, x)) == CleanContribution(Edited(d, y))
  {
    var e, f := Edited(c, x).edits, Edited(d, y).edits;
    assert CleanStamps(e) == CleanStamps(c.edits) + [CleanStamp(e[|e| - 1])];
    assert CleanStamps(f) == CleanStamps(d.edits) + [CleanStamp(f[|f| - 1])];
  }

  lemma CleanTouched(v: WorkItem, w: WorkItem, x: SeqRecord, y: SeqRecord)
    requires CleanWorkItem(v) == CleanWorkItem(w) && x.record == y.record && x.record.op.WorkRef?
    ensures CleanWorkItem(Touched(v, x)) == CleanWorkItem(Touched(w, y))
  {
    var e, f := Touched(v, x).timeline, Touched(w, y).timeline;
    assert CleanWorkEvents(e) == CleanWorkEvents(v.timeline) + [CleanWorkEvent(e[|e| - 1])];
    assert CleanWorkEvents(f) == CleanWorkEvents(w.timeline) + [CleanWorkEvent(f[|f| - 1])];
  }

  lemma CleanChallenged(g: Grant, h: Grant, x: SeqRecord, y: SeqRecord)
    requires CleanGrant(g) == CleanGrant(h) && x.record == y.record && x.record.op.GrantRevoke?
    ensures CleanGrant(Challenged(g, x)) == CleanGrant(Challenged(h, y))
  {
    var e, f := Challenged(g, x).timeline, Challenged(h, y).timeline;
    assert CleanGrantEvents(e) == CleanGrantEvents(g.timeline) + [CleanGrantEvent(e[|e| - 1])];
    assert CleanGrantEvents(f) == CleanGrantEvents(h.timeline) + [CleanGrantEvent(f[|f| - 1])];
  }

  lemma CleanContributionsAt(cs: seq<Contribution>, i: nat, c: Contribution)
    ensures CleanContributions(cs + [c]) == CleanContributions(cs) + [CleanContribution(c)]
    ensures i < |cs| ==> CleanContributions(cs[i := c]) == CleanContributions(cs)[i := CleanContribution(c)]
  {
  }

  lemma CleanAttachmentsAt(xs: seq<Attachment>, i: nat, a: Attachment)
    ensures CleanAttachments(xs + [a]) == CleanAttachments(xs) + [CleanAttachment(a)]
    ensures i < |xs| ==> CleanAttachments(xs[i := a]) == CleanAttachments(xs)[i := CleanAttachment(a)]
  {
  }

  lemma CleanWorkItemsAt(ws: seq<WorkItem>, i: nat, w: WorkItem)
    ensures CleanWorkItems(ws + [w]) == CleanWorkItems(ws) + [CleanWorkItem(w)]
    ensures i < |ws| ==> CleanWorkItems(ws[i := w]) == CleanWorkItems(ws)[i := CleanWorkItem(w)]
  {
  }

  lemma CleanGrantsAt(gs: seq<Grant>, i: nat, g: Grant)
    ensures CleanGrants(gs + [g]) == CleanGrants(gs) + [CleanGrant(g)]
    ensures i < |gs| ==> CleanGrants(gs[i := g]) == CleanGrants(gs)[i := CleanGrant(g)]
  {
  }

  // ----- the simulation, one kind of operation at a time

  /** Two fold states alike in everything but the graph and the volatile fields. */
  ghost predicate Alike(a: State, b: State) {
    && a.baselineState == b.baselineState
    && SettledLifecycle(a) == SettledLifecycle(b)
    && CleanContributions(a.contributions) == CleanContributions(b.contributions)
    && CleanAttachments(a.attachments) == CleanAttachments(b.attachments)
    && CleanWorkItems(a.workItems) == CleanWorkItems(b.workItems)
    && CleanGrants(a.grants) == CleanGrants(b.grants)
    && a.editTarget == b.editTarget && a.attIdx == b.attIdx && a.workIdx == b.workIdx && a.grantIdx == b.grantIdx
  }

  lemma AlikeContributionAt(a: State, b: State, i: nat)
    requires Alike(a, b) && i < |a.contributions|
    ensures |a.contributions| == |b.contributions|
    ensures CleanContribution(a.contributions[i]) == CleanContribution(b.contributions[i])
  {
    assert |CleanContributions(a.contributions)| == |CleanContributions(b.contributions)|;
    assert CleanContributions(a.contributions)[i] == CleanContributions(b.contributions)[i];
  }

  lemma AlikeAttachmentAt(a: State, b: State, i: nat)
    requires Alike(a, b) && i < |a.attachments|
    ensures |a.attachments| == |b.attachments|
    ensures CleanAttachment(a.attachments[i]) == CleanAttachment(b.attachments[i])
  {
    assert |CleanAttachments(a.attachments)| == |CleanAttachments(b.attachments)|;
    assert CleanAttachments(a.attachments)[i] == CleanAttachments(b.attachments)[i];
  }

  lemma AlikeWorkItemAt(a: State, b: State, i: nat)
    requires Alike(a, b) && i < |a.workItems|
    ensures |a.workItems| == |b.workItems|
    ensures CleanWorkItem(a.workItems[i]) == CleanWorkItem(b.workItems[i])
  {
    assert |CleanWorkItems(a.workItems)| == |CleanWorkItems(b.workItems)|;
    assert CleanWorkItems(a.workItems)[i] == CleanWorkItems(b.workItems)[i];
  }

  lemma AlikeGrantAt(a: State, b: State, i: nat)
    requires Alike(a, b) && i < |a.grants|
    ensures |a.grants| == |b.grants|
    ensures CleanGrant(a.grants[i]) == CleanGrant(b.grants[i])
  {
    assert |CleanGrants(a.grants)| == |CleanGrants(b.grants)|;
    assert CleanGrants(a.grants)[i] == CleanGrants(b.grants)[i];
  }

  lemma AlikeAdd(a: State, b: State, c: Contribution, d: Contribution)
    requires Bounded(a) && Bounded(b) && Alike(a, b) && CleanContribution(c) == CleanContribution(d)
    ensures Alike(AddContribution(Content(a), c), AddContribution(Content(b), d))
  {
    CleanContributionsAt(a.contributions, 0, c);
    CleanContributionsAt(b.contributions, 0, d);
    assert |CleanContributions(a.contributions)| == |CleanContributions(b.contributions)|;
    assert c.opId == CleanContribution(c).opId == d.opId;
  }

  lemma AlikeEdit(a: State, b: State, x: SeqRecord, y: SeqRecord)
    requires Bounded(a) && Bounded(b) && Alike(a, b) && x.record == y.record && x.record.op.Edit?
    ensures Alike(ApplyEdit(a, x), ApplyEdit(b, y))
  {
    var r := x.record;
    if !r.op.readable || IsBlank(r.op.editBody) || r.op.editAnchor == "" {
    } else if r.op.editAnchor in a.editTarget {
      var i := a.editTarget[r.op.editAnchor];
      AlikeContributionAt(a, b, i);
      var c, d := a.contributions[i], b.contributions[i];
      assert c.author == CleanContribution(c).author == d.author;
      if c.author == r.author {
        CleanEdited(c, d, x, y);
        CleanContributionsAt(a.contributions, i, Edited(c, x));
        CleanContributionsAt(b.contributions, i, Edited(d, y));
      }
    }
  }

  lemma AlikeResolve(a: State, b: State, r: Record)
    requires Bounded(a) && Bounded(b) && Alike(a, b) && r.op.CommentResolve?
    ensures Alike(ApplyResolve(a, r), ApplyResolve(b, r))
  {
    if TargetOf(r.op).Some? && TargetOf(r.op).value in a.editTarget {
      var i := a.editTarget[TargetOf(r.op).value];
      AlikeContributionAt(a, b, i);
      var c, d := a.contributions[i], b.contributions[i];
      assert c.kind == CleanContribution(c).kind == d.kind;
      assert c.resolved == CleanContribution(c).resolved == d.resolved;
      if !c.kind.Turn? && !c.resolved {
        CleanContributionsAt(a.contributions, i, c.(resolved := true, resolvedBy := r.author, resolvedTs := r.ts));
        CleanContributionsAt(b.contributions, i, d.(resolved := true, resolvedBy := r.author, resolvedTs := r.ts));
      }
    }
  }

  lemma AlikeAttach(a: State, b: State, c: Attachment, d: Attachment)
    requires Bounded(a) && Bounded(b) && Alike(a, b) && CleanAttachment(c) == CleanAttachment(d)
    ensures Alike(AddAttachment(Content(a), c), AddAttachment(Content(b), d))
  {
    CleanAttachmentsAt(a.attachments, 0, c);
    CleanAttachmentsAt(b.attachments, 0, d);
    assert |CleanAttachments(a.attachments)| == |CleanAttachments(b.attachments)|;
    assert c.opId == CleanAttachment(c).opId == d.opId;
  }

  lemma AlikeRemove(a: State, b: State, r: Record)
    requires Bounded(a) && Bounded(b) && Alike(a, b) && r.op.AttachmentRemove?
    ensures Alike(ApplyRemove(a, r), ApplyRemove(b, r))
  {
    if TargetOf(r.op).Some? && TargetOf(r.op).value in a.attIdx {
      var i := a.attIdx[TargetOf(r.op).value];
      AlikeAttachmentAt(a, b, i);
      var c, d := a.attachments[i], b.attachments[i];
      assert c.removed == CleanAttachment(c).removed == d.removed;
      if !c.removed {
        CleanAttachmentsAt(a.attachments, i, c.(removed := true, removedBy := r.author, removedTs := r.ts));
        CleanAttachmentsAt(b.attachments, i, d.(removed := true, removedBy := r.author, removedTs := r.ts));
      }
    }
  }

  lemma AlikeOpen(a: State, b: State, x: SeqRecord, y: SeqRecord)
    requires Bounded(a) && Bounded(b) && Alike(a, b) && x.record == y.record && x.record.op.WorkOpen?
    ensures Alike(ApplyOpen(a, x), ApplyOpen(b, y))
  {
    if !x.record.op.readable || IsBlank(x.record.op.title) {
    } else {
      CleanWorkItemsAt(a.workItems, 0, NewWorkItem(x));
      CleanWorkItemsAt(b.workItems, 0, NewWorkItem(y));
      assert |CleanWorkItems(a.workItems)| == |CleanWorkItems(b.workItems)|;
    }
  }

  lemma AlikeWorkRef(a: State, b: State, x: SeqRecord, y: SeqRecord)
    requires Bounded(a) && Bounded(b) && Alike(a, b) && x.record == y.record && x.record.op.WorkRef?
    ensures Alike(ApplyWorkRef(a, x), ApplyWorkRef(b, y))
  {
    var r := x.record;
    if TargetOf(r.op).Some? && TargetOf(r.op).value in a.workIdx {
      var i := a.workIdx[TargetOf(r.op).value];
      AlikeWorkItemAt(a, b, i);
      CleanTouched(a.workItems[i], b.workItems[i], x, y);
      CleanWorkItemsAt(a.workItems, i, Touched(a.workItems[i], x));
      CleanWorkItemsAt(b.workItems, i, Touched(b.workItems[i], y));
    }
  }

  lemma AlikeIssue(a: State, b: State, x: SeqRecord, y: SeqRecord)
    requires Bounded(a) && Bounded(b) && Alike(a, b) && x.record == y.record && x.record.op.GrantIssue?
    ensures Alike(ApplyIssue(a, x), ApplyIssue(b, y))
  {
    if !x.record.op.readable || IsBlank(x.record.op.grantee) || IsBlank(x.record.op.scope) {
    } else {
      CleanGrantsAt(a.grants, 0, NewGrant(x));
      CleanGrantsAt(b.grants, 0, NewGrant(y));
      assert |CleanGrants(a.grants)| == |CleanGrants(b.grants)|;
    }
  }

  lemma AlikeRevoke(a: State, b: State, x: SeqRecord, y: SeqRecord)
    requires Bounded(a) && Bounded(b) && Alike(a, b) && x.record == y.record && x.record.op.GrantRevoke?
    ensures Alike(ApplyRevoke(a, x), ApplyRevoke(b, y))
  {
    var r := x.record;
    if TargetOf(r.op).Some? && TargetOf(r.op).value in a.grantIdx {
      var i := a.grantIdx[TargetOf(r.op).value];
      AlikeGrantAt(a, b, i);
      CleanChallenged(a.grants[i], b.grants[i], x, y);
      CleanGrantsAt(a.grants, i, Challenged(a.grants[i], x));
      CleanGrantsAt(b.grants, i, Challenged(b.grants[i], y));
    }
  }

  lemma AlikeTransition(a: State, b: State, op: Op)
    requires Bounded(a) && Bounded(b) && Alike(a, b) && op.LifeTransition?
    ensures Alike(ApplyTransition(a, op), ApplyTransition(b, op))
  {
    assert a.lifecycle.Archived? <==> b.lifecycle.Archived?;
    assert a.lifecycle.Closed? <==> b.lifecycle.Closed?;
    if a.lifecycle.Archived? || !op.readable {
    } else {
      match op.to
      case Closed =>
      case Archived =>
      case Dormant =>
      case _ =>
    }
  }

  lemma AlikeCheckpoint(a: State, b: State, r: Record)
    requires Bounded(a) && Bounded(b) && Alike(a, b) && r.op.Baseline?
    ensures Alike(ApplyCheckpoint(a, r), ApplyCheckpoint(b, r))
  {
  }

  lemma AlikeWarn(a: State, b: State)
    requires Alike(a, b)
    ensures Alike(Warn(a), Warn(b))
  {
  }

  lemma AlikeConversation(a: State, b: State, x: SeqRecord, y: SeqRecord)
    requires Bounded(a) && Bounded(b) && Alike(a, b) && x.record == y.record
    requires x.record.op.TurnPost? || x.record.op.CommentAdd? || x.record.op.Edit? || x.record.op.CommentResolve?
    ensures Alike(Apply(a, x), Apply(b, y))
  {
    hide Alike, KeepsGraph, ApplyEdit, ApplyResolve, ApplyRemove, ApplyOpen, ApplyWorkRef, ApplyIssue, ApplyRevoke,
        ApplyTransition, ApplyCheckpoint;
    match x.record.op
    case TurnPost(_, _, _) => AlikeAdd(a, b, NewTurn(x), NewTurn(y));
    case CommentAdd(_, _, _, _) => AlikeAdd(a, b, NewComment(x), NewComment(y));
    case Edit(_, _, _, _) => AlikeEdit(a, b, x, y);
    case CommentResolve(_, _) => AlikeResolve(a, b, x.record);
  }

  lemma AlikeWorkbench(a: State, b: State, x: SeqRecord, y: SeqRecord)
    requires Bounded(a) && Bounded(b) && Alike(a, b) && x.record == y.record
    requires x.record.op.AttachmentAdd? || x.record.op.AttachmentRemove? || x.record.op.WorkOpen?
      || x.record.op.WorkRef?
    ensures Alike(Apply(a, x), Apply(b, y))
  {
    hide Alike, KeepsGraph, ApplyEdit, ApplyResolve, ApplyRemove, ApplyOpen, ApplyWorkRef, ApplyIssue, ApplyRevoke,
        ApplyTransition, ApplyCheckpoint;
    match x.record.op
    case AttachmentAdd(_, _, _, _, _, _) => AlikeAttach(a, b, NewAttachment(x), NewAttachment(y));
    case AttachmentRemove(_, _) =>
      AlikeRemove(a, b, x.record);
    case WorkOpen(_, _, _, _) =>
      AlikeOpen(a, b, x, y);
    case WorkRef(_, _, _) =>
      AlikeWorkRef(a, b, x, y);
  }

  lemma AlikeOther(a: State, b: State, x: SeqRecord, y: SeqRecord)
    requires Bounded(a) && Bounded(b) && Alike(a, b) && x.record == y.record
    requires x.record.op.GrantIssue? || x.record.op.GrantRevoke? || x.record.op.LifeTransition?
      || x.record.op.Baseline? || x.record.op.Unknown?
    ensures Alike(Apply(a, x), Apply(b, y))
  {
    hide Alike, KeepsGraph, ApplyEdit, ApplyResolve, ApplyRemove, ApplyOpen, ApplyWorkRef, ApplyIssue, ApplyRevoke,
        ApplyTransition, ApplyCheckpoint;
    match x.record.op
    case GrantIssue(_, _, _, _) =>
      AlikeIssue(a, b, x, y);
    case GrantRevoke(_, _) =>
      AlikeRevoke(a, b, x, y);
    case LifeTransition(_, _) =>
      AlikeTransition(a, b, x.record.op);
    case Baseline(_, _) =>
      AlikeCheckpoint(a, b, x.record);
    case Unknown(_) =>
      AlikeWarn(a, b);
  }

  /** The fold acts alike on states that are alike: lifecycle, elements, timelines and index maps move together. */
  lemma AlikeApply(a: State, b: State, x: SeqRecord, y: SeqRecord)
    requires Bounded(a) && Bounded(b) && Alike(a, b) && x.record == y.record
    ensures Alike(Apply(a, x), Apply(b, y))
  {
    hide Alike, KeepsGraph, ApplyEdit, ApplyResolve, ApplyRemove, ApplyOpen, ApplyWorkRef, ApplyIssue, ApplyRevoke,
        ApplyTransition, ApplyCheckpoint;
    var op := x.record.op;
    if op.TurnPost? || op.CommentAdd? || op.Edit? || op.CommentResolve? {
      AlikeConversation(a, b, x, y);
    } else if op.AttachmentAdd? || op.AttachmentRemove? || op.WorkOpen? || op.WorkRef? {
      AlikeWorkbench(a, b, x, y);
    } else {
      AlikeOther(a, b, x, y);
    }
  }

  /** One more operation cannot tell two states of equal essence apart. Stream sequences may differ. */
  lemma EssenceStep(a: State, b: State, x: SeqRecord, y: SeqRecord)
    requires Bounded(a) && Bounded(b) && EssenceOf(a) == EssenceOf(b) && x.record == y.record
    requires x.record.op.Baseline? || (Fresh(a, x.record) && Fresh(b, x.record))
    ensures EssenceOf(Step(a, x)) == EssenceOf(Step(b, y))
  {
    var r := x.record;
    assert Alike(Note(a, r), Note(b, r));
    AlikeApply(Note(a, r), Note(b, r), x, y);
    if r.op.Baseline? {
      if r.op.readable {
        LeavesCheckpoint(a, x);
        LeavesCheckpoint(b, y);
      } else {
        LeavesUnreadableCheckpoint(a, x);
        LeavesUnreadableCheckpoint(b, y);
      }
    } else {
      LeavesStep(a, x);
      LeavesStep(b, y);
    }
  }
}
