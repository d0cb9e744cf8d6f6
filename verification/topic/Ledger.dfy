/** What a fold holds, read off its log: every element has its operation and every operation its element, in order, and
    the marks are the first that were aimed at them (topic/view.go, the arms of `apply`). */
module Ledger {
  import opened Prelude
  import opened Vocabulary
  import opened Fold
  import opened EssenceOfTopic
  import opened Anchors
  import opened Permanence
  import opened Steps
  import opened Trails
  import opened Upkeep

  // ----- which operations make elements

  predicate IsTalk(r: Record) {
    r.op.TurnPost? || r.op.CommentAdd?
  }

  predicate OpensItem(r: Record) {
    r.op.WorkOpen? && r.op.readable && !IsBlank(r.op.title)
  }

  predicate IssuesGrant(r: Record) {
    r.op.GrantIssue? && r.op.readable && !IsBlank(r.op.grantee) && !IsBlank(r.op.scope)
  }

  function NewTalk(sr: SeqRecord): Contribution
    requires IsTalk(sr.record)
  {
    if sr.record.op.TurnPost? then NewTurn(sr) else NewComment(sr)
  }

  datatype Census = Census(talk: nat, files: nat, items: nat, grants: nat)

  /** How many elements of each kind a stretch of log makes. */
  function Count(tail: seq<SeqRecord>): Census {
    if |tail| == 0 then Census(0, 0, 0, 0)
    else
      var c, r := Count(tail[..|tail| - 1]), tail[|tail| - 1].record;
      Census(c.talk + (if IsTalk(r) then 1 else 0), c.files + (if r.op.AttachmentAdd? then 1 else 0),
             c.items + (if OpensItem(r) then 1 else 0), c.grants + (if IssuesGrant(r) then 1 else 0))
  }

  /** One operation adds the element it describes, at the end, and nothing else. */
  lemma TalkStep(s: State, sr: SeqRecord)
    requires Bounded(s)
    ensures var t := Step(s, sr);
      if IsTalk(sr.record) then t.contributions == s.contributions + [NewTalk(sr)]
        else |t.contributions| == |s.contributions|
  {
    var n, op := Note(s, sr.record), sr.record.op;
    assert Step(s, sr) == Apply(n, sr) && n.contributions == s.contributions;
    ApplyArms(n, sr);
    hide Step, Note;
    if op.TurnPost? || op.CommentAdd? {
      hide Apply, Bounded, KeepsGraph;
    } else if op.Edit? {
      hide Apply;
      ApplyIsEdit(n, sr);
      hide Edited;
    } else if op.CommentResolve? {
      hide Apply;
      ApplyIsEdit(n, sr);
    } else if op.AttachmentAdd? || op.AttachmentRemove? {
      hide Apply;
      ApplyIsFile(n, sr);
    } else {
      hide Apply;
      KeepsConversation(n, sr);
    }
  }

  lemma ItemStep(s: State, sr: SeqRecord)
    requires Bounded(s)
    ensures var t := Step(s, sr);
      if OpensItem(sr.record) then t.workItems == s.workItems + [NewWorkItem(sr)] else |t.workItems| == |s.workItems|
  {
    var n := Note(s, sr.record);
    assert Step(s, sr) == Apply(n, sr) && n.workItems == s.workItems;
    if sr.record.op.WorkOpen? {
      assert Apply(n, sr) == ApplyOpen(n, sr);
      hide Bounded, KeepsGraph;
    } else if sr.record.op.WorkRef? {
      assert Apply(n, sr) == ApplyWorkRef(n, sr);
      hide Touched;
    } else {
      hide Apply;
      KeepsWork(n, sr);
    }
  }

  lemma KeepsGrants(s: State, sr: SeqRecord)
    requires Bounded(s) && !sr.record.op.GrantIssue? && !sr.record.op.GrantRevoke?
    ensures Apply(s, sr).grants == s.grants
  {
    var op := sr.record.op;
    if op.Edit? || op.CommentResolve? {
      ApplyIsEdit(s, sr);
      hide Apply;
      if op.Edit? { EditKeepsGrants(s, sr); } else { ResolveKeepsGrants(s, sr.record); }
    } else if op.AttachmentRemove? {
      hide ApplyRemove;
      RemoveFrame(s, sr.record);
    } else if op.WorkOpen? || op.WorkRef? {
      hide Touched, Bounded;
      if op.WorkRef? && TargetOf(op).Some? { if TargetOf(op).value in s.workIdx {} }
    } else {
      hide Bounded, ApplyTransition;
    }
  }

  lemma EditKeepsGrants(s: State, sr: SeqRecord)
    requires Bounded(s) && sr.record.op.Edit?
    ensures ApplyEdit(s, sr).grants == s.grants
  {
  }

  lemma ResolveKeepsGrants(s: State, r: Record)
    requires Bounded(s) && r.op.CommentResolve?
    ensures ApplyResolve(s, r).grants == s.grants
  {
  }

  lemma GrantStep(s: State, sr: SeqRecord)
    requires Bounded(s)
    ensures var t := Step(s, sr);
      if IssuesGrant(sr.record) then t.grants == s.grants + [NewGrant(sr)] else |t.grants| == |s.grants|
  {
    var n := Note(s, sr.record);
    assert Step(s, sr) == Apply(n, sr) && n.grants == s.grants;
    if sr.record.op.GrantIssue? {
      assert Apply(n, sr) == ApplyIssue(n, sr);
      hide Bounded, KeepsGraph;
    } else if sr.record.op.GrantRevoke? {
      assert Apply(n, sr) == ApplyRevoke(n, sr);
      hide Challenged;
    } else {
      hide Apply;
      KeepsGrants(n, sr);
    }
  }

  /** A fold holds as many elements as its start and its log make. */
  lemma {:induction false} CountsAgree(s: State, tail: seq<SeqRecord>)
    requires Bounded(s)
    ensures var t, c := FoldFrom(s, tail), Count(tail);
      && |t.contributions| == |s.contributions| + c.talk && |t.attachments| == |s.attachments| + c.files
      && |t.workItems| == |s.workItems| + c.items && |t.grants| == |s.grants| + c.grants
  {
    if |tail| > 0 {
      var n := |tail| - 1;
      CountsAgree(s, tail[..n]);
      var u := FoldFrom(s, tail[..n]);
      hide Step, IsTalk, OpensItem, IssuesGrant;
      TalkStep(u, tail[n]);
      AttachmentsStep(u, tail[n]);
      ItemStep(u, tail[n]);
      GrantStep(u, tail[n]);
    }
  }

  /** Splits a fold at its `k`-th operation. */
  lemma FoldAt(s: State, tail: seq<SeqRecord>, k: nat)
    requires Bounded(s) && k < |tail|
    ensures FoldFrom(s, tail) == FoldFrom(Step(FoldFrom(s, tail[..k]), tail[k]), tail[k + 1..])
  {
    hide Step, FoldFrom;
    assert tail == tail[..k] + [tail[k]] + tail[k + 1..];
    FoldFromConcat(s, tail[..k] + [tail[k]], tail[k + 1..]);
    FoldFromAppend(s, tail[..k], tail[k]);
  }

  // ----- what an element says of the operation that made it

  ghost predicate Utters(sr: SeqRecord, c: Contribution) {
    && c.opId == sr.record.id && c.author == sr.record.author && c.ts == sr.record.ts && c.streamSeq == sr.streamSeq
    && c.sig == "" && !c.dangling
    && match sr.record.op
       case TurnPost(body, mentions, authority) =>
         && c.kind == Turn && c.anchor == "" && c.authority == authority
         && (c.edits == [] ==> c.body == body && c.mentions == mentions)
       case CommentAdd(reply, body, mentions, anchor) =>
         && c.kind == (if reply then Reply else Comment) && c.anchor == anchor && c.authority.None?
         && (c.edits == [] ==> c.body == body && c.mentions == mentions)
       case _ => false
  }

  ghost predicate Files(sr: SeqRecord, a: Attachment) {
    && a.opId == sr.record.id && a.author == sr.record.author && a.ts == sr.record.ts && a.streamSeq == sr.streamSeq
    && a.sig == "" && !a.dangling
    && match sr.record.op
       case AttachmentAdd(fileName, blob, digest, size, contentType, anchor) =>
         && a.name == fileName && a.blob == blob && a.digest == digest && a.size == size
         && a.contentType == contentType && a.anchor == anchor
       case _ => false
  }

  ghost predicate Opens(sr: SeqRecord, w: WorkItem) {
    && w.id == sr.record.id && w.author == sr.record.author && w.ts == sr.record.ts && w.streamSeq == sr.streamSeq
    && w.sig == ""
    && match sr.record.op
       case WorkOpen(_, title, body, mentions) => w.title == title && w.body == body && w.mentions == mentions
       case _ => false
  }

  ghost predicate Issues(sr: SeqRecord, g: Grant) {
    && g.id == sr.record.id && g.granter == sr.record.author && g.ts == sr.record.ts && g.streamSeq == sr.streamSeq
    && g.sig == ""
    && match sr.record.op
       case GrantIssue(_, grantee, scope, expires) => g.grantee == grantee && g.scope == scope && g.expires == expires
       case _ => false
  }

  lemma TalkMade(sr: SeqRecord, c: Contribution)
    requires IsTalk(sr.record) && ContributionGrows(NewTalk(sr), c)
    ensures Utters(sr, c)
  {
  }

  lemma FileMade(sr: SeqRecord, a: Attachment)
    requires sr.record.op.AttachmentAdd? && AttachmentGrows(NewAttachment(sr), a)
    ensures Files(sr, a)
  {
  }

  lemma ItemMade(sr: SeqRecord, w: WorkItem)
    requires sr.record.op.WorkOpen? && WorkGrows(NewWorkItem(sr), w)
    ensures Opens(sr, w)
  {
  }

  lemma GrantMade(sr: SeqRecord, g: Grant)
    requires sr.record.op.GrantIssue? && GrantGrows(NewGrant(sr), g)
    ensures Issues(sr, g)
  {
  }

  lemma TalkStands(s: State, tail: seq<SeqRecord>, k: nat)
    requires Bounded(s) && k < |tail| && IsTalk(tail[k].record)
    ensures var t, j := FoldFrom(s, tail), |s.contributions| + Count(tail[..k]).talk;
      j < |t.contributions| && ContributionGrows(NewTalk(tail[k]), t.contributions[j])
  {
    var u := FoldFrom(s, tail[..k]);
    hide *;
    CountsAgree(s, tail[..k]);
    TalkStep(u, tail[k]);
    FoldAt(s, tail, k);
    ElementsArePermanent(Step(u, tail[k]), tail[k + 1..]);
    ContributionStays(Step(u, tail[k]), FoldFrom(s, tail), |u.contributions|);
  }

  /** Every turn, comment and reply in the log has its element, at the place its order gives it, by its author, of its
      time, kind and anchor, and with its words unless edited; only edits and a resolution may since have changed it. */
  lemma EveryTalkStands(s: State, tail: seq<SeqRecord>, k: nat)
    requires Bounded(s) && k < |tail| && IsTalk(tail[k].record)
    ensures var t, j := FoldFrom(s, tail), |s.contributions| + Count(tail[..k]).talk;
      && j < |t.contributions| && ContributionGrows(NewTalk(tail[k]), t.contributions[j])
      && Utters(tail[k], t.contributions[j])
  {
    var t, j := FoldFrom(s, tail), |s.contributions| + Count(tail[..k]).talk;
    hide *;
    TalkStands(s, tail, k);
    TalkMade(tail[k], t.contributions[j]);
  }

  lemma ContributionStays(s: State, t: State, j: nat)
    requires Grows(s, t) && j < |s.contributions|
    ensures j < |t.contributions| && ContributionGrows(s.contributions[j], t.contributions[j])
  {
    hide ContributionGrows, AttachmentGrows, WorkGrows, GrantGrows;
  }

  lemma OtherStays(s: State, t: State, j: nat)
    requires Grows(s, t)
    ensures j < |s.attachments| ==> j < |t.attachments| && AttachmentGrows(s.attachments[j], t.attachments[j])
    ensures j < |s.workItems| ==> j < |t.workItems| && WorkGrows(s.workItems[j], t.workItems[j])
    ensures j < |s.grants| ==> j < |t.grants| && GrantGrows(s.grants[j], t.grants[j])
  {
    hide ContributionGrows, AttachmentGrows, WorkGrows, GrantGrows;
  }

  lemma FileStands(s: State, tail: seq<SeqRecord>, k: nat)
    requires Bounded(s) && k < |tail| && tail[k].record.op.AttachmentAdd?
    ensures var t, j := FoldFrom(s, tail), |s.attachments| + Count(tail[..k]).files;
      j < |t.attachments| && AttachmentGrows(NewAttachment(tail[k]), t.attachments[j])
  {
    hide *;
    var u := FoldFrom(s, tail[..k]);
    CountsAgree(s, tail[..k]);
    AttachmentsStep(u, tail[k]);
    FoldAt(s, tail, k);
    ElementsArePermanent(Step(u, tail[k]), tail[k + 1..]);
    OtherStays(Step(u, tail[k]), FoldFrom(s, tail), |u.attachments|);
  }

  /** So has every attachment.add its attachment. */
  lemma EveryFileStands(s: State, tail: seq<SeqRecord>, k: nat)
    requires Bounded(s) && k < |tail| && tail[k].record.op.AttachmentAdd?
    ensures var t, j := FoldFrom(s, tail), |s.attachments| + Count(tail[..k]).files;
      && j < |t.attachments| && AttachmentGrows(NewAttachment(tail[k]), t.attachments[j])
      && Files(tail[k], t.attachments[j])
  {
    var t, j := FoldFrom(s, tail), |s.attachments| + Count(tail[..k]).files;
    hide *;
    FileStands(s, tail, k);
    FileMade(tail[k], t.attachments[j]);
  }

  lemma ItemStands(s: State, tail: seq<SeqRecord>, k: nat)
    requires Bounded(s) && k < |tail| && OpensItem(tail[k].record)
    ensures var t, j := FoldFrom(s, tail), |s.workItems| + Count(tail[..k]).items;
      j < |t.workItems| && WorkGrows(NewWorkItem(tail[k]), t.workItems[j])
  {
    OpensMeans(tail[k].record);
    hide *;
    var u := FoldFrom(s, tail[..k]);
    CountsAgree(s, tail[..k]);
    ItemStep(u, tail[k]);
    FoldAt(s, tail, k);
    ElementsArePermanent(Step(u, tail[k]), tail[k + 1..]);
    OtherStays(Step(u, tail[k]), FoldFrom(s, tail), |u.workItems|);
  }

  /** So has every well-formed work.open its item. */
  lemma EveryItemStands(s: State, tail: seq<SeqRecord>, k: nat)
    requires Bounded(s) && k < |tail| && OpensItem(tail[k].record)
    ensures var t, j := FoldFrom(s, tail), |s.workItems| + Count(tail[..k]).items;
      && j < |t.workItems| && WorkGrows(NewWorkItem(tail[k]), t.workItems[j])
      && Opens(tail[k], t.workItems[j])
  {
    var t, j := FoldFrom(s, tail), |s.workItems| + Count(tail[..k]).items;
    OpensMeans(tail[k].record);
    hide *;
    ItemStands(s, tail, k);
    ItemMade(tail[k], t.workItems[j]);
  }

  lemma GrantStands(s: State, tail: seq<SeqRecord>, k: nat)
    requires Bounded(s) && k < |tail| && IssuesGrant(tail[k].record)
    ensures var t, j := FoldFrom(s, tail), |s.grants| + Count(tail[..k]).grants;
      j < |t.grants| && GrantGrows(NewGrant(tail[k]), t.grants[j])
  {
    OpensMeans(tail[k].record);
    hide *;
    var u := FoldFrom(s, tail[..k]);
    CountsAgree(s, tail[..k]);
    GrantStep(u, tail[k]);
    FoldAt(s, tail, k);
    ElementsArePermanent(Step(u, tail[k]), tail[k + 1..]);
    OtherStays(Step(u, tail[k]), FoldFrom(s, tail), |u.grants|);
  }

  /** And so has every well-formed grant. */
  lemma EveryGrantStands(s: State, tail: seq<SeqRecord>, k: nat)
    requires Bounded(s) && k < |tail| && IssuesGrant(tail[k].record)
    ensures var t, j := FoldFrom(s, tail), |s.grants| + Count(tail[..k]).grants;
      && j < |t.grants| && GrantGrows(NewGrant(tail[k]), t.grants[j])
      && Issues(tail[k], t.grants[j])
  {
    var t, j := FoldFrom(s, tail), |s.grants| + Count(tail[..k]).grants;
    OpensMeans(tail[k].record);
    hide *;
    GrantStands(s, tail, k);
    GrantMade(tail[k], t.grants[j]);
  }

  lemma OpensMeans(r: Record)
    ensures OpensItem(r) ==> r.op.WorkOpen?
    ensures IssuesGrant(r) ==> r.op.GrantIssue?
  {
  }

  // ----- who removed, who resolved

  /** A well-formed removal of the attachment at `i`, which is known by now. */
  predicate Withdraws(s: State, r: Record, i: nat) {
    && r.op.AttachmentRemove? && r.op.readable && r.op.target.Some? && r.op.target.value != ""
    && r.op.target.value in s.attIdx && s.attIdx[r.op.target.value] == i
  }

  /** A well-formed resolution of the comment or reply at `i`, named by its own id or any edit of it. */
  predicate Settles(s: State, r: Record, i: nat) {
    && r.op.CommentResolve? && r.op.readable && r.op.target.Some? && r.op.target.value != ""
    && r.op.target.value in s.editTarget && s.editTarget[r.op.target.value] == i
    && i < |s.contributions| && !s.contributions[i].kind.Turn?
  }

  /** The first operation of the log that removes the attachment at `i`. */
  function FirstRemoval(s: State, tail: seq<SeqRecord>, i: nat): (k: Option<nat>)
    requires Bounded(s)
    ensures k.Some? ==> k.value < |tail|
  {
    if |tail| == 0 then None
    else
      var n := |tail| - 1;
      match FirstRemoval(s, tail[..n], i)
      case Some(k) => Some(k)
      case None => if Withdraws(FoldFrom(s, tail[..n]), tail[n].record, i) then Some(n) else None
  }

  /** The first operation of the log that resolves the comment at `i`. */
  function FirstResolution(s: State, tail: seq<SeqRecord>, i: nat): (k: Option<nat>)
    requires Bounded(s)
    ensures k.Some? ==> k.value < |tail|
  {
    if |tail| == 0 then None
    else
      var n := |tail| - 1;
      match FirstResolution(s, tail[..n], i)
      case Some(k) => Some(k)
      case None => if Settles(FoldFrom(s, tail[..n]), tail[n].record, i) then Some(n) else None
  }

  lemma {:induction false} FirstRemovalIsFirst(s: State, tail: seq<SeqRecord>, i: nat, k: nat)
    requires Bounded(s) && k < |tail|
    ensures FirstRemoval(s, tail, i) == Some(k) <==>
      Withdraws(FoldFrom(s, tail[..k]), tail[k].record, i) && FirstRemoval(s, tail[..k], i).None?
  {
    hide FoldFrom, Withdraws;
    var n := |tail| - 1;
    if k < n {
      FirstRemovalIsFirst(s, tail[..n], i, k);
      assert tail[..n][..k] == tail[..k];
    }
  }

  ghost predicate RemovedBy(a: Attachment, r: Record) {
    a.removed && a.removedBy == r.author && a.removedTs == r.ts
  }

  /** What one operation does to the mark of attachment `i`. */
  lemma RemovalStep(s: State, sr: SeqRecord, i: nat)
    requires Bounded(s) && i < |s.attachments|
    ensures i < |Step(s, sr).attachments|
    ensures var a, b := s.attachments[i], Step(s, sr).attachments[i];
      if a.removed || !Withdraws(s, sr.record, i) then b == a else RemovedBy(b, sr.record)
  {
    var n, op := Note(s, sr.record), sr.record.op;
    assert Step(s, sr) == Apply(n, sr) && n.attachments == s.attachments && n.attIdx == s.attIdx;
    ApplyArms(n, sr);
    hide Apply, Step, Note, ApplyEdit, ApplyResolve, KeepsGraph;
    if op.AttachmentRemove? {
      if TargetOf(op).Some? && TargetOf(op).value in n.attIdx {
        var j := n.attIdx[TargetOf(op).value];
        assert j < |n.attachments|;
        hide Bounded;
        if n.attachments[j].removed {}
      }
    } else if op.TurnPost? || op.CommentAdd? || op.AttachmentAdd? {
      hide Bounded;
    } else if op.Edit? {
      EditKeepsFiles(n, sr);
    } else if op.CommentResolve? {
      ResolveKeepsFiles(n, sr.record);
    } else {
      KeepsConversation(n, sr);
    }
  }

  lemma FilesMove(s: State, sr: SeqRecord)
    requires Bounded(s)
    ensures var t := Step(s, sr);
      || |t.attachments| == |s.attachments|
      || (|t.attachments| == |s.attachments| + 1 && !t.attachments[|s.attachments|].removed
         && !sr.record.op.AttachmentRemove?)
  {
    hide Step;
    AttachmentsStep(s, sr);
  }

  lemma WithdrawsKnown(s: State, r: Record, i: nat)
    requires Bounded(s) && Withdraws(s, r, i)
    ensures i < |s.attachments| && r.op.AttachmentRemove?
  {
    hide TargetOf;
  }

  /** Only what is known is removed. */
  lemma {:induction false} RemovalNeedsFile(s: State, tail: seq<SeqRecord>, i: nat)
    requires Bounded(s) && FirstRemoval(s, tail, i).Some?
    ensures i < |FoldFrom(s, tail).attachments|
  {
    var n := |tail| - 1;
    var u := FoldFrom(s, tail[..n]);
    FilesMove(u, tail[n]);
    if FirstRemoval(s, tail[..n], i).Some? {
      hide Step, Withdraws;
      RemovalNeedsFile(s, tail[..n], i);
    } else {
      hide Step;
      WithdrawsKnown(u, tail[n].record, i);
    }
  }

  ghost predicate WasRemoved(s: State, i: nat) {
    i < |s.attachments| && s.attachments[i].removed
  }

  /** The mark of attachment `i`, told by the start and the first removal. */
  ghost predicate MarkTold(s: State, tail: seq<SeqRecord>, i: nat, a: Attachment)
    requires Bounded(s)
  {
    var first := FirstRemoval(s, tail, i);
    if WasRemoved(s, i) then a == s.attachments[i]
    else if first.Some? then RemovedBy(a, tail[first.value].record)
    else if i < |s.attachments| then a == s.attachments[i]
    else !a.removed && a.removedBy == "" && a.removedTs == 0
  }

  /** One more operation, for an attachment already there. */
  lemma MarkToldStep(s: State, tail: seq<SeqRecord>, i: nat, a: Attachment, b: Attachment)
    requires Bounded(s) && |tail| > 0 && MarkTold(s, tail[..|tail| - 1], i, a)
    requires var n := |tail| - 1;
      if a.removed || !Withdraws(FoldFrom(s, tail[..n]), tail[n].record, i) then b == a
      else RemovedBy(b, tail[n].record)
    ensures MarkTold(s, tail, i, b)
  {
    var n := |tail| - 1;
    hide FoldFrom, Withdraws;
    var sooner := FirstRemoval(s, tail[..n], i);
    if sooner.Some? { assert tail[..n][sooner.value] == tail[sooner.value]; }
  }

  lemma MarkToldNew(s: State, tail: seq<SeqRecord>, i: nat, b: Attachment)
    requires Bounded(s) && |tail| > 0 && !b.removed && b.removedBy == "" && b.removedTs == 0 && i >= |s.attachments|
    requires FirstRemoval(s, tail[..|tail| - 1], i).None?
    requires !Withdraws(FoldFrom(s, tail[..|tail| - 1]), tail[|tail| - 1].record, i)
    ensures MarkTold(s, tail, i, b)
  {
    hide FoldFrom, Withdraws;
  }

  lemma FoldLast(s: State, tail: seq<SeqRecord>)
    requires Bounded(s) && |tail| > 0
    ensures FoldFrom(s, tail) == Step(FoldFrom(s, tail[..|tail| - 1]), tail[|tail| - 1])
  {
    hide Step;
  }

  /** An attachment is marked removed exactly when it was to begin with or the log removes it; and the mark is the first
      such removal's, whatever follows. */
  lemma {:induction false} RemovedExactly(s: State, tail: seq<SeqRecord>, i: nat)
    requires Bounded(s) && i < |FoldFrom(s, tail).attachments|
    ensures MarkTold(s, tail, i, FoldFrom(s, tail).attachments[i])
  {
    hide *;
    if |tail| == 0 {
      MarkUntouched(s, i);
    } else {
      var n := |tail| - 1;
      var u := FoldFrom(s, tail[..n]);
      FoldLast(s, tail);
      AttachmentsStep(u, tail[n]);
      FilesOnlyGrow(s, tail[..n]);
      if i < |u.attachments| {
        RemovedExactly(s, tail[..n], i);
        RemovalStep(u, tail[n], i);
        MarkToldStep(s, tail, i, u.attachments[i], FoldFrom(s, tail).attachments[i]);
      } else {
        NewFileStands(tail[n]);
        NotThere(s, i);
        if FirstRemoval(s, tail[..n], i).Some? { RemovalNeedsFile(s, tail[..n], i); }
        if Withdraws(u, tail[n].record, i) { WithdrawsKnown(u, tail[n].record, i); }
        MarkToldNew(s, tail, i, FoldFrom(s, tail).attachments[i]);
      }
    }
  }

  lemma MarkUntouched(s: State, i: nat)
    requires Bounded(s)
    ensures FoldFrom(s, []) == s
    ensures i < |s.attachments| ==> MarkTold(s, [], i, s.attachments[i])
  {
    hide RemovedBy;
  }

  lemma NotThere(s: State, i: nat)
    ensures i >= |s.attachments| ==> !WasRemoved(s, i)
  {
  }

  lemma NewFileStands(sr: SeqRecord)
    ensures sr.record.op.AttachmentAdd? ==>
      !NewAttachment(sr).removed && NewAttachment(sr).removedBy == "" && NewAttachment(sr).removedTs == 0
  {
  }

  lemma FilesOnlyGrow(s: State, tail: seq<SeqRecord>)
    requires Bounded(s)
    ensures |s.attachments| <= |FoldFrom(s, tail).attachments|
  {
    hide FoldFrom;
    CountsAgree(s, tail);
  }

  // ----- who resolved

  ghost predicate ResolvedBy(c: Contribution, r: Record) {
    c.resolved && c.resolvedBy == r.author && c.resolvedTs == r.ts
  }

  ghost predicate SameMark(c: Contribution, d: Contribution) {
    d.resolved == c.resolved && d.resolvedBy == c.resolvedBy && d.resolvedTs == c.resolvedTs && d.kind == c.kind
  }

  /** What one operation does to the mark of contribution `i`. */
  lemma ResolutionStep(s: State, sr: SeqRecord, i: nat)
    requires Bounded(s) && i < |s.contributions|
    ensures i < |Step(s, sr).contributions|
    ensures var c, d := s.contributions[i], Step(s, sr).contributions[i];
      if c.resolved || !Settles(s, sr.record, i) then SameMark(c, d) else ResolvedBy(d, sr.record) && d.kind == c.kind
  {
    var n, op := Note(s, sr.record), sr.record.op;
    assert Step(s, sr) == Apply(n, sr) && n.contributions == s.contributions && n.editTarget == s.editTarget;
    if op.TurnPost? || op.CommentAdd? {
      hide Bounded, KeepsGraph;
    } else if op.CommentResolve? {
      ApplyIsEdit(n, sr);
      hide Apply;
      ResolveMarks(n, sr.record, i);
    } else if op.Edit? {
      ApplyIsEdit(n, sr);
      hide Apply;
      EditMarks(n, sr, i);
    } else if op.AttachmentAdd? || op.AttachmentRemove? {
      hide Apply;
      ApplyIsFile(n, sr);
    } else {
      hide Apply;
      KeepsConversation(n, sr);
    }
  }

  lemma EditMarks(s: State, sr: SeqRecord, i: nat)
    requires Bounded(s) && sr.record.op.Edit? && i < |s.contributions|
    ensures i < |ApplyEdit(s, sr).contributions| && SameMark(s.contributions[i], ApplyEdit(s, sr).contributions[i])
  {
    var a := sr.record.op.editAnchor;
    hide KeepsGraph;
    if a in s.editTarget {
      var j := s.editTarget[a];
      assert j < |s.contributions|;
      hide Bounded;
      if s.contributions[j].author == sr.record.author {}
    }
  }

  lemma ResolveMarks(s: State, r: Record, i: nat)
    requires Bounded(s) && r.op.CommentResolve? && i < |s.contributions|
    ensures i < |ApplyResolve(s, r).contributions|
    ensures var c, d := s.contributions[i], ApplyResolve(s, r).contributions[i];
      if c.resolved || !Settles(s, r, i) then SameMark(c, d) else ResolvedBy(d, r) && d.kind == c.kind
  {
    hide KeepsGraph;
    if TargetOf(r.op).Some? && TargetOf(r.op).value in s.editTarget {
      var j := s.editTarget[TargetOf(r.op).value];
      assert j < |s.contributions|;
      hide Bounded;
      if s.contributions[j].kind.Turn? {} else if s.contributions[j].resolved {}
    }
  }

  lemma SettlesKnown(s: State, r: Record, i: nat)
    requires Settles(s, r, i)
    ensures i < |s.contributions|
  {
    hide TargetOf;
  }

  lemma {:induction false} ResolutionNeedsTalk(s: State, tail: seq<SeqRecord>, i: nat)
    requires Bounded(s) && FirstResolution(s, tail, i).Some?
    ensures i < |FoldFrom(s, tail).contributions|
  {
    var n := |tail| - 1;
    var u := FoldFrom(s, tail[..n]);
    hide Step, Settles, IsTalk;
    TalkStep(u, tail[n]);
    if FirstResolution(s, tail[..n], i).Some? {
      ResolutionNeedsTalk(s, tail[..n], i);
    } else {
      SettlesKnown(u, tail[n].record, i);
    }
  }

  ghost predicate WasResolved(s: State, i: nat) {
    i < |s.contributions| && s.contributions[i].resolved
  }

  lemma NewTalkUnresolved(sr: SeqRecord)
    requires IsTalk(sr.record)
    ensures !NewTalk(sr).resolved && NewTalk(sr).resolvedBy == "" && NewTalk(sr).resolvedTs == 0
  {
  }

  /** The resolution mark of contribution `i`, told by the start and the first resolution. */
  ghost predicate ResolutionTold(s: State, tail: seq<SeqRecord>, i: nat, c: Contribution)
    requires Bounded(s)
  {
    var first := FirstResolution(s, tail, i);
    if WasResolved(s, i) then SameMark(s.contributions[i], c)
    else if first.Some? then ResolvedBy(c, tail[first.value].record) && !c.kind.Turn?
    else if i < |s.contributions| then SameMark(s.contributions[i], c)
    else !c.resolved && c.resolvedBy == "" && c.resolvedTs == 0
  }

  lemma ResolutionToldStep(s: State, tail: seq<SeqRecord>, i: nat, c: Contribution, d: Contribution)
    requires Bounded(s) && |tail| > 0 && ResolutionTold(s, tail[..|tail| - 1], i, c)
    requires var n := |tail| - 1; var u := FoldFrom(s, tail[..n]);
      && (if c.resolved || !Settles(u, tail[n].record, i) then SameMark(c, d)
          else ResolvedBy(d, tail[n].record) && d.kind == c.kind)
      && (Settles(u, tail[n].record, i) ==> !c.kind.Turn?)
    ensures ResolutionTold(s, tail, i, d)
  {
    var n := |tail| - 1;
    hide FoldFrom, Settles;
    var sooner := FirstResolution(s, tail[..n], i);
    if sooner.Some? { assert tail[..n][sooner.value] == tail[sooner.value]; }
  }

  lemma ResolutionToldNew(s: State, tail: seq<SeqRecord>, i: nat, c: Contribution)
    requires Bounded(s) && |tail| > 0 && !c.resolved && c.resolvedBy == "" && c.resolvedTs == 0
    requires i >= |s.contributions| && FirstResolution(s, tail[..|tail| - 1], i).None?
    requires !Settles(FoldFrom(s, tail[..|tail| - 1]), tail[|tail| - 1].record, i)
    ensures ResolutionTold(s, tail, i, c)
  {
    hide FoldFrom, Settles;
  }

  lemma ResolutionUntouched(s: State, i: nat)
    requires Bounded(s)
    ensures FoldFrom(s, []) == s
    ensures i < |s.contributions| ==> ResolutionTold(s, [], i, s.contributions[i])
  {
    hide ResolvedBy;
  }

  lemma NotSaid(s: State, i: nat)
    ensures i >= |s.contributions| ==> !WasResolved(s, i)
  {
  }

  /** A contribution is marked resolved exactly when it was to begin with or the log resolves it; a turn never is; and
      the mark is the first such resolution's, whatever follows. */
  lemma {:induction false} ResolvedExactly(s: State, tail: seq<SeqRecord>, i: nat)
    requires Bounded(s) && i < |FoldFrom(s, tail).contributions|
    ensures ResolutionTold(s, tail, i, FoldFrom(s, tail).contributions[i])
  {
    hide *;
    if |tail| == 0 {
      ResolutionUntouched(s, i);
    } else {
      var n := |tail| - 1;
      var u := FoldFrom(s, tail[..n]);
      FoldLast(s, tail);
      TalkStep(u, tail[n]);
      TalkOnlyGrows(s, tail[..n]);
      if i < |u.contributions| {
        ResolvedExactly(s, tail[..n], i);
        ResolutionStep(u, tail[n], i);
        SettlesNotTurn(u, tail[n].record, i);
        ResolutionToldStep(s, tail, i, u.contributions[i], FoldFrom(s, tail).contributions[i]);
      } else {
        NewTalkUnresolved(tail[n]);
        NotSaid(s, i);
        if FirstResolution(s, tail[..n], i).Some? { ResolutionNeedsTalk(s, tail[..n], i); }
        if Settles(u, tail[n].record, i) { SettlesKnown(u, tail[n].record, i); }
        ResolutionToldNew(s, tail, i, FoldFrom(s, tail).contributions[i]);
      }
    }
  }

  lemma SettlesNotTurn(s: State, r: Record, i: nat)
    requires i < |s.contributions|
    ensures Settles(s, r, i) ==> !s.contributions[i].kind.Turn?
  {
    hide TargetOf;
  }

  lemma TalkOnlyGrows(s: State, tail: seq<SeqRecord>)
    requires Bounded(s)
    ensures |s.contributions| <= |FoldFrom(s, tail).contributions|
  {
    hide FoldFrom;
    CountsAgree(s, tail);
  }
}
