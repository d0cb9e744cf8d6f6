/** The fold of a topic's op-log as a function of the log (topic/view.go, `apply`). */
module Fold {
  import opened Prelude
  import opened Vocabulary

  /** The variables `apply` carries from one record to the next. */
  datatype State = State(
    baselineState: Option<string>, lifecycle: Lifecycle,
    contributions: seq<Contribution>, attachments: seq<Attachment>, workItems: seq<WorkItem>, grants: seq<Grant>,
    seen: set<OpId>, referenced: set<OpId>,
    editTarget: map<OpId, nat>, attIdx: map<OpId, nat>, workIdx: map<OpId, nat>, grantIdx: map<OpId, nat>,
    contentOps: nat, warnings: nat)

  /** No index map points outside its slice: the fold never indexes out of range. */
  ghost predicate Bounded(s: State) {
    && (forall x :: x in s.editTarget ==> s.editTarget[x] < |s.contributions|)
    && (forall x :: x in s.attIdx ==> s.attIdx[x] < |s.attachments|)
    && (forall x :: x in s.workIdx ==> s.workIdx[x] < |s.workItems|)
    && (forall x :: x in s.grantIdx ==> s.grantIdx[x] < |s.grants|)
  }

  /** Applying an operation's content leaves the graph and the workbench state alone. */
  ghost predicate KeepsGraph(s: State, t: State) {
    t.seen == s.seen && t.referenced == s.referenced && t.baselineState == s.baselineState
  }

  // ----- the baseline

  function BakedOf(p: BaselinePayload): BakedState {
    match p.baked
    case None => BakedState([], [], [], [], Unset)
    case Some(b) => b
  }

  /** Every op-id a baked conversation keeps resolvable. */
  function BakedIds(b: BakedState): set<OpId> {
    IndexOf(ContributionChains(b.contributions)).Keys
    + IndexOf(AttachmentChains(b.attachments)).Keys
    + IndexOf(WorkChains(b.workItems)).Keys + WorkEventIds(b.workItems)
    + IndexOf(GrantChains(b.grants)).Keys + GrantEventIds(b.grants)
  }

  /** A recorded frontier names the leaves the topic continues from, and the baseline op is then none of them. */
  function Seed(r: Record): (s: State)
    requires r.op.Baseline?
    ensures Bounded(s)
  {
    var p := r.op.baseline;
    var b := BakedOf(p);
    var ids := BakedIds(b);
    var seen := {r.id} + ids;
    var referenced := Elems(r.parents) + ids;
    var continued := p.frontier != [];
    State(
      if r.op.readable then p.state else None,
      if b.lifecycle.Unset? then Proposed else b.lifecycle,
      b.contributions, b.attachments, b.workItems, b.grants,
      if continued then seen + Elems(p.frontier) else seen,
      if continued then referenced + {r.id} - Elems(p.frontier) else referenced,
      IndexOf(ContributionChains(b.contributions)), IndexOf(AttachmentChains(b.attachments)),
      IndexOf(WorkChains(b.workItems)), IndexOf(GrantChains(b.grants)),
      0, 0)
  }

  /** The graph a baseline starts from. */
  lemma SeedGraph(r: Record)
    requires r.op.Baseline?
    ensures var f, ids := Elems(r.op.baseline.frontier), BakedIds(BakedOf(r.op.baseline));
      && Seed(r).seen == {r.id} + ids + f
      && Seed(r).referenced == if r.op.baseline.frontier == [] then Elems(r.parents) + ids
         else Elems(r.parents) + ids + {r.id} - f
  {
    hide BakedIds, IndexOf;
    ElemsEmpty(r.op.baseline.frontier);
  }

  // ----- one operation

  function Note(s: State, r: Record): State {
    s.(seen := s.seen + {r.id}, referenced := s.referenced + Elems(r.parents))
  }

  function Warn(s: State): State {
    s.(warnings := s.warnings + 1)
  }

  /** One applied content op: it counts towards proposed-to-active and wakes a dormant topic. */
  function Content(s: State): State {
    s.(contentOps := s.contentOps + 1, lifecycle := if s.lifecycle.Dormant? then Active else s.lifecycle)
  }

  function AddContribution(s: State, c: Contribution): (t: State)
    requires Bounded(s)
    ensures Bounded(t) && KeepsGraph(s, t)
  {
    s.(editTarget := s.editTarget[c.opId := |s.contributions|], contributions := s.contributions + [c])
  }

  function NewTurn(sr: SeqRecord): Contribution
    requires sr.record.op.TurnPost?
  {
    var r := sr.record;
    Contribution(r.id, r.author, r.ts, Turn, r.op.turnBody, r.op.turnMentions, "", false, false, "", 0, [],
                 r.op.authority, "", sr.streamSeq)
  }

  function NewComment(sr: SeqRecord): Contribution
    requires sr.record.op.CommentAdd?
  {
    var r := sr.record;
    Contribution(r.id, r.author, r.ts, if r.op.reply then Reply else Comment, r.op.commentBody, r.op.commentMentions,
                 r.op.commentAnchor, false, false, "", 0, [], None, "", sr.streamSeq)
  }

  function Edited(c: Contribution, sr: SeqRecord): Contribution
    requires sr.record.op.Edit?
  {
    var r := sr.record;
    c.(body := r.op.editBody, mentions := r.op.editMentions,
       edits := c.edits + [EditStamp(r.id, r.author, r.ts, "", sr.streamSeq)])
  }

  function ApplyEdit(s: State, sr: SeqRecord): (t: State)
    requires Bounded(s) && sr.record.op.Edit?
    ensures Bounded(t) && KeepsGraph(s, t)
  {
    var r := sr.record;
    if !r.op.readable || IsBlank(r.op.editBody) || r.op.editAnchor == "" then Warn(s)
    else if r.op.editAnchor !in s.editTarget then Warn(s)
    else
      var idx := s.editTarget[r.op.editAnchor];
      if s.contributions[idx].author != r.author then Warn(s)
      else
        Content(s).(contributions := s.contributions[idx := Edited(s.contributions[idx], sr)],
                    editTarget := s.editTarget[r.id := idx])
  }

  /** The op a reference payload is about, None when the payload is malformed. */
  function TargetOf(op: Op): Option<OpId>
    requires op.CommentResolve? || op.AttachmentRemove? || op.WorkRef? || op.GrantRevoke?
  {
    if !op.readable || op.target.None? || op.target.value == "" then None else op.target
  }

  function ApplyResolve(s: State, r: Record): (t: State)
    requires Bounded(s) && r.op.CommentResolve?
    ensures Bounded(t) && KeepsGraph(s, t)
  {
    match TargetOf(r.op)
    case None => Warn(s)
    case Some(t) =>
      if t !in s.editTarget || s.contributions[s.editTarget[t]].kind.Turn? then Warn(s)
      else
        var idx := s.editTarget[t];
        var c := s.contributions[idx];
        if c.resolved then s
        else
          var settled := c.(resolved := true, resolvedBy := r.author, resolvedTs := r.ts);
          Content(s).(contributions := s.contributions[idx := settled])
  }

  function NewAttachment(sr: SeqRecord): Attachment
    requires sr.record.op.AttachmentAdd?
  {
    var r := sr.record;
    Attachment(r.id, r.author, r.ts, r.op.fileName, r.op.blob, r.op.digest, r.op.size, r.op.contentType,
               r.op.fileAnchor, false, false, "", 0, "", sr.streamSeq)
  }

  function AddAttachment(s: State, a: Attachment): (t: State)
    requires Bounded(s)
    ensures Bounded(t) && KeepsGraph(s, t)
  {
    s.(attIdx := s.attIdx[a.opId := |s.attachments|], attachments := s.attachments + [a])
  }

  function ApplyRemove(s: State, r: Record): (t: State)
    requires Bounded(s) && r.op.AttachmentRemove?
    ensures Bounded(t) && KeepsGraph(s, t)
  {
    match TargetOf(r.op)
    case None => Warn(s)
    case Some(t) =>
      if t !in s.attIdx then Warn(s)
      else
        var idx := s.attIdx[t];
        var a := s.attachments[idx];
        if a.removed then s
        else
          var withdrawn := a.(removed := true, removedBy := r.author, removedTs := r.ts);
          Content(s).(attachments := s.attachments[idx := withdrawn])
  }

  function NewWorkItem(sr: SeqRecord): WorkItem
    requires sr.record.op.WorkOpen?
  {
    var r := sr.record;
    WorkItem(r.id, r.author, r.ts, r.op.title, r.op.workBody, r.op.workMentions, Open, "", [], "", sr.streamSeq)
  }

  function ApplyOpen(s: State, sr: SeqRecord): (t: State)
    requires Bounded(s) && sr.record.op.WorkOpen?
    ensures Bounded(t) && KeepsGraph(s, t)
  {
    if !sr.record.op.readable || IsBlank(sr.record.op.title) then Warn(s)
    else
      Content(s).(workIdx := s.workIdx[sr.record.id := |s.workItems|], workItems := s.workItems + [NewWorkItem(sr)])
  }

  /** Whether the work state machine accepts an act in a status. */
  predicate Accepts(status: WorkStatus, act: WorkAct) {
    match act
    case Claim => status.Open?
    case Finish => !status.Done?
    case Abandon => status.Claimed?
  }

  function Touched(w: WorkItem, sr: SeqRecord): WorkItem
    requires sr.record.op.WorkRef?
  {
    var r := sr.record;
    var act := r.op.act;
    var moves := Accepts(w.status, act);
    var ev := WorkEvent(r.id, act, r.author, r.ts, !moves, "", sr.streamSeq);
    var moved := if !moves then w else
                 match act
                 case Claim => w.(status := Claimed, owner := r.author)
                 case Finish => w.(status := Done)
                 case Abandon => w.(status := Open, owner := "");
    moved.(timeline := w.timeline + [ev])
  }

  function ApplyWorkRef(s: State, sr: SeqRecord): (t: State)
    requires Bounded(s) && sr.record.op.WorkRef?
    ensures Bounded(t) && KeepsGraph(s, t)
  {
    match TargetOf(sr.record.op)
    case None => Warn(s)
    case Some(t) =>
      if t !in s.workIdx then Warn(Content(s))
      else
        var idx := s.workIdx[t];
        Content(s).(workItems := s.workItems[idx := Touched(s.workItems[idx], sr)])
  }

  function NewGrant(sr: SeqRecord): Grant
    requires sr.record.op.GrantIssue?
  {
    var r := sr.record;
    Grant(r.id, r.author, r.op.grantee, r.op.scope, r.ts, r.op.expires, Standing, [], "", sr.streamSeq)
  }

  function ApplyIssue(s: State, sr: SeqRecord): (t: State)
    requires Bounded(s) && sr.record.op.GrantIssue?
    ensures Bounded(t) && KeepsGraph(s, t)
  {
    var op := sr.record.op;
    if !op.readable || IsBlank(op.grantee) || IsBlank(op.scope) then Warn(s)
    else
      Content(s).(grantIdx := s.grantIdx[sr.record.id := |s.grants|], grants := s.grants + [NewGrant(sr)])
  }

  function Challenged(g: Grant, sr: SeqRecord): Grant
    requires sr.record.op.GrantRevoke?
  {
    var r := sr.record;
    var voided := r.author != g.granter || !g.status.Standing?;
    g.(status := if voided then g.status else Revoked,
       timeline := g.timeline + [GrantEvent(r.id, r.author, r.ts, voided, "", sr.streamSeq)])
  }

  function ApplyRevoke(s: State, sr: SeqRecord): (t: State)
    requires Bounded(s) && sr.record.op.GrantRevoke?
    ensures Bounded(t) && KeepsGraph(s, t)
  {
    match TargetOf(sr.record.op)
    case None => Warn(s)
    case Some(t) =>
      if t !in s.grantIdx then Warn(Content(s))
      else
        var idx := s.grantIdx[t];
        Content(s).(grants := s.grants[idx := Challenged(s.grants[idx], sr)])
  }

  function ApplyTransition(s: State, op: Op): (t: State)
    requires Bounded(s) && op.LifeTransition?
    ensures t == s.(lifecycle := t.lifecycle, warnings := t.warnings)
    ensures t.lifecycle.Unset? ==> s.lifecycle.Unset?
  {
    if s.lifecycle.Archived? then Warn(s)
    else if !op.readable then s
    else
      match op.to
      case Closed => s.(lifecycle := Closed)
      case Archived => s.(lifecycle := Archived)
      case Dormant => if s.lifecycle.Closed? then Warn(s) else s.(lifecycle := Dormant)
      case _ => s
  }

  /** A baseline in the middle of the log: a checkpoint of content the view already holds. */
  function ApplyCheckpoint(s: State, r: Record): State
    requires r.op.Baseline?
  {
    var leaves := if r.op.readable then Elems(r.op.baseline.frontier) else {};
    Warn(s).(seen := s.seen + leaves, referenced := s.referenced + {r.id} - leaves)
  }

  function Apply(s: State, sr: SeqRecord): (t: State)
    requires Bounded(s)
    ensures Bounded(t) && (sr.record.op.Baseline? || KeepsGraph(s, t))
  {
    match sr.record.op
    case TurnPost(_, _, _) => AddContribution(Content(s), NewTurn(sr))
    case CommentAdd(_, _, _, _) => AddContribution(Content(s), NewComment(sr))
    case Edit(_, _, _, _) => ApplyEdit(s, sr)
    case CommentResolve(_, _) => ApplyResolve(s, sr.record)
    case AttachmentAdd(_, _, _, _, _, _) => AddAttachment(Content(s), NewAttachment(sr))
    case AttachmentRemove(_, _) => ApplyRemove(s, sr.record)
    case WorkOpen(_, _, _, _) => ApplyOpen(s, sr)
    case WorkRef(_, _, _) => ApplyWorkRef(s, sr)
    case GrantIssue(_, _, _, _) => ApplyIssue(s, sr)
    case GrantRevoke(_, _) => ApplyRevoke(s, sr)
    case LifeTransition(_, _) => ApplyTransition(s, sr.record.op)
    case Baseline(_, _) => ApplyCheckpoint(s, sr.record)
    case Unknown(_) => Warn(s)
  }

  /** Which arm of the fold an operation takes. */
  lemma ApplyArms(s: State, sr: SeqRecord)
    requires Bounded(s)
    ensures var op, t := sr.record.op, Apply(s, sr);
      && (op.TurnPost? ==> t == AddContribution(Content(s), NewTurn(sr)))
      && (op.CommentAdd? ==> t == AddContribution(Content(s), NewComment(sr)))
      && (op.Edit? ==> t == ApplyEdit(s, sr)) && (op.CommentResolve? ==> t == ApplyResolve(s, sr.record))
      && (op.AttachmentAdd? ==> t == AddAttachment(Content(s), NewAttachment(sr)))
      && (op.AttachmentRemove? ==> t == ApplyRemove(s, sr.record))
      && (op.WorkOpen? ==> t == ApplyOpen(s, sr)) && (op.WorkRef? ==> t == ApplyWorkRef(s, sr))
      && (op.GrantIssue? ==> t == ApplyIssue(s, sr)) && (op.GrantRevoke? ==> t == ApplyRevoke(s, sr))
      && (op.LifeTransition? ==> t == ApplyTransition(s, op)) && (op.Baseline? ==> t == ApplyCheckpoint(s, sr.record))
      && (op.Unknown? ==> t == Warn(s))
  {
    hide ApplyEdit, ApplyResolve, ApplyRemove, ApplyOpen, ApplyWorkRef, ApplyIssue, ApplyRevoke, ApplyTransition,
        ApplyCheckpoint, AddContribution, AddAttachment, NewTurn, NewComment, NewAttachment, KeepsGraph;
  }

  function Step(s: State, sr: SeqRecord): (t: State)
    requires Bounded(s)
    ensures Bounded(t)
  {
    Apply(Note(s, sr.record), sr)
  }

  // ----- the whole log

  predicate StartsWithBaseline(log: seq<SeqRecord>) {
    |log| > 0 && log[0].record.op.Baseline?
  }

  function FoldFrom(s: State, tail: seq<SeqRecord>): (t: State)
    requires Bounded(s)
    ensures Bounded(t)
  {
    if |tail| == 0 then s
    else Step(FoldFrom(s, tail[..|tail| - 1]), tail[|tail| - 1])
  }

  function FoldLog(log: seq<SeqRecord>): (s: State)
    requires StartsWithBaseline(log)
    ensures Bounded(s)
  {
    FoldFrom(Seed(log[0].record), log[1..])
  }

  lemma FoldFromAppend(s: State, tail: seq<SeqRecord>, sr: SeqRecord)
    requires Bounded(s)
    ensures FoldFrom(s, tail + [sr]) == Step(FoldFrom(s, tail), sr)
  {
    assert (tail + [sr])[..|tail|] == tail;
  }

  lemma FoldFromNothing(s: State)
    requires Bounded(s)
    ensures FoldFrom(s, []) == s
  {
  }

  lemma {:induction false} FoldFromConcat(s: State, t: seq<SeqRecord>, u: seq<SeqRecord>)
    requires Bounded(s)
    ensures FoldFrom(s, t + u) == FoldFrom(FoldFrom(s, t), u)
  {
    hide Step, Bounded;
    if |u| == 0 {
      assert t + u == t;
    } else {
      var n := |u| - 1;
      FoldFromConcat(s, t, u[..n]);
      FoldFromAppend(s, t + u[..n], u[n]);
      assert t + u == (t + u[..n]) + [u[n]];
    }
  }

  /** The fold of a longer log continues the fold of the shorter one. */
  lemma FoldLogConcat(log: seq<SeqRecord>, tail: seq<SeqRecord>)
    requires StartsWithBaseline(log)
    ensures FoldLog(log + tail) == FoldFrom(FoldLog(log), tail)
  {
    assert (log + tail)[1..] == log[1..] + tail;
    FoldFromConcat(Seed(log[0].record), log[1..], tail);
  }

  // ----- what the reader is handed

  /** Closed and archived win; otherwise a topic is active once there is content. */
  function SettledLifecycle(s: State): Lifecycle {
    if s.lifecycle.Proposed? && s.contentOps > 0 then Active else s.lifecycle
  }

  function Leaves(s: State): set<OpId> {
    s.seen - s.referenced
  }

  function MarkContributions(cs: seq<Contribution>, seen: set<OpId>): seq<Contribution> {
    seq(|cs|, i requires 0 <= i < |cs| =>
      cs[i].(dangling := cs[i].dangling || (cs[i].anchor != "" && cs[i].anchor !in seen)))
  }

  function MarkAttachments(xs: seq<Attachment>, seen: set<OpId>): seq<Attachment> {
    seq(|xs|, i requires 0 <= i < |xs| =>
      xs[i].(dangling := xs[i].dangling || (xs[i].anchor != "" && xs[i].anchor !in seen)))
  }

  function MalformedView(path: string, why: Malformation): MaterializedTopic {
    MaterializedTopic(path, None, 0, "", Proposed, [], [], [], [], [], Some(why), 0)
  }

  /** The view of a log: what `apply` returns. */
  function View(path: string, log: seq<SeqRecord>): MaterializedTopic {
    if |log| == 0 then MalformedView(path, NoBaseline)
    else if !log[0].record.op.Baseline? then MalformedView(path, NotABaseline)
    else
      var s := FoldLog(log);
      MaterializedTopic(
        path, s.baselineState, log[0].record.ts, log[0].record.id, SettledLifecycle(s),
        MarkContributions(s.contributions, s.seen), MarkAttachments(s.attachments, s.seen), s.workItems, s.grants,
        SortIds(Leaves(s)), None, s.warnings)
  }

  lemma {:induction false} StateKept(s: State, tail: seq<SeqRecord>)
    requires Bounded(s)
    ensures FoldFrom(s, tail).baselineState == s.baselineState
  {
    if |tail| > 0 {
      var n := |tail| - 1;
      StateKept(s, tail[..n]);
      var u := FoldFrom(s, tail[..n]);
      assert Step(u, tail[n]) == Apply(Note(u, tail[n].record), tail[n]);
      if tail[n].record.op.Baseline? {
        ApplyArms(Note(u, tail[n].record), tail[n]);
      }
      hide Apply, Step;
    }
  }

  /** What a view says of the baseline it starts from, or of there being none. */
  ghost predicate Heads(path: string, log: seq<SeqRecord>, mt: MaterializedTopic) {
    && mt.path == path
    && if |log| > 0 && log[0].record.op.Baseline?
       then
         var r := log[0].record;
         && mt.malformed.None? && mt.baselineId == r.id && mt.baselineTs == r.ts
         && mt.baselineState == if r.op.readable then r.op.baseline.state else None
       else
         && mt.malformed == Some(if |log| == 0 then NoBaseline else NotABaseline) && mt.lifecycle == Proposed
         && mt.contributions == [] && mt.attachments == [] && mt.workItems == [] && mt.grants == []
         && mt.frontier == [] && mt.baselineState.None?
  }

  lemma ViewHeads(path: string, log: seq<SeqRecord>)
    ensures Heads(path, log, View(path, log))
  {
    if StartsWithBaseline(log) {
      StateKept(Seed(log[0].record), log[1..]);
      hide FoldFrom, SettledLifecycle, BakedIds, IndexOf;
    }
  }
}
