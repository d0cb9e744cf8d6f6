/** The lifecycle a log ends in, read off the marks its operations make (topic/view.go). */
module LifecycleRules {
  import opened Prelude
  import opened Vocabulary
  import opened Fold

  /** What one operation means to the lifecycle. */
  datatype Mark = Work | ToDormant | ToClosed | ToArchived | Quiet

  /** Whether an operation is applied as content. A work reference or revocation counts as soon as it names a target,
      known or not. */
  predicate CountsAsContent(s: State, r: Record)
    requires Bounded(s)
  {
    match r.op
    case TurnPost(_, _, _) => true
    case CommentAdd(_, _, _, _) => true
    case Edit(readable, body, _, anchor) =>
      readable && !IsBlank(body) && anchor != "" && anchor in s.editTarget
        && s.contributions[s.editTarget[anchor]].author == r.author
    case CommentResolve(_, _) =>
      TargetOf(r.op).Some? && TargetOf(r.op).value in s.editTarget
      && var c := s.contributions[s.editTarget[TargetOf(r.op).value]]; !c.kind.Turn? && !c.resolved
    case AttachmentAdd(_, _, _, _, _, _) => true
    case AttachmentRemove(_, _) =>
      TargetOf(r.op).Some? && TargetOf(r.op).value in s.attIdx && !s.attachments[s.attIdx[TargetOf(r.op).value]].removed
    case WorkOpen(readable, title, _, _) => readable && !IsBlank(title)
    case WorkRef(_, _, _) => TargetOf(r.op).Some?
    case GrantIssue(readable, grantee, scope, _) => readable && !IsBlank(grantee) && !IsBlank(scope)
    case GrantRevoke(_, _) => TargetOf(r.op).Some?
    case _ => false
  }

  function MarkOf(s: State, r: Record): Mark
    requires Bounded(s)
  {
    match r.op
    case LifeTransition(true, Closed) => ToClosed
    case LifeTransition(true, Archived) => ToArchived
    case LifeTransition(true, Dormant) => ToDormant
    case _ => if CountsAsContent(s, r) then Work else Quiet
  }

  function MarksOf(s: State, tail: seq<SeqRecord>): (marks: seq<Mark>)
    requires Bounded(s)
    ensures |marks| == |tail|
  {
    if |tail| == 0 then []
    else
      var n := |tail| - 1;
      MarksOf(s, tail[..n]) + [MarkOf(Note(FoldFrom(s, tail[..n]), tail[n].record), tail[n].record)]
  }

  /** One mark moves the settled lifecycle. */
  function Move(l: Lifecycle, m: Mark): Lifecycle {
    match m
    case Work => if l.Dormant? || l.Proposed? then Active else l
    case ToDormant => if l.Archived? || l.Closed? then l else Dormant
    case ToClosed => if l.Archived? then l else Closed
    case ToArchived => Archived
    case Quiet => l
  }

  // ----- the fold moves the lifecycle by the marks alone

  lemma ContentMoves(s: State, sr: SeqRecord)
    requires Bounded(s) && !sr.record.op.LifeTransition?
    ensures var t := Apply(s, sr);
      if CountsAsContent(s, sr.record) then t.lifecycle == Content(s).lifecycle && t.contentOps == s.contentOps + 1
      else t.lifecycle == s.lifecycle && t.contentOps == s.contentOps
  {
    var op := sr.record.op;
    if op.TurnPost? || op.CommentAdd? || op.Edit? || op.CommentResolve? {
      TalkMoves(s, sr);
    } else {
      WorkbenchMoves(s, sr);
    }
  }

  lemma TalkMoves(s: State, sr: SeqRecord)
    requires Bounded(s)
    requires var op := sr.record.op; op.TurnPost? || op.CommentAdd? || op.Edit? || op.CommentResolve?
    ensures var t := Apply(s, sr);
      if CountsAsContent(s, sr.record) then t.lifecycle == Content(s).lifecycle && t.contentOps == s.contentOps + 1
      else t.lifecycle == s.lifecycle && t.contentOps == s.contentOps
  {
    var r := sr.record;
    hide KeepsGraph, Edited;
    match r.op
    case TurnPost(_, _, _) =>
    case CommentAdd(_, _, _, _) =>
    case Edit(readable, body, _, anchor) =>
      if !readable || IsBlank(body) || anchor == "" {
      } else if anchor in s.editTarget {
        var c := s.contributions[s.editTarget[anchor]];
        hide Bounded;
        if c.author != r.author {}
      }
    case CommentResolve(_, _) =>
      if TargetOf(r.op).Some? {
        if TargetOf(r.op).value in s.editTarget {
          var c := s.contributions[s.editTarget[TargetOf(r.op).value]];
          hide Bounded;
          if c.kind.Turn? {} else if c.resolved {}
        }
      }
  }

  lemma WorkbenchMoves(s: State, sr: SeqRecord)
    requires Bounded(s)
    requires var op := sr.record.op;
      !(op.TurnPost? || op.CommentAdd? || op.Edit? || op.CommentResolve? || op.LifeTransition?)
    ensures var t := Apply(s, sr);
      if CountsAsContent(s, sr.record) then t.lifecycle == Content(s).lifecycle && t.contentOps == s.contentOps + 1
      else t.lifecycle == s.lifecycle && t.contentOps == s.contentOps
  {
    var r := sr.record;
    hide Bounded, ApplyRemove, ApplyOpen, ApplyWorkRef, ApplyIssue, ApplyRevoke;
    match r.op
    case AttachmentAdd(_, _, _, _, _, _) =>
    case AttachmentRemove(_, _) => RemoveMoves(s, r);
    case WorkOpen(_, _, _, _) => OpenMoves(s, sr);
    case WorkRef(_, _, _) => WorkRefMoves(s, sr);
    case GrantIssue(_, _, _, _) => IssueMoves(s, sr);
    case GrantRevoke(_, _) => RevokeMoves(s, sr);
    case Baseline(_, _) =>
    case Unknown(_) =>
  }

  ghost predicate MovesAs(s: State, t: State, content: bool) {
    t.lifecycle == (if content then Content(s).lifecycle else s.lifecycle)
      && t.contentOps == s.contentOps + if content then 1 else 0
  }

  lemma RemoveMoves(s: State, r: Record)
    requires Bounded(s) && r.op.AttachmentRemove?
    ensures MovesAs(s, ApplyRemove(s, r), CountsAsContent(s, r))
  {
    hide KeepsGraph;
    if TargetOf(r.op).Some? {
      if TargetOf(r.op).value in s.attIdx {
        var a := s.attachments[s.attIdx[TargetOf(r.op).value]];
        hide Bounded;
        if a.removed {}
      }
    }
  }

  lemma OpenMoves(s: State, sr: SeqRecord)
    requires Bounded(s) && sr.record.op.WorkOpen?
    ensures MovesAs(s, ApplyOpen(s, sr), CountsAsContent(s, sr.record))
  {
    hide Bounded, KeepsGraph;
    if !sr.record.op.readable || IsBlank(sr.record.op.title) {}
  }

  lemma WorkRefMoves(s: State, sr: SeqRecord)
    requires Bounded(s) && sr.record.op.WorkRef?
    ensures MovesAs(s, ApplyWorkRef(s, sr), CountsAsContent(s, sr.record))
  {
    hide KeepsGraph, Touched;
    if TargetOf(sr.record.op).Some? { if TargetOf(sr.record.op).value in s.workIdx {} }
  }

  lemma IssueMoves(s: State, sr: SeqRecord)
    requires Bounded(s) && sr.record.op.GrantIssue?
    ensures MovesAs(s, ApplyIssue(s, sr), CountsAsContent(s, sr.record))
  {
    hide Bounded, KeepsGraph;
    if !sr.record.op.readable || IsBlank(sr.record.op.grantee) || IsBlank(sr.record.op.scope) {}
  }

  lemma RevokeMoves(s: State, sr: SeqRecord)
    requires Bounded(s) && sr.record.op.GrantRevoke?
    ensures MovesAs(s, ApplyRevoke(s, sr), CountsAsContent(s, sr.record))
  {
    hide KeepsGraph, Challenged;
    if TargetOf(sr.record.op).Some? { if TargetOf(sr.record.op).value in s.grantIdx {} }
  }

  lemma TransitionMoves(s: State, r: Record)
    requires Bounded(s) && r.op.LifeTransition?
    ensures SettledLifecycle(ApplyTransition(s, r.op)) == Move(SettledLifecycle(s), MarkOf(s, r))
  {
    hide Bounded;
    if s.lifecycle.Archived? || !r.op.readable {
    } else {
      match r.op.to
      case Closed =>
      case Archived =>
      case Dormant => if s.lifecycle.Closed? {}
      case _ =>
    }
  }

  lemma LifecycleStep(s: State, sr: SeqRecord)
    requires Bounded(s)
    ensures SettledLifecycle(Step(s, sr)) == Move(SettledLifecycle(s), MarkOf(Note(s, sr.record), sr.record))
  {
    var n := Note(s, sr.record);
    assert SettledLifecycle(n) == SettledLifecycle(s);
    if sr.record.op.LifeTransition? {
      hide SettledLifecycle, Move, MarkOf, ApplyTransition, Note;
      TransitionMoves(n, sr.record);
    } else {
      hide Apply, CountsAsContent, Note;
      ContentMoves(n, sr);
    }
  }

  // ----- the closed form

  /** Dormant since the last dormant mark, or from the start: no content woke the topic after it. */
  ghost predicate Resting(start: Lifecycle, marks: seq<Mark>) {
    (start.Dormant? && Work !in marks)
    || exists d: nat :: RestsSince(marks, d)
  }

  ghost predicate RestsSince(marks: seq<Mark>, d: nat) {
    d < |marks| && marks[d] == ToDormant && forall k :: d < k < |marks| ==> marks[k] != Work
  }

  ghost function ClosedForm(start: Lifecycle, marks: seq<Mark>): Lifecycle {
    if start.Archived? || ToArchived in marks then Archived
    else if start.Closed? || ToClosed in marks then Closed
    else if Resting(start, marks) then Dormant
    else if (start.Undefined? || start.Unset?) && ToDormant !in marks then start
    else if start.Active? || Work in marks then Active
    else start
  }

  lemma ClosedFormStart(start: Lifecycle)
    ensures ClosedForm(start, []) == start
  {
  }

  lemma RestingAppend(start: Lifecycle, marks: seq<Mark>, m: Mark)
    ensures Resting(start, marks + [m]) <==> m == ToDormant || (m != Work && Resting(start, marks))
  {
    var more := marks + [m];
    assert more[|marks|] == m && forall x :: x in more <==> x in marks || x == m;
    assert m == ToDormant ==> RestsSince(more, |marks|);
    forall d: nat | d < |marks| ensures RestsSince(more, d) <==> RestsSince(marks, d) && m != Work {
      assert forall k :: 0 <= k < |marks| ==> more[k] == marks[k];
      if RestsSince(more, d) { assert more[|marks|] != Work; }
    }
    assert m != ToDormant ==> !RestsSince(more, |marks|);
    if m != Work && m != ToDormant && Resting(start, marks) && !(start.Dormant? && Work !in marks) {
      var d: nat :| RestsSince(marks, d);
      assert RestsSince(more, d);
    }
  }

  lemma ClosedFormAppend(start: Lifecycle, marks: seq<Mark>, m: Mark)
    ensures ClosedForm(start, marks + [m]) == Move(ClosedForm(start, marks), m)
  {
    RestingAppend(start, marks, m);
    assert forall x :: x in marks + [m] <==> x in marks || x == m;
    if ToDormant in marks && Work !in marks {
      var d :| 0 <= d < |marks| && marks[d] == ToDormant;
      assert RestsSince(marks, d);
    }
  }

  /** From any state the settled lifecycle is the closed form of the marks made since. */
  lemma {:induction false} LifecycleFrom(s: State, tail: seq<SeqRecord>)
    requires Bounded(s)
    ensures SettledLifecycle(FoldFrom(s, tail)) == ClosedForm(SettledLifecycle(s), MarksOf(s, tail))
  {
    hide SettledLifecycle, ClosedForm, Move, MarkOf, Step;
    if |tail| == 0 {
      ClosedFormStart(SettledLifecycle(s));
    } else {
      var n := |tail| - 1;
      LifecycleFrom(s, tail[..n]);
      LifecycleStep(FoldFrom(s, tail[..n]), tail[n]);
      ClosedFormAppend(SettledLifecycle(s), MarksOf(s, tail[..n]),
                       MarkOf(Note(FoldFrom(s, tail[..n]), tail[n].record), tail[n].record));
    }
  }

  /** Archived if ever archived, else closed if ever closed, else dormant if nothing woke it since the last dormant
      mark, else active if it has content or started active, else as it started. */
  lemma LifecycleClosedForm(path: string, log: seq<SeqRecord>)
    requires StartsWithBaseline(log)
    ensures View(path, log).lifecycle ==
            ClosedForm(SettledLifecycle(Seed(log[0].record)), MarksOf(Seed(log[0].record), log[1..]))
  {
    hide SettledLifecycle, ClosedForm, MarksOf, Seed;
    LifecycleFrom(Seed(log[0].record), log[1..]);
  }

  /** Archived is absorbing, and closed only ever becomes archived. */
  lemma TerminalStates(s: State, tail: seq<SeqRecord>)
    requires Bounded(s)
    ensures SettledLifecycle(s).Archived? ==> SettledLifecycle(FoldFrom(s, tail)).Archived?
    ensures SettledLifecycle(s).Closed? ==>
      SettledLifecycle(FoldFrom(s, tail)).Closed? || SettledLifecycle(FoldFrom(s, tail)).Archived?
  {
    hide SettledLifecycle, MarksOf, FoldFrom;
    LifecycleFrom(s, tail);
  }
}
