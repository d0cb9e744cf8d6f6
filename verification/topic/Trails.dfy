/** What trails tell: work items, grants and edits are determined by the events recorded on them
    (topic/view.go, the work, grant and edit arms). */
module Trails {
  import opened Prelude
  import opened Vocabulary
  import opened Fold
  import opened EssenceOfTopic
  import opened Compaction
  import opened Anchors

  // ----- a work item is its timeline

  datatype Bench = Bench(status: WorkStatus, owner: Persona)

  /** Where the non-void events of a timeline leave an item that starts open and unowned. */
  function Replay(events: seq<WorkEvent>): Bench {
    if |events| == 0 then Bench(Open, "")
    else
      Moved(Replay(events[..|events| - 1]), events[|events| - 1])
  }

  /** Status and owner are the replay's, and an event is void exactly when the state machine refused it at the time. */
  ghost predicate WorkOk(w: WorkItem) {
    && w.status == Replay(w.timeline).status && w.owner == Replay(w.timeline).owner
    && forall i :: 0 <= i < |w.timeline| ==>
       (w.timeline[i].voided <==> !Accepts(Replay(w.timeline[..i]).status, w.timeline[i].act))
  }

  function Moved(b: Bench, ev: WorkEvent): Bench {
    if ev.voided then b
    else match ev.act
         case Claim => Bench(Claimed, ev.author)
         case Finish => Bench(Done, b.owner)
         case Abandon => Bench(Open, "")
  }

  lemma ReplayAppend(es: seq<WorkEvent>, ev: WorkEvent)
    ensures Replay(es + [ev]) == Moved(Replay(es), ev)
  {
    assert (es + [ev])[..|es|] == es;
  }

  /** What a touch appends, and where it leaves the item. */
  lemma TouchedIs(w: WorkItem, sr: SeqRecord)
    requires sr.record.op.WorkRef?
    ensures var t := Touched(w, sr); var n := |w.timeline|;
      && |t.timeline| == n + 1 && t.timeline == w.timeline + [t.timeline[n]]
      && t.timeline[n].act == sr.record.op.act && (t.timeline[n].voided <==> !Accepts(w.status, sr.record.op.act))
      && Bench(t.status, t.owner) == Moved(Bench(w.status, w.owner), t.timeline[n])
  {
  }

  lemma TouchedOk(w: WorkItem, sr: SeqRecord)
    requires WorkOk(w) && sr.record.op.WorkRef?
    ensures WorkOk(Touched(w, sr))
  {
    TouchedIs(w, sr);
    var t, n := Touched(w, sr).timeline, |w.timeline|;
    hide Replay, Touched, Accepts, Moved;
    ReplayAppend(w.timeline, t[n]);
    forall i | 0 <= i < |t| ensures t[i].voided <==> !Accepts(Replay(t[..i]).status, t[i].act) {
      if i < n {
        assert t[i] == w.timeline[i] && t[..i] == w.timeline[..i];
      } else {
        assert t[..i] == w.timeline;
      }
    }
  }

  /** The acts of the events that were not void. */
  function Effective(events: seq<WorkEvent>): seq<WorkAct> {
    if |events| == 0 then []
    else Effective(events[..|events| - 1]) + if events[|events| - 1].voided then [] else [events[|events| - 1].act]
  }

  /** n times claimed and abandoned. */
  function Rounds(n: nat): seq<WorkAct> {
    if n == 0 then [] else Rounds(n - 1) + [Claim, Abandon]
  }

  /** What an item's effective history looks like in a given status. */
  ghost predicate Lawful(acts: seq<WorkAct>, status: WorkStatus) {
    exists n: nat :: LawfulAfter(acts, status, n)
  }

  ghost predicate LawfulAfter(acts: seq<WorkAct>, status: WorkStatus, n: nat) {
    match status
    case Open => acts == Rounds(n)
    case Claimed => acts == Rounds(n) + [Claim]
    case Done => acts == Rounds(n) + [Finish] || acts == Rounds(n) + [Claim, Finish]
  }

  /** In every item the effective events read (claim abandon)* and then nothing, claim, done, or claim done. */
  lemma {:induction false} EffectiveIsLawful(w: WorkItem, m: nat)
    requires WorkOk(w) && m <= |w.timeline|
    ensures Lawful(Effective(w.timeline[..m]), Replay(w.timeline[..m]).status)
  {
    var before, now := w.timeline[..m], w.timeline[..m];
    if m == 0 {
      assert LawfulAfter([], Open, 0);
    } else {
      before := w.timeline[..m - 1];
      EffectiveIsLawful(w, m - 1);
      assert now[..m - 1] == before;
      var ev := w.timeline[m - 1];
      var n: nat :| LawfulAfter(Effective(before), Replay(before).status, n);
      if ev.voided {
        assert Effective(now) == Effective(before);
        assert LawfulAfter(Effective(now), Replay(now).status, n);
      } else {
        assert Effective(now) == Effective(before) + [ev.act];
        match ev.act
        case Claim => assert LawfulAfter(Effective(now), Claimed, n);
        case Finish =>
          if Replay(before).status.Claimed? { assert Rounds(n) + [Claim] + [Finish] == Rounds(n) + [Claim, Finish]; }
          assert LawfulAfter(Effective(now), Done, n);
        case Abandon =>
          assert Rounds(n) + [Claim] + [Abandon] == Rounds(n) + [Claim, Abandon];
          assert LawfulAfter(Effective(now), Open, n + 1);
      }
    }
  }

  /** Every item ever shown has a lawful history, and its status says how that history ended. */
  lemma WorkHistory(w: WorkItem)
    requires WorkOk(w)
    ensures Lawful(Effective(w.timeline), w.status)
  {
    EffectiveIsLawful(w, |w.timeline|);
    assert w.timeline[..|w.timeline|] == w.timeline;
  }

  // ----- the rules of the bench, told by the acts that took effect

  /** What may take effect after `acts` did: a claim on an item nobody holds, a done once, an abandon of a claim. */
  predicate Allowed(acts: seq<WorkAct>, act: WorkAct) {
    match act
    case Claim => acts == [] || acts[|acts| - 1] == Abandon
    case Finish => Finish !in acts
    case Abandon => acts != [] && acts[|acts| - 1] == Claim
  }

  /** A claim that took effect and has not been abandoned since. */
  ghost predicate Holds(events: seq<WorkEvent>, j: nat) {
    && j < |events| && !events[j].voided && events[j].act == Claim
    && forall k :: j < k < |events| && !events[k].voided ==> events[k].act != Abandon
  }

  /** The status, told by what took effect last. */
  ghost predicate StatusTold(acts: seq<WorkAct>, status: WorkStatus) {
    && (status == Open <==> acts == [] || acts[|acts| - 1] == Abandon)
    && (status == Claimed <==> acts != [] && acts[|acts| - 1] == Claim)
    && (status == Done <==> Finish in acts)
  }

  /** The owner is whoever made the claim that stands. */
  ghost predicate OwnerTold(events: seq<WorkEvent>, b: Bench) {
    && (forall j: nat :: Holds(events, j) ==> b.owner == events[j].author)
    && ((forall j: nat :: !Holds(events, j)) ==> b.owner == "")
    && (b.status == Open ==> forall j: nat :: !Holds(events, j))
  }

  ghost predicate BenchTold(events: seq<WorkEvent>, b: Bench) {
    StatusTold(Effective(events), b.status) && OwnerTold(events, b)
  }

  lemma HoldsBefore(es: seq<WorkEvent>, ev: WorkEvent)
    ensures forall j: nat :: j < |es| ==>
      (Holds(es + [ev], j) <==> Holds(es, j) && (ev.voided || ev.act != Abandon))
    ensures Holds(es + [ev], |es|) <==> !ev.voided && ev.act == Claim
  {
    var all := es + [ev];
    forall j: nat | j < |es| ensures Holds(all, j) <==> Holds(es, j) && (ev.voided || ev.act != Abandon) {
      if Holds(all, j) {
        assert all[|es|] == ev;
        forall k | j < k < |es| && !es[k].voided ensures es[k].act != Abandon { assert all[k] == es[k]; }
      }
    }
  }

  lemma StatusMoves(acts: seq<WorkAct>, ev: WorkEvent, b: Bench)
    requires StatusTold(acts, b.status) && (ev.voided <==> !Accepts(b.status, ev.act))
    ensures StatusTold(acts + if ev.voided then [] else [ev.act], Moved(b, ev).status)
    ensures ev.voided <==> !Allowed(acts, ev.act)
  {
  }

  lemma OwnerMoves(es: seq<WorkEvent>, ev: WorkEvent, b: Bench)
    requires OwnerTold(es, b) && (ev.voided <==> !Accepts(b.status, ev.act))
    ensures OwnerTold(es + [ev], Moved(b, ev))
  {
    var all := es + [ev];
    HoldsBefore(es, ev);
    assert forall j: nat :: j < |es| ==> all[j] == es[j];
    forall j: nat ensures (Holds(all, j) ==> j <= |es|) && (Holds(es, j) ==> j < |es|) {}
    hide Holds;
  }

  lemma BenchMoves(es: seq<WorkEvent>, ev: WorkEvent, b: Bench)
    requires BenchTold(es, b) && (ev.voided <==> !Accepts(b.status, ev.act))
    ensures BenchTold(es + [ev], Moved(b, ev))
  {
    assert (es + [ev])[..|es|] == es;
    StatusMoves(Effective(es), ev, b);
    OwnerMoves(es, ev, b);
    hide StatusTold, OwnerTold, Moved, Accepts;
  }

  lemma {:induction false} BenchToldAt(w: WorkItem, m: nat)
    requires WorkOk(w) && m <= |w.timeline|
    ensures BenchTold(w.timeline[..m], Replay(w.timeline[..m]))
    ensures m < |w.timeline| ==>
      (w.timeline[m].voided <==> !Allowed(Effective(w.timeline[..m]), w.timeline[m].act))
  {
    var now := w.timeline[..m];
    if m == 0 {
      NoBench();
    } else {
      var before, ev := w.timeline[..m - 1], w.timeline[m - 1];
      BenchToldAt(w, m - 1);
      assert now == before + [ev];
      assert ev.voided <==> !Accepts(Replay(before).status, ev.act);
      hide BenchTold;
      ReplayAppend(before, ev);
      BenchMoves(before, ev, Replay(before));
    }
    if m < |w.timeline| { AllowedIs(now, Replay(now), w.timeline[m]); }
  }

  lemma NoBench()
    ensures BenchTold([], Replay([]))
  {
  }

  lemma AllowedIs(es: seq<WorkEvent>, b: Bench, ev: WorkEvent)
    requires BenchTold(es, b)
    ensures Accepts(b.status, ev.act) <==> Allowed(Effective(es), ev.act)
  {
    hide Effective, Holds;
  }

  /** The rules of the bench, for every item told by its timeline: an event is void exactly when what took effect before
      does not allow it, the status says what took effect last, and the owner is whoever made the claim that has not
      been abandoned. */
  lemma WorkRules(w: WorkItem)
    requires WorkOk(w)
    ensures forall i :: 0 <= i < |w.timeline| ==>
      (w.timeline[i].voided <==> !Allowed(Effective(w.timeline[..i]), w.timeline[i].act))
    ensures BenchTold(w.timeline, Bench(w.status, w.owner))
  {
    forall i | 0 <= i < |w.timeline|
      ensures w.timeline[i].voided <==> !Allowed(Effective(w.timeline[..i]), w.timeline[i].act) {
      BenchToldAt(w, i);
    }
    BenchToldAt(w, |w.timeline|);
    assert w.timeline[..|w.timeline|] == w.timeline;
  }

  // ----- a grant is its timeline

  /** At most one revocation took effect; it is the granter's, and the grant is revoked exactly when there is one. */
  ghost predicate GrantOk(g: Grant) {
    && (forall i :: 0 <= i < |g.timeline| && !g.timeline[i].voided ==> g.timeline[i].author == g.granter)
    && (forall i, j :: 0 <= i < j < |g.timeline| ==> g.timeline[i].voided || g.timeline[j].voided)
    && (g.status.Revoked? <==> exists i :: 0 <= i < |g.timeline| && !g.timeline[i].voided)
    && (forall i :: 0 <= i < |g.timeline| && g.timeline[i].voided && g.timeline[i].author == g.granter ==>
          exists j :: 0 <= j < i && !g.timeline[j].voided)
  }

  lemma ChallengedOk(g: Grant, sr: SeqRecord)
    requires GrantOk(g) && sr.record.op.GrantRevoke?
    ensures GrantOk(Challenged(g, sr))
  {
    var h := Challenged(g, sr);
    var n := |g.timeline|;
    assert forall i :: 0 <= i < n ==> h.timeline[i] == g.timeline[i];
    if g.status.Revoked? {
      var i :| 0 <= i < n && !g.timeline[i].voided;
      assert !h.timeline[i].voided;
    } else if sr.record.author == g.granter {
      assert !h.timeline[n].voided;
    }
    forall i | 0 <= i < |h.timeline| && h.timeline[i].voided && h.timeline[i].author == h.granter
      ensures exists j :: 0 <= j < i && !h.timeline[j].voided {
      if i < n {
        var j :| 0 <= j < i && !g.timeline[j].voided;
        assert !h.timeline[j].voided;
      }
    }
  }

  // ----- a contribution is its author's

  ghost predicate StampsOk(c: Contribution) {
    forall i :: 0 <= i < |c.edits| ==> c.edits[i].author == c.author
  }

  /** Everything a state holds is told by its own trail. */
  ghost predicate Consistent(s: State) {
    && (forall i :: 0 <= i < |s.workItems| ==> WorkOk(s.workItems[i]))
    && (forall i :: 0 <= i < |s.grants| ==> GrantOk(s.grants[i]))
    && (forall i :: 0 <= i < |s.contributions| ==> StampsOk(s.contributions[i]))
  }

  lemma ConsistentFrame(s: State, t: State)
    requires Consistent(s) && t.workItems == s.workItems && t.grants == s.grants && t.contributions == s.contributions
    ensures Consistent(t)
  {
    hide WorkOk, GrantOk, StampsOk;
  }

  lemma ConsistentWork(s: State, t: State, i: nat, w: WorkItem)
    requires Consistent(s) && t.grants == s.grants && t.contributions == s.contributions && WorkOk(w)
    requires t.workItems == s.workItems + [w] || (i < |s.workItems| && t.workItems == s.workItems[i := w])
    ensures Consistent(t)
  {
    hide WorkOk, GrantOk, StampsOk;
  }

  lemma ConsistentGrant(s: State, t: State, i: nat, g: Grant)
    requires Consistent(s) && t.workItems == s.workItems && t.contributions == s.contributions && GrantOk(g)
    requires t.grants == s.grants + [g] || (i < |s.grants| && t.grants == s.grants[i := g])
    ensures Consistent(t)
  {
    hide WorkOk, GrantOk, StampsOk;
  }

  lemma ConsistentContribution(s: State, t: State, i: nat, c: Contribution)
    requires Consistent(s) && t.workItems == s.workItems && t.grants == s.grants && StampsOk(c)
    requires t.contributions == s.contributions + [c]
      || (i < |s.contributions| && t.contributions == s.contributions[i := c])
    ensures Consistent(t)
  {
    hide WorkOk, GrantOk, StampsOk;
  }

  lemma ConsistentEdit(s: State, sr: SeqRecord)
    requires Bounded(s) && Consistent(s) && sr.record.op.Edit?
    ensures Consistent(ApplyEdit(s, sr))
  {
    var r, t := sr.record, ApplyEdit(s, sr);
    if !r.op.readable || IsBlank(r.op.editBody) || r.op.editAnchor == "" || r.op.editAnchor !in s.editTarget {
      hide Consistent; ConsistentFrame(s, t);
    } else {
      var i := s.editTarget[r.op.editAnchor];
      var c := s.contributions[i];
      assert StampsOk(c);
      if c.author == r.author {
        assert StampsOk(Edited(c, sr));
        hide Consistent, Bounded, StampsOk;
        ConsistentContribution(s, t, i, Edited(c, sr));
      } else {
        hide Consistent; ConsistentFrame(s, t);
      }
    }
  }

  lemma ConsistentResolve(s: State, r: Record)
    requires Bounded(s) && Consistent(s) && r.op.CommentResolve?
    ensures Consistent(ApplyResolve(s, r))
  {
    var t := ApplyResolve(s, r);
    if TargetOf(r.op).Some? && TargetOf(r.op).value in s.editTarget
      && !s.contributions[s.editTarget[TargetOf(r.op).value]].kind.Turn? {
      var i := s.editTarget[TargetOf(r.op).value];
      var c := s.contributions[i];
      if c.resolved {} else {
        var d := c.(resolved := true, resolvedBy := r.author, resolvedTs := r.ts);
        assert StampsOk(c) && StampsOk(d);
        hide Consistent, Bounded, StampsOk;
        ConsistentContribution(s, t, i, d);
      }
    } else {
      hide Consistent; ConsistentFrame(s, t);
    }
  }

  lemma ConsistentWorkRef(s: State, sr: SeqRecord)
    requires Bounded(s) && Consistent(s) && sr.record.op.WorkRef?
    ensures Consistent(ApplyWorkRef(s, sr))
  {
    var t := ApplyWorkRef(s, sr);
    if TargetOf(sr.record.op).Some? && TargetOf(sr.record.op).value in s.workIdx {
      var i := s.workIdx[TargetOf(sr.record.op).value];
      assert WorkOk(s.workItems[i]);
      TouchedOk(s.workItems[i], sr);
      hide Consistent, Bounded, WorkOk, Touched;
      ConsistentWork(s, t, i, Touched(s.workItems[i], sr));
    } else {
      hide Consistent; ConsistentFrame(s, t);
    }
  }

  lemma ConsistentRevoke(s: State, sr: SeqRecord)
    requires Bounded(s) && Consistent(s) && sr.record.op.GrantRevoke?
    ensures Consistent(ApplyRevoke(s, sr))
  {
    var t := ApplyRevoke(s, sr);
    if TargetOf(sr.record.op).Some? && TargetOf(sr.record.op).value in s.grantIdx {
      var i := s.grantIdx[TargetOf(sr.record.op).value];
      assert GrantOk(s.grants[i]);
      ChallengedOk(s.grants[i], sr);
      hide Consistent, Bounded, GrantOk, Challenged;
      ConsistentGrant(s, t, i, Challenged(s.grants[i], sr));
    } else {
      hide Consistent; ConsistentFrame(s, t);
    }
  }

  lemma ConsistentOpen(s: State, sr: SeqRecord)
    requires Bounded(s) && Consistent(s) && sr.record.op.WorkOpen?
    ensures Consistent(ApplyOpen(s, sr))
  {
    var t := ApplyOpen(s, sr);
    hide Bounded;
    if !sr.record.op.readable || IsBlank(sr.record.op.title) {
      hide Consistent; ConsistentFrame(s, t);
    } else {
      assert WorkOk(NewWorkItem(sr));
      hide Consistent, WorkOk;
      ConsistentWork(s, t, 0, NewWorkItem(sr));
    }
  }

  lemma ConsistentIssue(s: State, sr: SeqRecord)
    requires Bounded(s) && Consistent(s) && sr.record.op.GrantIssue?
    ensures Consistent(ApplyIssue(s, sr))
  {
    var t := ApplyIssue(s, sr);
    hide Bounded;
    if !sr.record.op.readable || IsBlank(sr.record.op.grantee) || IsBlank(sr.record.op.scope) {
      hide Consistent; ConsistentFrame(s, t);
    } else {
      assert GrantOk(NewGrant(sr));
      hide Consistent, GrantOk;
      ConsistentGrant(s, t, 0, NewGrant(sr));
    }
  }

  lemma RemoveFrame(s: State, r: Record)
    requires Bounded(s) && r.op.AttachmentRemove?
    ensures var t := ApplyRemove(s, r);
      t.workItems == s.workItems && t.grants == s.grants && t.contributions == s.contributions
  {
  }

  lemma ConsistentTalk(n: State, sr: SeqRecord)
    requires Bounded(n) && Consistent(n)
    requires var op := sr.record.op; op.TurnPost? || op.CommentAdd? || op.Edit? || op.CommentResolve?
    ensures Consistent(Apply(n, sr))
  {
    NewStamps(sr);
    hide Consistent, ApplyEdit, ApplyResolve, KeepsGraph, Bounded, StampsOk;
    match sr.record.op
    case TurnPost(_, _, _) => ConsistentContribution(n, Apply(n, sr), 0, NewTurn(sr));
    case CommentAdd(_, _, _, _) => ConsistentContribution(n, Apply(n, sr), 0, NewComment(sr));
    case Edit(_, _, _, _) => ConsistentEdit(n, sr);
    case CommentResolve(_, _) => ConsistentResolve(n, sr.record);
  }

  lemma ConsistentBench(n: State, sr: SeqRecord)
    requires Bounded(n) && Consistent(n)
    requires var op := sr.record.op; !(op.TurnPost? || op.CommentAdd? || op.Edit? || op.CommentResolve?)
    ensures Consistent(Apply(n, sr))
  {
    hide Consistent, ApplyRemove, ApplyOpen, ApplyWorkRef, ApplyIssue, ApplyRevoke, ApplyTransition, KeepsGraph,
        Bounded;
    match sr.record.op
    case AttachmentAdd(_, _, _, _, _, _) => ConsistentFrame(n, Apply(n, sr));
    case AttachmentRemove(_, _) => RemoveFrame(n, sr.record); ConsistentFrame(n, Apply(n, sr));
    case WorkOpen(_, _, _, _) => ConsistentOpen(n, sr);
    case WorkRef(_, _, _) => ConsistentWorkRef(n, sr);
    case GrantIssue(_, _, _, _) => ConsistentIssue(n, sr);
    case GrantRevoke(_, _) => ConsistentRevoke(n, sr);
    case LifeTransition(_, _) => ConsistentFrame(n, Apply(n, sr));
    case Baseline(_, _) => ConsistentFrame(n, Apply(n, sr));
    case Unknown(_) => ConsistentFrame(n, Apply(n, sr));
  }

  /** Whatever operation arrives, everything stays told by its own trail. */
  lemma ConsistentStep(s: State, sr: SeqRecord)
    requires Bounded(s) && Consistent(s)
    ensures Consistent(Step(s, sr))
  {
    var n, op := Note(s, sr.record), sr.record.op;
    ConsistentFrame(s, n);
    hide Consistent, Apply, Bounded, Note;
    if op.TurnPost? || op.CommentAdd? || op.Edit? || op.CommentResolve? {
      ConsistentTalk(n, sr);
    } else {
      ConsistentBench(n, sr);
    }
  }

  lemma NewStamps(sr: SeqRecord)
    ensures sr.record.op.TurnPost? ==> StampsOk(NewTurn(sr))
    ensures sr.record.op.CommentAdd? ==> StampsOk(NewComment(sr))
  {
  }

  /** From a consistent start, every fold is consistent. */
  lemma {:induction false} TrailsTell(s: State, tail: seq<SeqRecord>)
    requires Bounded(s) && Consistent(s)
    ensures Consistent(FoldFrom(s, tail))
  {
    if |tail| > 0 {
      hide Consistent, Step;
      TrailsTell(s, tail[..|tail| - 1]);
      ConsistentStep(FoldFrom(s, tail[..|tail| - 1]), tail[|tail| - 1]);
    }
  }

  // ----- rollups bake the same story

  lemma {:induction false} ReplayClean(events: seq<WorkEvent>)
    ensures Replay(CleanWorkEvents(events)) == Replay(events)
  {
    if |events| > 0 {
      var n := |events| - 1;
      ReplayClean(events[..n]);
      assert CleanWorkEvents(events)[..n] == CleanWorkEvents(events[..n]);
    }
  }

  lemma WorkOkClean(w: WorkItem)
    ensures WorkOk(CleanWorkItem(w)) <==> WorkOk(w)
  {
    var c := CleanWorkItem(w);
    ReplayClean(w.timeline);
    forall i | 0 <= i < |w.timeline| ensures Replay(c.timeline[..i]) == Replay(w.timeline[..i]) {
      ReplayClean(w.timeline[..i]);
      assert c.timeline[..i] == CleanWorkEvents(w.timeline[..i]);
    }
    forall i | 0 <= i < |w.timeline|
      ensures c.timeline[i].voided == w.timeline[i].voided && c.timeline[i].act == w.timeline[i].act {
    }
    if WorkOk(c) {
      forall i | 0 <= i < |w.timeline|
        ensures w.timeline[i].voided <==> !Accepts(Replay(w.timeline[..i]).status, w.timeline[i].act) {
        assert c.timeline[i].voided <==> !Accepts(Replay(c.timeline[..i]).status, c.timeline[i].act);
      }
    }
  }

  lemma GrantOkClean(g: Grant)
    requires GrantOk(CleanGrant(g))
    ensures GrantOk(g)
  {
    var c := CleanGrant(g);
    assert forall i :: 0 <= i < |g.timeline| ==>
      c.timeline[i].voided == g.timeline[i].voided && c.timeline[i].author == g.timeline[i].author;
    if g.status.Revoked? {
      var i :| 0 <= i < |c.timeline| && !c.timeline[i].voided;
      assert !g.timeline[i].voided;
    }
    if i :| 0 <= i < |g.timeline| && !g.timeline[i].voided {
      assert !c.timeline[i].voided;
    }
    forall i | 0 <= i < |g.timeline| && g.timeline[i].voided && g.timeline[i].author == g.granter
      ensures exists j :: 0 <= j < i && !g.timeline[j].voided {
      assert c.timeline[i].voided && c.timeline[i].author == c.granter;
      var j :| 0 <= j < i && !c.timeline[j].voided;
      assert !g.timeline[j].voided;
    }
  }

  lemma GrantOkBaked(g: Grant)
    requires GrantOk(g)
    ensures GrantOk(CleanGrant(g))
  {
    var c := CleanGrant(g);
    assert forall i :: 0 <= i < |g.timeline| ==>
      c.timeline[i].voided == g.timeline[i].voided && c.timeline[i].author == g.timeline[i].author;
    if g.status.Revoked? {
      var i :| 0 <= i < |g.timeline| && !g.timeline[i].voided;
      assert !c.timeline[i].voided;
    }
    forall i | 0 <= i < |c.timeline| && c.timeline[i].voided && c.timeline[i].author == c.granter
      ensures exists j :: 0 <= j < i && !c.timeline[j].voided {
      assert g.timeline[i].voided && g.timeline[i].author == g.granter;
      var j :| 0 <= j < i && !g.timeline[j].voided;
      assert !c.timeline[j].voided;
    }
  }

  lemma StampsClean(c: Contribution)
    ensures StampsOk(CleanContribution(c)) <==> StampsOk(c)
  {
    var d := CleanContribution(c);
    assert forall i :: 0 <= i < |c.edits| ==> d.edits[i].author == c.edits[i].author;
  }

  /** Two states no reader can tell apart are equally consistent. */
  lemma ConsistentAlike(a: State, b: State)
    requires EssenceOf(a) == EssenceOf(b) && Consistent(a)
    ensures Consistent(b)
  {
    assert CleanWorkItems(a.workItems) == CleanWorkItems(b.workItems) && CleanGrants(a.grants) == CleanGrants(b.grants)
           && CleanContributions(a.contributions) == CleanContributions(b.contributions);
    hide EssenceOf, WorkOk, GrantOk, StampsOk, CleanWorkItem, CleanGrant, CleanContribution;
    forall i | 0 <= i < |b.workItems| ensures WorkOk(b.workItems[i]) {
      assert CleanWorkItems(a.workItems)[i] == CleanWorkItem(a.workItems[i])
        && CleanWorkItems(b.workItems)[i] == CleanWorkItem(b.workItems[i]);
      WorkOkClean(a.workItems[i]);
      WorkOkClean(b.workItems[i]);
    }
    forall i | 0 <= i < |b.grants| ensures GrantOk(b.grants[i]) {
      assert CleanGrants(a.grants)[i] == CleanGrant(a.grants[i]) && CleanGrants(b.grants)[i] == CleanGrant(b.grants[i]);
      GrantOkBaked(a.grants[i]);
      GrantOkClean(b.grants[i]);
    }
    forall i | 0 <= i < |b.contributions| ensures StampsOk(b.contributions[i]) {
      assert CleanContributions(a.contributions)[i] == CleanContribution(a.contributions[i]);
      assert CleanContributions(b.contributions)[i] == CleanContribution(b.contributions[i]);
      StampsClean(a.contributions[i]);
      StampsClean(b.contributions[i]);
    }
  }

  // ----- the newest edit is the body

  /** The log holds the edit that last changed this contribution, by its author, and the body is that edit's. */
  ghost predicate TellsBody(c: Contribution, tail: seq<SeqRecord>) {
    |c.edits| > 0 && exists k :: 0 <= k < |tail| && IsEdit(tail[k].record, c)
  }

  ghost predicate IsEdit(r: Record, c: Contribution) {
    |c.edits| > 0 && r.op.Edit? && r.op.readable && r.id == c.edits[|c.edits| - 1].opId && r.author == c.author
    && r.op.editBody == c.body && r.op.editMentions == c.mentions
  }

  /** One operation: a contribution keeps its trail and body, is new and unedited, or has just been edited by it. */
  ghost predicate EditMoves(s: State, t: State, r: Record) {
    && |s.contributions| <= |t.contributions|
    && forall i :: 0 <= i < |t.contributions| ==>
         if i < |s.contributions|
         then t.contributions[i] ==
             s.contributions[i].(resolved := t.contributions[i].resolved, resolvedBy := t.contributions[i].resolvedBy,
                                 resolvedTs := t.contributions[i].resolvedTs)
              || (IsEdit(r, t.contributions[i]) && t.contributions[i].author == s.contributions[i].author)
         else t.contributions[i].edits == []
  }

  lemma EditMovesSame(s: State, t: State, r: Record)
    requires t.contributions == s.contributions
    ensures EditMoves(s, t, r)
  {
    hide IsEdit;
  }

  lemma EditMovesAt(s: State, t: State, r: Record, i: nat, c: Contribution)
    requires if i < |s.contributions|
             then t.contributions == s.contributions[i := c]
                  && (c ==
                      s.contributions[i].(resolved := c.resolved, resolvedBy := c.resolvedBy,
                                          resolvedTs := c.resolvedTs)
                      || (IsEdit(r, c) && c.author == s.contributions[i].author))
             else t.contributions == s.contributions + [c] && c.edits == []
    ensures EditMoves(s, t, r)
  {
    hide IsEdit;
  }

  lemma EditMovesEdit(s: State, sr: SeqRecord)
    requires Bounded(s) && sr.record.op.Edit?
    ensures EditMoves(s, ApplyEdit(s, sr), sr.record)
  {
    var r, t := sr.record, ApplyEdit(s, sr);
    hide EditMoves;
    if !r.op.readable || IsBlank(r.op.editBody) || r.op.editAnchor == "" || r.op.editAnchor !in s.editTarget {
      EditMovesSame(s, t, r);
    } else {
      var i := s.editTarget[r.op.editAnchor];
      if s.contributions[i].author == r.author {
        hide Bounded;
        EditMovesAt(s, t, r, i, Edited(s.contributions[i], sr));
      } else {
        EditMovesSame(s, t, r);
      }
    }
  }

  lemma EditMovesResolve(s: State, r: Record)
    requires Bounded(s) && r.op.CommentResolve?
    ensures EditMoves(s, ApplyResolve(s, r), r)
  {
    var t := ApplyResolve(s, r);
    hide EditMoves;
    if TargetOf(r.op).Some? && TargetOf(r.op).value in s.editTarget
      && !s.contributions[s.editTarget[TargetOf(r.op).value]].kind.Turn? {
      var i := s.editTarget[TargetOf(r.op).value];
      var c := s.contributions[i];
      if c.resolved { EditMovesSame(s, t, r); } else {
        hide Bounded;
        EditMovesAt(s, t, r, i, c.(resolved := true, resolvedBy := r.author, resolvedTs := r.ts));
      }
    } else {
      EditMovesSame(s, t, r);
    }
  }

  lemma EditMovesStep(s: State, sr: SeqRecord)
    requires Bounded(s)
    ensures EditMoves(s, Step(s, sr), sr.record)
  {
    var n, op := Note(s, sr.record), sr.record.op;
    var t := Apply(n, sr);
    assert Step(s, sr) == t && n.contributions == s.contributions;
    if op.TurnPost? {
      hide Bounded, IsEdit, KeepsGraph;
      EditMovesAt(s, t, sr.record, |s.contributions|, NewTurn(sr));
    } else if op.CommentAdd? {
      hide Bounded, IsEdit, KeepsGraph;
      EditMovesAt(s, t, sr.record, |s.contributions|, NewComment(sr));
    } else {
      hide Apply, EditMoves, ApplyEdit, ApplyResolve;
      if op.Edit? { ApplyIsEdit(n, sr); EditMovesEdit(n, sr); SameMoves(n, s, t, sr.record); }
      else if op.CommentResolve? { ApplyIsEdit(n, sr); EditMovesResolve(n, sr.record); SameMoves(n, s, t, sr.record); }
      else if op.AttachmentAdd? || op.AttachmentRemove? { ApplyIsFile(n, sr); EditMovesSame(s, t, sr.record); }
      else { KeepsConversation(n, sr); EditMovesSame(s, t, sr.record); }
    }
  }

  lemma ApplyIsEdit(s: State, sr: SeqRecord)
    requires Bounded(s)
    ensures sr.record.op.Edit? ==> Apply(s, sr) == ApplyEdit(s, sr)
    ensures sr.record.op.CommentResolve? ==> Apply(s, sr) == ApplyResolve(s, sr.record)
  {
  }

  lemma ApplyIsFile(s: State, sr: SeqRecord)
    requires Bounded(s) && (sr.record.op.AttachmentAdd? || sr.record.op.AttachmentRemove?)
    ensures Apply(s, sr).contributions == s.contributions
  {
    if sr.record.op.AttachmentRemove? { RemoveFrame(s, sr.record); }
  }

  lemma SameMoves(n: State, s: State, t: State, r: Record)
    requires EditMoves(n, t, r) && n.contributions == s.contributions
    ensures EditMoves(s, t, r)
  {
    hide IsEdit;
  }

  /** A contribution's body is the newest applied edit's: unless untouched since the start (and then as it was), or
      never edited, the log holds that edit. */
  lemma {:induction false} BodyIsNewestEdit(s: State, tail: seq<SeqRecord>, i: nat)
    requires Bounded(s) && i < |FoldFrom(s, tail).contributions|
    ensures var c := FoldFrom(s, tail).contributions[i];
      || c.edits == []
      || (i < |s.contributions| && c.edits == s.contributions[i].edits && c.body == s.contributions[i].body)
      || TellsBody(c, tail)
  {
    if |tail| > 0 {
      var n := |tail| - 1;
      var u, t := FoldFrom(s, tail[..n]), FoldFrom(s, tail);
      EditMovesStep(u, tail[n]);
      hide Step, IsEdit;
      var c := t.contributions[i];
      if i < |u.contributions| {
        BodyIsNewestEdit(s, tail[..n], i);
        if IsEdit(tail[n].record, c) && c.edits != [] {
          assert TellsBody(c, tail);
        } else if TellsBody(u.contributions[i], tail[..n]) {
          var k :| 0 <= k < n && IsEdit(tail[..n][k].record, u.contributions[i]);
          SameEdit(tail[k].record, u.contributions[i], c);
          assert IsEdit(tail[k].record, c);
        }
      }
    }
  }

  lemma SameEdit(r: Record, c: Contribution, d: Contribution)
    requires IsEdit(r, c) && d.edits == c.edits && d.author == c.author && d.body == c.body && d.mentions == c.mentions
    ensures IsEdit(r, d)
  {
  }
}
