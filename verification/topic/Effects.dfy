/** What the operations of a log do, told in their own fields: each makes the element it describes, and every edit, work
    event and revocation is on the element it is aimed at, in order and with nothing added (topic/view.go, the arms of
    `apply`). */
module Effects {
  import opened Prelude
  import opened Vocabulary
  import opened Fold
  import opened EssenceOfTopic
  import opened Anchors
  import opened Permanence
  import opened Steps
  import opened Trails
  import opened Upkeep
  import opened Ledger
  import opened Soundness

  // ----- what an operation is aimed at

  /** A well-formed edit, by its author, of the contribution at `i`, named by its own id or that of an edit of it. */
  predicate Revises(s: State, r: Record, i: nat) {
    && r.op.Edit? && r.op.readable && !IsBlank(r.op.editBody) && r.op.editAnchor != ""
    && r.op.editAnchor in s.editTarget && s.editTarget[r.op.editAnchor] == i
    && i < |s.contributions| && s.contributions[i].author == r.author
  }

  /** A well-formed claim, done or abandon of the item at `i`. */
  predicate WorksOn(s: State, r: Record, i: nat) {
    && r.op.WorkRef? && r.op.readable && r.op.target.Some? && r.op.target.value != ""
    && r.op.target.value in s.workIdx && s.workIdx[r.op.target.value] == i
  }

  /** A well-formed revocation of the grant at `i`, whoever makes it. */
  predicate Challenges(s: State, r: Record, i: nat) {
    && r.op.GrantRevoke? && r.op.readable && r.op.target.Some? && r.op.target.value != ""
    && r.op.target.value in s.grantIdx && s.grantIdx[r.op.target.value] == i
  }

  datatype Aim = Revision | Work | Challenge

  predicate Hits(aim: Aim, s: State, r: Record, i: nat) {
    match aim
    case Revision => Revises(s, r, i)
    case Work => WorksOn(s, r, i)
    case Challenge => Challenges(s, r, i)
  }

  /** The places in `tail`, in order, of the operations aimed at element `i`. */
  function Hitting(aim: Aim, s: State, tail: seq<SeqRecord>, i: nat): (ks: seq<nat>)
    requires Bounded(s)
    ensures forall m :: 0 <= m < |ks| ==> ks[m] < |tail|
  {
    if |tail| == 0 then []
    else
      var n := |tail| - 1;
      Hitting(aim, s, tail[..n], i) + if Hits(aim, FoldFrom(s, tail[..n]), tail[n].record, i) then [n] else []
  }

  /** They are all of them, each once and in order. */
  lemma {:induction false} HittingAreAll(aim: Aim, s: State, tail: seq<SeqRecord>, i: nat, k: nat)
    requires Bounded(s) && k < |tail|
    ensures k in Hitting(aim, s, tail, i) <==> Hits(aim, FoldFrom(s, tail[..k]), tail[k].record, i)
    ensures forall m, p :: 0 <= m < p < |Hitting(aim, s, tail, i)| ==>
      Hitting(aim, s, tail, i)[m] < Hitting(aim, s, tail, i)[p]
  {
    var n := |tail| - 1;
    hide *;
    HittingLast(aim, s, tail, i);
    if n > 0 { HittingAreAll(aim, s, tail[..n], i, if k < n then k else 0); } else { Untouched(s, aim, i); }
    if k < n { assert tail[..n][..k] == tail[..k] && tail[..n][k] == tail[k]; }
  }

  // ----- one operation

  ghost predicate Stamps(e: EditStamp, sr: SeqRecord) {
    && e.opId == sr.record.id && e.author == sr.record.author && e.ts == sr.record.ts
    && e.streamSeq == sr.streamSeq && e.sig == ""
  }

  ghost predicate SameWords(c: Contribution, d: Contribution) {
    d.edits == c.edits && d.body == c.body && d.mentions == c.mentions
  }

  ghost predicate Reworded(c: Contribution, d: Contribution, sr: SeqRecord) {
    && |d.edits| == |c.edits| + 1 && c.edits <= d.edits && Stamps(d.edits[|c.edits|], sr)
    && sr.record.op.Edit? && d.body == sr.record.op.editBody && d.mentions == sr.record.op.editMentions
  }

  lemma ApplyEditRevises(s: State, sr: SeqRecord, i: nat)
    requires Bounded(s) && sr.record.op.Edit? && i < |s.contributions|
    ensures i < |ApplyEdit(s, sr).contributions|
    ensures var c, d := s.contributions[i], ApplyEdit(s, sr).contributions[i];
      if Revises(s, sr.record, i) then Reworded(c, d, sr) else SameWords(c, d)
  {
    var a := sr.record.op.editAnchor;
    hide KeepsGraph, IsBlank;
    if a in s.editTarget {
      var j := s.editTarget[a];
      assert j < |s.contributions|;
      hide Bounded;
      if s.contributions[j].author == sr.record.author {}
    }
  }

  lemma ApplyResolveWords(s: State, r: Record, i: nat)
    requires Bounded(s) && r.op.CommentResolve? && i < |s.contributions|
    ensures i < |ApplyResolve(s, r).contributions|
    ensures SameWords(s.contributions[i], ApplyResolve(s, r).contributions[i])
  {
    hide KeepsGraph;
    if TargetOf(r.op).Some? && TargetOf(r.op).value in s.editTarget {
      var j := s.editTarget[TargetOf(r.op).value];
      assert j < |s.contributions|;
      hide Bounded;
      if s.contributions[j].kind.Turn? {} else if s.contributions[j].resolved {}
    }
  }

  lemma RevisionStep(s: State, sr: SeqRecord, i: nat)
    requires Bounded(s) && i < |s.contributions|
    ensures i < |Step(s, sr).contributions|
    ensures var c, d := s.contributions[i], Step(s, sr).contributions[i];
      if Revises(s, sr.record, i) then Reworded(c, d, sr) else SameWords(c, d)
  {
    var n, op := Note(s, sr.record), sr.record.op;
    assert Step(s, sr) == Apply(n, sr) && n.contributions == s.contributions && n.editTarget == s.editTarget;
    assert Revises(n, sr.record, i) <==> Revises(s, sr.record, i);
    if op.TurnPost? || op.CommentAdd? {
      hide Bounded, KeepsGraph;
    } else if op.Edit? {
      ApplyIsEdit(n, sr);
      hide Apply, Revises, Reworded, SameWords;
      ApplyEditRevises(n, sr, i);
    } else if op.CommentResolve? {
      ApplyIsEdit(n, sr);
      hide Apply, SameWords;
      ApplyResolveWords(n, sr.record, i);
    } else if op.AttachmentAdd? || op.AttachmentRemove? {
      hide Apply;
      ApplyIsFile(n, sr);
    } else {
      hide Apply;
      KeepsConversation(n, sr);
    }
  }

  ghost predicate Records(e: WorkEvent, sr: SeqRecord) {
    && sr.record.op.WorkRef? && e.opId == sr.record.id && e.act == sr.record.op.act
    && e.author == sr.record.author && e.ts == sr.record.ts && e.streamSeq == sr.streamSeq && e.sig == ""
  }

  /** One more event on the item, which stays told by its timeline. */
  ghost predicate Worked(v: WorkItem, w: WorkItem, sr: SeqRecord) {
    && |w.timeline| == |v.timeline| + 1 && v.timeline <= w.timeline && Records(w.timeline[|v.timeline|], sr)
    && (WorkOk(v) ==> WorkOk(w))
  }

  lemma TouchedWorked(v: WorkItem, sr: SeqRecord)
    requires sr.record.op.WorkRef?
    ensures Worked(v, Touched(v, sr), sr)
  {
    if WorkOk(v) { TouchedOk(v, sr); }
    hide WorkOk;
  }

  lemma ApplyWorkHits(s: State, sr: SeqRecord, i: nat)
    requires Bounded(s) && sr.record.op.WorkRef? && i < |s.workItems|
    ensures i < |ApplyWorkRef(s, sr).workItems|
    ensures var v, w := s.workItems[i], ApplyWorkRef(s, sr).workItems[i];
      if WorksOn(s, sr.record, i) then Worked(v, w, sr) else w == v
  {
    var op := sr.record.op;
    hide KeepsGraph, Worked;
    if TargetOf(op).Some? && TargetOf(op).value in s.workIdx {
      var j := s.workIdx[TargetOf(op).value];
      assert j < |s.workItems|;
      hide Bounded;
      TouchedWorked(s.workItems[j], sr);
      hide Touched;
    }
  }

  lemma WorkStep(s: State, sr: SeqRecord, i: nat)
    requires Bounded(s) && i < |s.workItems|
    ensures i < |Step(s, sr).workItems|
    ensures var v, w := s.workItems[i], Step(s, sr).workItems[i];
      if WorksOn(s, sr.record, i) then Worked(v, w, sr) else w == v
  {
    var n, op := Note(s, sr.record), sr.record.op;
    assert Step(s, sr) == Apply(n, sr) && n.workItems == s.workItems && n.workIdx == s.workIdx;
    hide Worked;
    if op.WorkOpen? {
      assert Apply(n, sr) == ApplyOpen(n, sr);
      hide Bounded, KeepsGraph, IsBlank;
    } else if op.WorkRef? {
      assert Apply(n, sr) == ApplyWorkRef(n, sr);
      assert WorksOn(n, sr.record, i) <==> WorksOn(s, sr.record, i);
      hide Apply, ApplyWorkRef, WorksOn;
      ApplyWorkHits(n, sr, i);
    } else {
      hide Apply;
      KeepsWork(n, sr);
    }
  }

  ghost predicate Contests(e: GrantEvent, sr: SeqRecord) {
    && e.opId == sr.record.id && e.author == sr.record.author && e.ts == sr.record.ts
    && e.streamSeq == sr.streamSeq && e.sig == ""
  }

  ghost predicate Contested(g: Grant, h: Grant, sr: SeqRecord) {
    && |h.timeline| == |g.timeline| + 1 && g.timeline <= h.timeline && Contests(h.timeline[|g.timeline|], sr)
    && (GrantOk(g) ==> GrantOk(h))
  }

  lemma ChallengedContested(g: Grant, sr: SeqRecord)
    requires sr.record.op.GrantRevoke?
    ensures Contested(g, Challenged(g, sr), sr)
  {
    if GrantOk(g) { ChallengedOk(g, sr); }
    hide GrantOk;
  }

  lemma ApplyRevokeHits(s: State, sr: SeqRecord, i: nat)
    requires Bounded(s) && sr.record.op.GrantRevoke? && i < |s.grants|
    ensures i < |ApplyRevoke(s, sr).grants|
    ensures var g, h := s.grants[i], ApplyRevoke(s, sr).grants[i];
      if Challenges(s, sr.record, i) then Contested(g, h, sr) else h == g
  {
    var op := sr.record.op;
    hide KeepsGraph, Contested;
    if TargetOf(op).Some? && TargetOf(op).value in s.grantIdx {
      var j := s.grantIdx[TargetOf(op).value];
      assert j < |s.grants|;
      hide Bounded;
      ChallengedContested(s.grants[j], sr);
      hide Challenged;
    }
  }

  lemma ChallengeStep(s: State, sr: SeqRecord, i: nat)
    requires Bounded(s) && i < |s.grants|
    ensures i < |Step(s, sr).grants|
    ensures var g, h := s.grants[i], Step(s, sr).grants[i];
      if Challenges(s, sr.record, i) then Contested(g, h, sr) else h == g
  {
    var n, op := Note(s, sr.record), sr.record.op;
    assert Step(s, sr) == Apply(n, sr) && n.grants == s.grants && n.grantIdx == s.grantIdx;
    hide Contested;
    if op.GrantIssue? {
      assert Apply(n, sr) == ApplyIssue(n, sr);
      hide Bounded, KeepsGraph, IsBlank;
    } else if op.GrantRevoke? {
      assert Apply(n, sr) == ApplyRevoke(n, sr);
      assert Challenges(n, sr.record, i) <==> Challenges(s, sr.record, i);
      hide Apply, ApplyRevoke, Challenges;
      ApplyRevokeHits(n, sr, i);
    } else {
      hide Apply;
      KeepsGrants(n, sr);
    }
  }

  // ----- a whole log

  /** `d` is `c` with the edits at the places `ks` made: one stamp each, and the words of the last. */
  ghost predicate RewordedBy(c: Contribution, d: Contribution, tail: seq<SeqRecord>, ks: seq<nat>)
    requires forall m :: 0 <= m < |ks| ==> ks[m] < |tail|
  {
    && |d.edits| == |c.edits| + |ks| && c.edits <= d.edits
    && (forall m :: 0 <= m < |ks| ==> Stamps(d.edits[|c.edits| + m], tail[ks[m]]))
    && if ks == [] then d.body == c.body && d.mentions == c.mentions
       else var op := tail[ks[|ks| - 1]].record.op; op.Edit? && d.body == op.editBody && d.mentions == op.editMentions
  }

  lemma HittingLast(aim: Aim, s: State, tail: seq<SeqRecord>, i: nat)
    requires Bounded(s) && |tail| > 0
    ensures var n := |tail| - 1;
      Hitting(aim, s, tail, i) ==
      Hitting(aim, s, tail[..n], i) + if Hits(aim, FoldFrom(s, tail[..n]), tail[n].record, i) then [n] else []
    ensures var ks := Hitting(aim, s, tail[..|tail| - 1], i); forall m :: 0 <= m < |ks| ==> ks[m] < |tail| - 1
    ensures Hits(aim, FoldFrom(s, tail[..|tail| - 1]), tail[|tail| - 1].record, i) <==>
      match aim
      case Revision => Revises(FoldFrom(s, tail[..|tail| - 1]), tail[|tail| - 1].record, i)
      case Work => WorksOn(FoldFrom(s, tail[..|tail| - 1]), tail[|tail| - 1].record, i)
      case Challenge => Challenges(FoldFrom(s, tail[..|tail| - 1]), tail[|tail| - 1].record, i)
  {
    hide FoldFrom, Revises, WorksOn, Challenges;
  }

  lemma Untouched(s: State, aim: Aim, i: nat)
    requires Bounded(s)
    ensures FoldFrom(s, []) == s && Hitting(aim, s, [], i) == []
    ensures i < |s.contributions| ==> RewordedBy(s.contributions[i], s.contributions[i], [], [])
    ensures i < |s.workItems| ==> WorkedBy(s.workItems[i], s.workItems[i], [], [])
    ensures i < |s.grants| ==> ContestedBy(s.grants[i], s.grants[i], [], [])
  {
    hide WorkOk, GrantOk;
  }

  lemma RewordedMore(c: Contribution, d: Contribution, e: Contribution, tail: seq<SeqRecord>, ks: seq<nat>, hit: bool)
    requires |tail| > 0 && forall m :: 0 <= m < |ks| ==> ks[m] < |tail| - 1
    requires RewordedBy(c, d, tail[..|tail| - 1], ks)
    requires if hit then Reworded(d, e, tail[|tail| - 1]) else SameWords(d, e)
    ensures var ls := ks + if hit then [|tail| - 1] else [];
      (forall m :: 0 <= m < |ls| ==> ls[m] < |tail|) && RewordedBy(c, e, tail, ls)
  {
    assert forall m :: 0 <= m < |ks| ==> tail[..|tail| - 1][ks[m]] == tail[ks[m]];
    hide Stamps;
  }

  lemma WorkedMore(v: WorkItem, w: WorkItem, x: WorkItem, tail: seq<SeqRecord>, ks: seq<nat>, hit: bool)
    requires |tail| > 0 && forall m :: 0 <= m < |ks| ==> ks[m] < |tail| - 1
    requires WorkedBy(v, w, tail[..|tail| - 1], ks)
    requires if hit then Worked(w, x, tail[|tail| - 1]) else x == w
    ensures var ls := ks + if hit then [|tail| - 1] else [];
      (forall m :: 0 <= m < |ls| ==> ls[m] < |tail|) && WorkedBy(v, x, tail, ls)
  {
    assert forall m :: 0 <= m < |ks| ==> tail[..|tail| - 1][ks[m]] == tail[ks[m]];
    hide Records, WorkOk;
    var ls := ks + if hit then [|tail| - 1] else [];
    forall m | 0 <= m < |ls| ensures ls[m] < |tail| && Records(x.timeline[|v.timeline| + m], tail[ls[m]]) {
      if m < |ks| {
        assert Records(w.timeline[|v.timeline| + m], tail[..|tail| - 1][ks[m]]);
        assert x.timeline[|v.timeline| + m] == w.timeline[|v.timeline| + m];
      }
    }
  }

  lemma ContestedMore(g: Grant, h: Grant, x: Grant, tail: seq<SeqRecord>, ks: seq<nat>, hit: bool)
    requires |tail| > 0 && forall m :: 0 <= m < |ks| ==> ks[m] < |tail| - 1
    requires ContestedBy(g, h, tail[..|tail| - 1], ks)
    requires if hit then Contested(h, x, tail[|tail| - 1]) else x == h
    ensures var ls := ks + if hit then [|tail| - 1] else [];
      (forall m :: 0 <= m < |ls| ==> ls[m] < |tail|) && ContestedBy(g, x, tail, ls)
  {
    assert forall m :: 0 <= m < |ks| ==> tail[..|tail| - 1][ks[m]] == tail[ks[m]];
    hide Contests, GrantOk;
  }

  /** The edits of a contribution are those the log makes, in order, and it reads as the last of them says. */
  lemma {:induction false} RevisionsExactly(s: State, tail: seq<SeqRecord>, i: nat)
    requires Bounded(s) && i < |s.contributions|
    ensures var t := FoldFrom(s, tail);
      i < |t.contributions| && RewordedBy(s.contributions[i], t.contributions[i], tail, Hitting(Revision, s, tail, i))
  {
    hide *;
    if |tail| == 0 {
      Untouched(s, Revision, i);
    } else {
      var n := |tail| - 1;
      var u := FoldFrom(s, tail[..n]);
      RevisionsExactly(s, tail[..n], i);
      RevisionStep(u, tail[n], i);
      FoldLast(s, tail);
      HittingLast(Revision, s, tail, i);
      RewordedMore(s.contributions[i], u.contributions[i], FoldFrom(s, tail).contributions[i], tail,
        Hitting(Revision, s, tail[..n], i), Hits(Revision, u, tail[n].record, i));
    }
  }

  /** `w`'s timeline is `v`'s and then one event for each operation at the places `ks`. */
  ghost predicate WorkedBy(v: WorkItem, w: WorkItem, tail: seq<SeqRecord>, ks: seq<nat>)
    requires forall m :: 0 <= m < |ks| ==> ks[m] < |tail|
  {
    && |w.timeline| == |v.timeline| + |ks| && v.timeline <= w.timeline
    && (forall m :: 0 <= m < |ks| ==> Records(w.timeline[|v.timeline| + m], tail[ks[m]]))
    && (WorkOk(v) ==> WorkOk(w))
  }

  /** The timeline of an item holds every claim, done and abandon aimed at it, in order, and nothing else. */
  lemma {:induction false} TimelineExactly(s: State, tail: seq<SeqRecord>, i: nat)
    requires Bounded(s) && i < |s.workItems|
    ensures var t := FoldFrom(s, tail);
      i < |t.workItems| && WorkedBy(s.workItems[i], t.workItems[i], tail, Hitting(Work, s, tail, i))
  {
    hide *;
    if |tail| == 0 {
      Untouched(s, Work, i);
    } else {
      var n := |tail| - 1;
      var u := FoldFrom(s, tail[..n]);
      TimelineExactly(s, tail[..n], i);
      WorkStep(u, tail[n], i);
      FoldLast(s, tail);
      HittingLast(Work, s, tail, i);
      WorkedMore(s.workItems[i], u.workItems[i], FoldFrom(s, tail).workItems[i], tail,
        Hitting(Work, s, tail[..n], i), Hits(Work, u, tail[n].record, i));
    }
  }

  ghost predicate ContestedBy(g: Grant, h: Grant, tail: seq<SeqRecord>, ks: seq<nat>)
    requires forall m :: 0 <= m < |ks| ==> ks[m] < |tail|
  {
    && |h.timeline| == |g.timeline| + |ks| && g.timeline <= h.timeline
    && (forall m :: 0 <= m < |ks| ==> Contests(h.timeline[|g.timeline| + m], tail[ks[m]]))
    && (GrantOk(g) ==> GrantOk(h))
  }

  /** The timeline of a grant holds every revocation aimed at it, in order, and nothing else. */
  lemma {:induction false} ChallengesExactly(s: State, tail: seq<SeqRecord>, i: nat)
    requires Bounded(s) && i < |s.grants|
    ensures var t := FoldFrom(s, tail);
      i < |t.grants| && ContestedBy(s.grants[i], t.grants[i], tail, Hitting(Challenge, s, tail, i))
  {
    hide *;
    if |tail| == 0 {
      Untouched(s, Challenge, i);
    } else {
      var n := |tail| - 1;
      var u := FoldFrom(s, tail[..n]);
      ChallengesExactly(s, tail[..n], i);
      ChallengeStep(u, tail[n], i);
      FoldLast(s, tail);
      HittingLast(Challenge, s, tail, i);
      ContestedMore(s.grants[i], u.grants[i], FoldFrom(s, tail).grants[i], tail,
        Hitting(Challenge, s, tail[..n], i), Hits(Challenge, u, tail[n].record, i));
    }
  }

  // ----- from the operation that made an element to what it says now

  /** The state just after the `k`-th operation, from which the rest is folded. */
  lemma FoldSplit(s: State, tail: seq<SeqRecord>, k: nat)
    requires Bounded(s) && k < |tail|
    ensures FoldFrom(s, tail[..k + 1]) == Step(FoldFrom(s, tail[..k]), tail[k])
    ensures FoldFrom(s, tail) == FoldFrom(FoldFrom(s, tail[..k + 1]), tail[k + 1..])
  {
    hide Step, FoldFrom;
    assert tail[..k + 1] == tail[..k] + [tail[k]] && tail == tail[..k + 1] + tail[k + 1..];
    FoldFromAppend(s, tail[..k], tail[k]);
    FoldFromConcat(s, tail[..k + 1], tail[k + 1..]);
  }

  /** One stamp for each of the edits at `ks`, and the words of the last of them. */
  ghost predicate TalkTold(c: Contribution, tail: seq<SeqRecord>, ks: seq<nat>) {
    && |c.edits| == |ks| && (forall m :: 0 <= m < |ks| ==> ks[m] < |tail| && Stamps(c.edits[m], tail[ks[m]]))
    && (ks != [] ==>
          var op := tail[ks[|ks| - 1]].record.op;
          op.Edit? && c.body == op.editBody && c.mentions == op.editMentions)
  }

  lemma TalkToldIs(c: Contribution, d: Contribution, tail: seq<SeqRecord>, ks: seq<nat>)
    requires (forall m :: 0 <= m < |ks| ==> ks[m] < |tail|) && RewordedBy(c, d, tail, ks) && c.edits == []
    ensures TalkTold(d, tail, ks)
  {
    hide Stamps;
    forall m | 0 <= m < |ks| ensures Stamps(d.edits[m], tail[ks[m]]) {
      assert Stamps(d.edits[|c.edits| + m], tail[ks[m]]);
    }
  }

  /** Every turn, comment and reply reads exactly as posted or as its author last edited it: the stamps are those of the
      edits that followed, in order, and the words are the last one's. */
  lemma EveryTalkReads(s: State, tail: seq<SeqRecord>, k: nat)
    requires Bounded(s) && k < |tail| && IsTalk(tail[k].record)
    ensures var t, j := FoldFrom(s, tail), |s.contributions| + Count(tail[..k]).talk;
      var ks := Hitting(Revision, FoldFrom(s, tail[..k + 1]), tail[k + 1..], j);
      j < |t.contributions| && Utters(tail[k], t.contributions[j]) && TalkTold(t.contributions[j], tail[k + 1..], ks)
  {
    var u, j := FoldFrom(s, tail[..k]), |s.contributions| + Count(tail[..k]).talk;
    hide *;
    EveryTalkStands(s, tail, k);
    CountsAgree(s, tail[..k]);
    TalkStep(u, tail[k]);
    FoldSplit(s, tail, k);
    RevisionsExactly(FoldFrom(s, tail[..k + 1]), tail[k + 1..], j);
    NewTalkBlank(tail[k]);
    TalkToldIs(NewTalk(tail[k]), FoldFrom(FoldFrom(s, tail[..k + 1]), tail[k + 1..]).contributions[j], tail[k + 1..],
               Hitting(Revision, FoldFrom(s, tail[..k + 1]), tail[k + 1..], j));
  }

  lemma NewTalkBlank(sr: SeqRecord)
    requires IsTalk(sr.record)
    ensures NewTalk(sr).edits == []
  {
  }

  /** The timeline is one event for each of the operations at `ks`, and it tells everything else. */
  ghost predicate ItemTold(w: WorkItem, tail: seq<SeqRecord>, ks: seq<nat>) {
    && |w.timeline| == |ks| && (forall m :: 0 <= m < |ks| ==> ks[m] < |tail| && Records(w.timeline[m], tail[ks[m]]))
    && WorkOk(w) && BenchTold(w.timeline, Bench(w.status, w.owner))
  }

  lemma ItemToldIs(w: WorkItem, tail: seq<SeqRecord>, ks: seq<nat>)
    requires |w.timeline| == |ks| && forall m :: 0 <= m < |ks| ==> ks[m] < |tail| && Records(w.timeline[m], tail[ks[m]])
    requires WorkOk(w) && BenchTold(w.timeline, Bench(w.status, w.owner))
    ensures ItemTold(w, tail, ks)
  {
    hide WorkOk, BenchTold, Records;
  }

  /** Every item opened by the log has the timeline the log gives it, and nothing else decides its status and owner. */
  lemma EveryItemTells(s: State, tail: seq<SeqRecord>, k: nat)
    requires Bounded(s) && k < |tail| && OpensItem(tail[k].record)
    ensures var t, j := FoldFrom(s, tail), |s.workItems| + Count(tail[..k]).items;
      var ks := Hitting(Work, FoldFrom(s, tail[..k + 1]), tail[k + 1..], j);
      j < |t.workItems| && Opens(tail[k], t.workItems[j]) && ItemTold(t.workItems[j], tail[k + 1..], ks)
  {
    var u, j := FoldFrom(s, tail[..k]), |s.workItems| + Count(tail[..k]).items;
    var rest, w := tail[k + 1..], FoldFrom(s, tail[..k + 1]);
    OpensMeans(tail[k].record);
    hide *;
    EveryItemStands(s, tail, k);
    CountsAgree(s, tail[..k]);
    ItemStep(u, tail[k]);
    FoldSplit(s, tail, k);
    TimelineExactly(w, rest, j);
    NewItemTold(tail[k]);
    WorkedFromNothing(NewWorkItem(tail[k]), FoldFrom(w, rest).workItems[j], rest, Hitting(Work, w, rest, j));
    WorkRules(FoldFrom(w, rest).workItems[j]);
    ItemToldIs(FoldFrom(w, rest).workItems[j], rest, Hitting(Work, w, rest, j));
  }

  lemma NewItemTold(sr: SeqRecord)
    requires sr.record.op.WorkOpen?
    ensures NewWorkItem(sr).timeline == [] && WorkOk(NewWorkItem(sr))
  {
  }

  lemma WorkedFromNothing(v: WorkItem, w: WorkItem, tail: seq<SeqRecord>, ks: seq<nat>)
    requires (forall m :: 0 <= m < |ks| ==> ks[m] < |tail|) && WorkedBy(v, w, tail, ks) && v.timeline == [] && WorkOk(v)
    ensures WorkOk(w) && |w.timeline| == |ks|
    ensures forall m :: 0 <= m < |ks| ==> Records(w.timeline[m], tail[ks[m]])
  {
    hide Records, WorkOk;
    forall m | 0 <= m < |ks| ensures Records(w.timeline[m], tail[ks[m]]) {
      assert Records(w.timeline[|v.timeline| + m], tail[ks[m]]);
    }
  }

  ghost predicate GrantTold(g: Grant, tail: seq<SeqRecord>, ks: seq<nat>) {
    && |g.timeline| == |ks| && (forall m :: 0 <= m < |ks| ==> ks[m] < |tail| && Contests(g.timeline[m], tail[ks[m]]))
    && GrantOk(g)
  }

  lemma GrantToldIs(g: Grant, tail: seq<SeqRecord>, ks: seq<nat>)
    requires |g.timeline| == |ks| && GrantOk(g)
    requires forall m :: 0 <= m < |ks| ==> ks[m] < |tail| && Contests(g.timeline[m], tail[ks[m]])
    ensures GrantTold(g, tail, ks)
  {
    hide GrantOk, Contests;
  }

  /** And so has every grant issued by the log. */
  lemma EveryGrantTells(s: State, tail: seq<SeqRecord>, k: nat)
    requires Bounded(s) && k < |tail| && IssuesGrant(tail[k].record)
    ensures var t, j := FoldFrom(s, tail), |s.grants| + Count(tail[..k]).grants;
      var ks := Hitting(Challenge, FoldFrom(s, tail[..k + 1]), tail[k + 1..], j);
      j < |t.grants| && Issues(tail[k], t.grants[j]) && GrantTold(t.grants[j], tail[k + 1..], ks)
  {
    var u, j := FoldFrom(s, tail[..k]), |s.grants| + Count(tail[..k]).grants;
    var rest, w := tail[k + 1..], FoldFrom(s, tail[..k + 1]);
    OpensMeans(tail[k].record);
    hide *;
    EveryGrantStands(s, tail, k);
    CountsAgree(s, tail[..k]);
    GrantStep(u, tail[k]);
    FoldSplit(s, tail, k);
    ChallengesExactly(w, rest, j);
    NewGrantTold(tail[k]);
    ContestedFromNothing(NewGrant(tail[k]), FoldFrom(w, rest).grants[j], rest, Hitting(Challenge, w, rest, j));
    GrantToldIs(FoldFrom(w, rest).grants[j], rest, Hitting(Challenge, w, rest, j));
  }

  lemma NewGrantTold(sr: SeqRecord)
    requires sr.record.op.GrantIssue?
    ensures NewGrant(sr).timeline == [] && GrantOk(NewGrant(sr))
  {
  }

  lemma ContestedFromNothing(g: Grant, h: Grant, tail: seq<SeqRecord>, ks: seq<nat>)
    requires (forall m :: 0 <= m < |ks| ==> ks[m] < |tail|) && ContestedBy(g, h, tail, ks) && g.timeline == []
    requires GrantOk(g)
    ensures GrantOk(h) && |h.timeline| == |ks|
    ensures forall m :: 0 <= m < |ks| ==> Contests(h.timeline[m], tail[ks[m]])
  {
    hide Contests, GrantOk;
    forall m | 0 <= m < |ks| ensures Contests(h.timeline[m], tail[ks[m]]) {
      assert Contests(h.timeline[|g.timeline| + m], tail[ks[m]]);
    }
  }

  // ----- what is warned about

  /** The operations the reader is warned about: malformed, aimed at nothing, not theirs to make, or out of place. */
  predicate Warned(s: State, r: Record) {
    match r.op
    case TurnPost(_, _, _) => false
    case CommentAdd(_, _, _, _) => false
    case Edit(readable, body, _, anchor) =>
      !readable || IsBlank(body) || anchor == "" || anchor !in s.editTarget
      || (s.editTarget[anchor] < |s.contributions| && s.contributions[s.editTarget[anchor]].author != r.author)
    case CommentResolve(readable, target) =>
      !readable || target.None? || target.value == "" || target.value !in s.editTarget
      || (s.editTarget[target.value] < |s.contributions| && s.contributions[s.editTarget[target.value]].kind == Turn)
    case AttachmentAdd(_, _, _, _, _, _) => false
    case AttachmentRemove(readable, target) =>
      !readable || target.None? || target.value == "" || target.value !in s.attIdx
    case WorkOpen(readable, title, _, _) => !readable || IsBlank(title)
    case WorkRef(_, readable, target) => !readable || target.None? || target.value == "" || target.value !in s.workIdx
    case GrantIssue(readable, grantee, scope, _) => !readable || IsBlank(grantee) || IsBlank(scope)
    case GrantRevoke(readable, target) => !readable || target.None? || target.value == "" || target.value !in s.grantIdx
    case LifeTransition(readable, to) => s.lifecycle == Archived || (readable && to == Dormant && s.lifecycle == Closed)
    case Baseline(_, _) => true
    case Unknown(_) => true
  }

  function WarnedCount(s: State, tail: seq<SeqRecord>): nat
    requires Bounded(s)
  {
    if |tail| == 0 then 0
    else
      var n := |tail| - 1;
      WarnedCount(s, tail[..n]) + if Warned(FoldFrom(s, tail[..n]), tail[n].record) then 1 else 0
  }

  lemma WarnStep(s: State, sr: SeqRecord)
    requires Bounded(s)
    ensures Step(s, sr).warnings == s.warnings + if Warned(s, sr.record) then 1 else 0
  {
    var n := Note(s, sr.record);
    assert Step(s, sr) == Apply(n, sr) && n.warnings == s.warnings && (Warned(n, sr.record) <==> Warned(s, sr.record));
    WarnApply(n, sr);
    hide Step, Apply, Note, Warned;
  }

  lemma WarnEdit(s: State, sr: SeqRecord)
    requires Bounded(s) && sr.record.op.Edit?
    ensures ApplyEdit(s, sr).warnings == s.warnings + if Warned(s, sr.record) then 1 else 0
  {
    hide KeepsGraph, IsBlank, Edited;
  }

  lemma WarnAimed(s: State, r: Record)
    requires Bounded(s)
    ensures r.op.CommentResolve? ==> ApplyResolve(s, r).warnings == s.warnings + if Warned(s, r) then 1 else 0
    ensures r.op.AttachmentRemove? ==> ApplyRemove(s, r).warnings == s.warnings + if Warned(s, r) then 1 else 0
  {
    hide KeepsGraph;
    if r.op.CommentResolve? && TargetOf(r.op).Some? && TargetOf(r.op).value in s.editTarget {
      assert s.editTarget[TargetOf(r.op).value] < |s.contributions|;
      hide Bounded;
      if s.contributions[s.editTarget[TargetOf(r.op).value]].resolved {}
    }
    if r.op.AttachmentRemove? && TargetOf(r.op).Some? && TargetOf(r.op).value in s.attIdx {
      assert s.attIdx[TargetOf(r.op).value] < |s.attachments|;
      hide Bounded;
      if s.attachments[s.attIdx[TargetOf(r.op).value]].removed {}
    }
  }

  lemma WarnWork(s: State, sr: SeqRecord)
    requires Bounded(s)
    ensures var op := sr.record.op;
      var more := s.warnings + if Warned(s, sr.record) then 1 else 0;
      && (op.WorkOpen? ==> ApplyOpen(s, sr).warnings == more) && (op.WorkRef? ==> ApplyWorkRef(s, sr).warnings == more)
  {
    hide KeepsGraph, IsBlank, Touched;
    if sr.record.op.WorkRef? && TargetOf(sr.record.op).Some? { if TargetOf(sr.record.op).value in s.workIdx {} }
  }

  lemma WarnGrant(s: State, sr: SeqRecord)
    requires Bounded(s)
    ensures var op := sr.record.op;
      var more := s.warnings + if Warned(s, sr.record) then 1 else 0;
      && (op.GrantIssue? ==> ApplyIssue(s, sr).warnings == more)
      && (op.GrantRevoke? ==> ApplyRevoke(s, sr).warnings == more)
  {
    hide KeepsGraph, IsBlank, Challenged;
    if sr.record.op.GrantRevoke? && TargetOf(sr.record.op).Some? { if TargetOf(sr.record.op).value in s.grantIdx {} }
  }

  lemma WarnTransition(s: State, r: Record)
    requires Bounded(s) && r.op.LifeTransition?
    ensures ApplyTransition(s, r.op).warnings == s.warnings + if Warned(s, r) then 1 else 0
  {
    hide Bounded;
  }

  lemma WarnApply(s: State, sr: SeqRecord)
    requires Bounded(s)
    ensures Apply(s, sr).warnings == s.warnings + if Warned(s, sr.record) then 1 else 0
  {
    ApplyArms(s, sr);
    if sr.record.op.Edit? { WarnEdit(s, sr); }
    WarnAimed(s, sr.record);
    WarnWork(s, sr);
    WarnGrant(s, sr);
    if sr.record.op.LifeTransition? { WarnTransition(s, sr.record); }
    hide Apply, KeepsGraph, ApplyEdit, ApplyResolve, ApplyRemove, ApplyOpen, ApplyWorkRef, ApplyIssue, ApplyRevoke,
        ApplyTransition, Bounded;
    var op := sr.record.op;
    if !(op.TurnPost? || op.CommentAdd? || op.AttachmentAdd? || op.Baseline? || op.Unknown?) { hide Warned; }
  }

  /** A view carries one warning for each operation there is something wrong with, and no other. */
  lemma {:induction false} WarningsExactly(s: State, tail: seq<SeqRecord>)
    requires Bounded(s)
    ensures FoldFrom(s, tail).warnings == s.warnings + WarnedCount(s, tail)
  {
    if |tail| > 0 {
      WarningsExactly(s, tail[..|tail| - 1]);
      hide Step, Warned;
      WarnStep(FoldFrom(s, tail[..|tail| - 1]), tail[|tail| - 1]);
    }
  }

  // ----- what an id leads to

  /** A contribution answers to its own id and to those of its edits. */
  ghost predicate AnswersTo(c: Contribution, x: OpId) {
    x == c.opId || exists j :: 0 <= j < |c.edits| && c.edits[j].opId == x
  }

  lemma ChainAnswers(cs: seq<Contribution>, i: nat, x: OpId)
    requires i < |cs|
    ensures x in ContributionChains(cs)[i] <==> AnswersTo(cs[i], x)
  {
    var ids := StampIds(cs[i].edits);
    assert x in ids <==> exists j :: 0 <= j < |cs[i].edits| && cs[i].edits[j].opId == x by {
      if x in ids { var j :| 0 <= j < |ids| && ids[j] == x; assert cs[i].edits[j].opId == x; }
      if j :| 0 <= j < |cs[i].edits| && cs[i].edits[j].opId == x { assert ids[j] == x; }
    }
  }

  /** In every causal log an id leads to the last contribution that answers to it, by its own id or an edit's; to the
      last attachment, item or grant that bears it; and nowhere if there is none. */
  lemma AnswersExactly(log: seq<SeqRecord>, x: OpId, i: nat)
    requires CausalLog(log)
    ensures var s, cs := FoldLog(log), FoldLog(log).contributions;
      x in s.editTarget && s.editTarget[x] == i <==>
      i < |cs| && AnswersTo(cs[i], x) && forall j :: i < j < |cs| ==> !AnswersTo(cs[j], x)
    ensures var s, xs := FoldLog(log), FoldLog(log).attachments;
      x in s.attIdx && s.attIdx[x] == i <==>
      i < |xs| && xs[i].opId == x && forall j :: i < j < |xs| ==> xs[j].opId != x
    ensures var s, ws := FoldLog(log), FoldLog(log).workItems;
      x in s.workIdx && s.workIdx[x] == i <==>
      i < |ws| && ws[i].id == x && forall j :: i < j < |ws| ==> ws[j].id != x
    ensures var s, gs := FoldLog(log), FoldLog(log).grants;
      x in s.grantIdx && s.grantIdx[x] == i <==>
      i < |gs| && gs[i].id == x && forall j :: i < j < |gs| ==> gs[j].id != x
  {
    LogSound(log);
    StateAnswers(FoldLog(log), x, i);
    hide FoldLog, AnswersTo;
  }

  lemma StateAnswers(s: State, x: OpId, i: nat)
    requires Sound(s)
    ensures x in s.editTarget && s.editTarget[x] == i <==>
      i < |s.contributions| && AnswersTo(s.contributions[i], x)
      && forall j :: i < j < |s.contributions| ==> !AnswersTo(s.contributions[j], x)
    ensures x in s.attIdx && s.attIdx[x] == i <==>
      i < |s.attachments| && s.attachments[i].opId == x
      && forall j :: i < j < |s.attachments| ==> s.attachments[j].opId != x
    ensures x in s.workIdx && s.workIdx[x] == i <==>
      i < |s.workItems| && s.workItems[i].id == x && forall j :: i < j < |s.workItems| ==> s.workItems[j].id != x
    ensures x in s.grantIdx && s.grantIdx[x] == i <==>
      i < |s.grants| && s.grants[i].id == x && forall j :: i < j < |s.grants| ==> s.grants[j].id != x
  {
    hide IndexOf;
    assert s.editTarget == IndexOf(ContributionChains(s.contributions));
    assert s.attIdx == IndexOf(AttachmentChains(s.attachments));
    assert s.workIdx == IndexOf(WorkChains(s.workItems)) && s.grantIdx == IndexOf(GrantChains(s.grants));
    hide Sound, AnswersTo;
    TalkAnswers(s.contributions, x, i);
    OthersAnswer(s.attachments, s.workItems, s.grants, x, i);
    hide *;
  }

  lemma TalkAnswers(cs: seq<Contribution>, x: OpId, i: nat)
    ensures var m := IndexOf(ContributionChains(cs));
      x in m && m[x] == i <==> i < |cs| && AnswersTo(cs[i], x) && forall j :: i < j < |cs| ==> !AnswersTo(cs[j], x)
  {
    assert |ContributionChains(cs)| == |cs|;
    hide IndexOf, AnswersTo, ContributionChains;
    IndexOfMeans(ContributionChains(cs), x, i);
    forall j: nat | j < |cs| ensures x in ContributionChains(cs)[j] <==> AnswersTo(cs[j], x) { ChainAnswers(cs, j, x); }
  }

  lemma OthersAnswer(xs: seq<Attachment>, ws: seq<WorkItem>, gs: seq<Grant>, x: OpId, i: nat)
    ensures var m := IndexOf(AttachmentChains(xs));
      x in m && m[x] == i <==> i < |xs| && xs[i].opId == x && forall j :: i < j < |xs| ==> xs[j].opId != x
    ensures var m := IndexOf(WorkChains(ws));
      x in m && m[x] == i <==> i < |ws| && ws[i].id == x && forall j :: i < j < |ws| ==> ws[j].id != x
    ensures var m := IndexOf(GrantChains(gs));
      x in m && m[x] == i <==> i < |gs| && gs[i].id == x && forall j :: i < j < |gs| ==> gs[j].id != x
  {
    hide IndexOf;
    IndexOfMeans(AttachmentChains(xs), x, i);
    IndexOfMeans(WorkChains(ws), x, i);
    IndexOfMeans(GrantChains(gs), x, i);
    assert forall j :: 0 <= j < |xs| ==> (x in AttachmentChains(xs)[j] <==> xs[j].opId == x);
    assert forall j :: 0 <= j < |ws| ==> (x in WorkChains(ws)[j] <==> ws[j].id == x);
    assert forall j :: 0 <= j < |gs| ==> (x in GrantChains(gs)[j] <==> gs[j].id == x);
    assert |AttachmentChains(xs)| == |xs| && |WorkChains(ws)| == |ws| && |GrantChains(gs)| == |gs|;
    hide AttachmentChains, WorkChains, GrantChains;
  }
}
