/** What every fold state satisfies when op-ids are distinct: its index maps are those the elements determine. */
module Soundness {
  import opened Prelude
  import opened Vocabulary
  import opened Fold

  function ElementIds(s: State): set<OpId> {
    BakedIds(BakedState(s.contributions, s.attachments, s.workItems, s.grants, Unset))
  }

  /** The index maps are those a rollup's seeding would rebuild from the elements. */
  ghost predicate Sound(s: State) {
    && s.editTarget == IndexOf(ContributionChains(s.contributions))
    && s.attIdx == IndexOf(AttachmentChains(s.attachments))
    && s.workIdx == IndexOf(WorkChains(s.workItems))
    && s.grantIdx == IndexOf(GrantChains(s.grants))
    && WorkEventIds(s.workItems) <= s.seen && GrantEventIds(s.grants) <= s.seen
    && s.editTarget.Keys <= s.seen && s.attIdx.Keys <= s.seen && s.workIdx.Keys <= s.seen && s.grantIdx.Keys <= s.seen
    && !s.lifecycle.Unset?
  }

  lemma SeedSound(r: Record)
    requires r.op.Baseline?
    ensures Sound(Seed(r))
  {
  }

  lemma SoundAdd(s: State, c: Contribution)
    requires Bounded(s) && Sound(s) && c.opId in s.seen && c.edits == []
    ensures Sound(AddContribution(Content(s), c))
  {
    hide IndexOf;
    assert [c.opId] + StampIds(c.edits) == [c.opId];
    assert ContributionChains(s.contributions + [c]) == ContributionChains(s.contributions) + [[c.opId]];
    IndexOfAppend(ContributionChains(s.contributions), [c.opId]);
  }

  lemma SoundEdit(s: State, sr: SeqRecord)
    requires Bounded(s) && Sound(s) && sr.record.op.Edit? && sr.record.id in s.seen && sr.record.id !in s.editTarget
    ensures Sound(ApplyEdit(s, sr))
  {
    hide IndexOf;
    var r := sr.record;
    if !r.op.readable || IsBlank(r.op.editBody) || r.op.editAnchor == "" {
    } else if r.op.editAnchor in s.editTarget {
      var i := s.editTarget[r.op.editAnchor];
      var c := s.contributions[i];
      if c.author == r.author {
        var chains := ContributionChains(s.contributions);
        assert StampIds(Edited(c, sr).edits) == StampIds(c.edits) + [r.id];
        assert [c.opId] + (StampIds(c.edits) + [r.id]) == [c.opId] + StampIds(c.edits) + [r.id];
        assert ContributionChains(s.contributions[i := Edited(c, sr)]) == chains[i := chains[i] + [r.id]];
        IndexOfExtend(chains, i, r.id);
      }
    }
  }

  lemma SoundResolve(s: State, r: Record)
    requires Bounded(s) && Sound(s) && r.op.CommentResolve?
    ensures Sound(ApplyResolve(s, r))
  {
    hide IndexOf;
    if TargetOf(r.op).Some? && TargetOf(r.op).value in s.editTarget {
      var i := s.editTarget[TargetOf(r.op).value];
      var c := s.contributions[i];
      if !c.kind.Turn? && !c.resolved {
        assert ContributionChains(s.contributions[i := c.(resolved := true, resolvedBy := r.author,
                                                          resolvedTs := r.ts)])
            == ContributionChains(s.contributions);
      }
    }
  }

  lemma SoundAttach(s: State, a: Attachment)
    requires Bounded(s) && Sound(s) && a.opId in s.seen
    ensures Sound(AddAttachment(Content(s), a))
  {
    hide IndexOf;
    assert AttachmentChains(s.attachments + [a]) == AttachmentChains(s.attachments) + [[a.opId]];
    IndexOfAppend(AttachmentChains(s.attachments), [a.opId]);
  }

  lemma SoundRemove(s: State, r: Record)
    requires Bounded(s) && Sound(s) && r.op.AttachmentRemove?
    ensures Sound(ApplyRemove(s, r))
  {
    hide IndexOf;
    if TargetOf(r.op).Some? && TargetOf(r.op).value in s.attIdx {
      var i := s.attIdx[TargetOf(r.op).value];
      var a := s.attachments[i];
      if !a.removed {
        assert AttachmentChains(s.attachments[i := a.(removed := true, removedBy := r.author, removedTs := r.ts)])
            == AttachmentChains(s.attachments);
      }
    }
  }

  lemma SoundOpen(s: State, sr: SeqRecord)
    requires Bounded(s) && Sound(s) && sr.record.op.WorkOpen? && sr.record.id in s.seen
    ensures Sound(ApplyOpen(s, sr))
  {
    hide IndexOf;
    if !sr.record.op.readable || IsBlank(sr.record.op.title) {
    } else {
      assert WorkChains(s.workItems + [NewWorkItem(sr)]) == WorkChains(s.workItems) + [[sr.record.id]];
      IndexOfAppend(WorkChains(s.workItems), [sr.record.id]);
      assert WorkEventIds(s.workItems + [NewWorkItem(sr)]) == WorkEventIds(s.workItems);
    }
  }

  lemma SoundWorkRef(s: State, sr: SeqRecord)
    requires Bounded(s) && Sound(s) && sr.record.op.WorkRef? && sr.record.id in s.seen
    ensures Sound(ApplyWorkRef(s, sr))
  {
    hide IndexOf;
    if TargetOf(sr.record.op).Some? && TargetOf(sr.record.op).value in s.workIdx {
      var i := s.workIdx[TargetOf(sr.record.op).value];
      var w := Touched(s.workItems[i], sr);
      assert WorkChains(s.workItems[i := w]) == WorkChains(s.workItems);
      assert WorkEventIds(s.workItems[i := w]) <= WorkEventIds(s.workItems) + {sr.record.id} by {
        forall v, ev | v in s.workItems[i := w] && ev in v.timeline
          ensures ev.opId in WorkEventIds(s.workItems) + {sr.record.id}
        {
          if v == w {
            assert ev in s.workItems[i].timeline || ev.opId == sr.record.id;
            assert s.workItems[i] in s.workItems;
          }
        }
      }
    }
  }

  lemma SoundIssue(s: State, sr: SeqRecord)
    requires Bounded(s) && Sound(s) && sr.record.op.GrantIssue? && sr.record.id in s.seen
    ensures Sound(ApplyIssue(s, sr))
  {
    hide IndexOf;
    if !sr.record.op.readable || IsBlank(sr.record.op.grantee) || IsBlank(sr.record.op.scope) {
    } else {
      assert GrantChains(s.grants + [NewGrant(sr)]) == GrantChains(s.grants) + [[sr.record.id]];
      IndexOfAppend(GrantChains(s.grants), [sr.record.id]);
      assert GrantEventIds(s.grants + [NewGrant(sr)]) == GrantEventIds(s.grants);
    }
  }

  lemma SoundRevoke(s: State, sr: SeqRecord)
    requires Bounded(s) && Sound(s) && sr.record.op.GrantRevoke? && sr.record.id in s.seen
    ensures Sound(ApplyRevoke(s, sr))
  {
    hide IndexOf;
    if TargetOf(sr.record.op).Some? && TargetOf(sr.record.op).value in s.grantIdx {
      var i := s.grantIdx[TargetOf(sr.record.op).value];
      var g := Challenged(s.grants[i], sr);
      assert GrantChains(s.grants[i := g]) == GrantChains(s.grants);
      assert GrantEventIds(s.grants[i := g]) <= GrantEventIds(s.grants) + {sr.record.id} by {
        forall h, ev | h in s.grants[i := g] && ev in h.timeline
          ensures ev.opId in GrantEventIds(s.grants) + {sr.record.id}
        {
          if h == g { assert ev in s.grants[i].timeline || ev.opId == sr.record.id; assert s.grants[i] in s.grants; }
        }
      }
    }
  }

  /** Soundness is about the elements, their index maps and the seen ids only. */
  lemma SoundFrame(s: State, t: State)
    requires Sound(s) && s.seen <= t.seen && !t.lifecycle.Unset?
    requires s.contributions == t.contributions && s.attachments == t.attachments && s.workItems == t.workItems
      && s.grants == t.grants
    requires s.editTarget == t.editTarget && s.attIdx == t.attIdx && s.workIdx == t.workIdx && s.grantIdx == t.grantIdx
    ensures Sound(t)
  {
    hide IndexOf;
  }

  lemma SoundTransition(s: State, op: Op)
    requires Bounded(s) && Sound(s) && op.LifeTransition?
    ensures Sound(ApplyTransition(s, op))
  {
    assert !s.lifecycle.Unset?;
    hide Sound, ApplyTransition;
    SoundFrame(s, ApplyTransition(s, op));
  }

  lemma SoundCheckpoint(s: State, r: Record)
    requires Sound(s) && r.op.Baseline?
    ensures Sound(ApplyCheckpoint(s, r))
  {
    assert !s.lifecycle.Unset?;
    hide Sound;
    SoundFrame(s, ApplyCheckpoint(s, r));
  }

  lemma SoundWarn(s: State)
    requires Sound(s)
    ensures Sound(Warn(s))
  {
  }

  lemma SoundApply(s: State, sr: SeqRecord)
    requires Bounded(s) && Sound(s) && sr.record.id in s.seen && (sr.record.op.Edit? ==> sr.record.id !in s.editTarget)
    ensures Sound(Apply(s, sr))
  {
    hide Sound, IndexOf, KeepsGraph, ApplyEdit, ApplyResolve, ApplyRemove, ApplyOpen, ApplyWorkRef, ApplyIssue,
        ApplyRevoke, ApplyTransition, ApplyCheckpoint, AddContribution, AddAttachment;
    match sr.record.op
    case TurnPost(_, _, _) => SoundAdd(s, NewTurn(sr));
    case CommentAdd(_, _, _, _) => SoundAdd(s, NewComment(sr));
    case Edit(_, _, _, _) => SoundEdit(s, sr);
    case CommentResolve(_, _) => SoundResolve(s, sr.record);
    case AttachmentAdd(_, _, _, _, _, _) => SoundAttach(s, NewAttachment(sr));
    case AttachmentRemove(_, _) => SoundRemove(s, sr.record);
    case WorkOpen(_, _, _, _) => SoundOpen(s, sr);
    case WorkRef(_, _, _) => SoundWorkRef(s, sr);
    case GrantIssue(_, _, _, _) => SoundIssue(s, sr);
    case GrantRevoke(_, _) => SoundRevoke(s, sr);
    case LifeTransition(_, _) => SoundTransition(s, sr.record.op);
    case Baseline(_, _) => SoundCheckpoint(s, sr.record);
    case Unknown(_) => SoundWarn(s);
  }

  /** Distinct op-ids keep the index maps rebuildable. */
  lemma SoundStep(s: State, sr: SeqRecord)
    requires Bounded(s) && Sound(s) && (sr.record.op.Baseline? || sr.record.id !in s.seen)
    ensures Sound(Step(s, sr))
  {
    var n := Note(s, sr.record);
    assert !s.lifecycle.Unset? && (sr.record.op.Baseline? || sr.record.id !in s.editTarget);
    hide Sound, IndexOf, Apply;
    SoundFrame(s, n);
    SoundApply(n, sr);
  }

  // ----- causal logs

  /** The ids a record carries or names in the graph. */
  function Mentions(r: Record): set<OpId> {
    {r.id} + Elems(r.parents)
    + if r.op.Baseline? then Elems(r.op.baseline.frontier) + BakedIds(BakedOf(r.op.baseline)) else {}
  }

  function Mentioned(log: seq<SeqRecord>): set<OpId> {
    if |log| == 0 then {} else Mentioned(log[..|log| - 1]) + Mentions(log[|log| - 1].record)
  }

  /** Every operation of `tail` brings a new id that nothing before it names: ids are distinct and parents come first.
      Mid-log checkpoints are exempt. */
  ghost predicate Causal(known: set<OpId>, tail: seq<SeqRecord>) {
    |tail| == 0 ||
    (var n := |tail| - 1;
     var r := tail[n].record;
     && Causal(known, tail[..n])
     && (r.op.Baseline? || (r.id !in known + Mentioned(tail[..n]) && r.id !in r.parents)))
  }

  /** A log whose ids are distinct and causally ordered from its first baseline on. */
  ghost predicate CausalLog(log: seq<SeqRecord>) {
    StartsWithBaseline(log) && Causal(Mentions(log[0].record), log[1..])
  }

  /** `known` holds every id the state has seen or knows to be built upon. */
  ghost predicate Covers(known: set<OpId>, s: State) {
    s.seen <= known && s.referenced <= known
  }

  lemma CoversStep(known: set<OpId>, s: State, sr: SeqRecord)
    requires Bounded(s) && Covers(known, s)
    ensures Covers(known + Mentions(sr.record), Step(s, sr))
  {
    hide Apply, Mentions;
    GraphStep(s, sr);
    assert {sr.record.id} + Elems(sr.record.parents) <= Mentions(sr.record) by { MentionsHas(sr.record); }
    if sr.record.op.Baseline? {
      assert Elems(sr.record.op.baseline.frontier) <= Mentions(sr.record) by { MentionsHas(sr.record); }
    }
  }

  lemma MentionsHas(r: Record)
    ensures {r.id} + Elems(r.parents) <= Mentions(r)
    ensures r.op.Baseline? ==> Elems(r.op.baseline.frontier) <= Mentions(r)
  {
  }

  /** What an operation does to the graph bookkeeping. */
  lemma GraphStep(s: State, sr: SeqRecord)
    requires Bounded(s)
    ensures !sr.record.op.Baseline? ==> Step(s, sr).seen == s.seen + {sr.record.id}
    ensures !sr.record.op.Baseline? ==> Step(s, sr).referenced == s.referenced + Elems(sr.record.parents)
    ensures sr.record.op.Baseline? ==>
      Step(s, sr).seen <= s.seen + {sr.record.id} + Elems(sr.record.op.baseline.frontier)
    ensures sr.record.op.Baseline? ==>
      Step(s, sr).referenced <= s.referenced + Elems(sr.record.parents) + {sr.record.id}
  {
    hide ApplyEdit, ApplyResolve, ApplyRemove, ApplyOpen, ApplyWorkRef, ApplyIssue, ApplyRevoke, ApplyTransition;
  }

  lemma CoversSeed(r: Record)
    requires r.op.Baseline?
    ensures Covers(Mentions(r), Seed(r))
  {
    hide BakedIds;
  }

  /** Along a causal tail the fold stays sound, and the ids it knows are those mentioned. */
  lemma {:induction false} TailSound(known: set<OpId>, s: State, tail: seq<SeqRecord>)
    requires Bounded(s) && Sound(s) && Covers(known, s) && Causal(known, tail)
    ensures Sound(FoldFrom(s, tail)) && Covers(known + Mentioned(tail), FoldFrom(s, tail))
  {
    if |tail| > 0 {
      var n := |tail| - 1;
      TailSound(known, s, tail[..n]);
      var t := FoldFrom(s, tail[..n]);
      hide Sound, Step, Mentions;
      SoundStep(t, tail[n]);
      CoversStep(known + Mentioned(tail[..n]), t, tail[n]);
      assert known + Mentioned(tail[..n]) + Mentions(tail[n].record) == known + Mentioned(tail);
    }
  }

  lemma LogSound(log: seq<SeqRecord>)
    requires CausalLog(log)
    ensures Sound(FoldLog(log)) && Covers(Mentions(log[0].record) + Mentioned(log[1..]), FoldLog(log))
  {
    hide Sound, Seed, Mentions;
    SeedSound(log[0].record);
    CoversSeed(log[0].record);
    TailSound(Mentions(log[0].record), Seed(log[0].record), log[1..]);
  }
}
