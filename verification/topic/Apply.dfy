/** `apply` as it runs: one pass over the records that appends to slices, updates index maps and changes elements in
    place (topic/view.go). Every method is proved against the fold of module Fold. */
module ApplyLoop {
  import opened Prelude
  import opened Vocabulary
  import F = Fold

  /** What the baseline brings before its recorded frontier is looked at. */
  ghost function Adopt(r: Record): (s: F.State)
    requires r.op.Baseline?
    ensures F.Bounded(s)
  {
    var p := r.op.baseline;
    var b := F.BakedOf(p);
    F.State(
      if r.op.readable then p.state else None,
      if b.lifecycle.Unset? then Proposed else b.lifecycle,
      b.contributions, b.attachments, b.workItems, b.grants,
      {r.id} + F.BakedIds(b), Elems(r.parents) + F.BakedIds(b),
      IndexOf(ContributionChains(b.contributions)), IndexOf(AttachmentChains(b.attachments)),
      IndexOf(WorkChains(b.workItems)), IndexOf(GrantChains(b.grants)),
      0, 0)
  }

  lemma SeedContinues(r: Record)
    requires r.op.Baseline?
    ensures var s, f := Adopt(r), r.op.baseline.frontier;
      F.Seed(r) == if f == [] then s else s.(seen := s.seen + Elems(f), referenced := s.referenced + {r.id} - Elems(f))
  {
    hide IndexOf, F.BakedIds, F.Bounded;
    if r.op.baseline.frontier == [] {}
  }

  /** The variables of one run of `apply`. */
  class Folding {
    var baselineState: Option<string>
    var lifecycle: Lifecycle
    var contributions: seq<Contribution>
    var attachments: seq<Attachment>
    var workItems: seq<WorkItem>
    var grants: seq<Grant>
    var seen: set<OpId>
    var referenced: set<OpId>
    var editTarget: map<OpId, nat>
    var attIdx: map<OpId, nat>
    var workIdx: map<OpId, nat>
    var grantIdx: map<OpId, nat>
    var contentOps: nat
    var warnings: nat

    ghost function St(): F.State
      reads this
    {
      F.State(baselineState, lifecycle, contributions, attachments, workItems, grants, seen, referenced,
              editTarget, attIdx, workIdx, grantIdx, contentOps, warnings)
    }

    constructor (r: Record)
      requires r.op.Baseline?
      ensures St() == F.Seed(r)
    {
      hide IndexOf, F.BakedIds, F.Seed, F.Bounded, F.BakedOf, Elems, ContributionChains, AttachmentChains, WorkChains,
          GrantChains;
      var p := r.op.baseline;
      var b := F.BakedOf(p);
      baselineState := if r.op.readable then p.state else None;
      lifecycle := if b.lifecycle.Unset? then Proposed else b.lifecycle;
      contributions, attachments, workItems, grants := b.contributions, b.attachments, b.workItems, b.grants;
      seen, referenced := {r.id}, Elems(r.parents);
      editTarget, attIdx, workIdx, grantIdx := map[], map[], map[], map[];
      contentOps, warnings := 0, 0;
      new;
      SeedBaked(b);
      SeedContinues(r);
      if p.frontier != [] {
        referenced := referenced + {r.id};
        Continue(p.frontier);
      }
    }

    /** The baked op-ids stay resolvable, and interior. */
    method SeedBaked(ghost b: BakedState)
      requires editTarget == map[] && attIdx == map[] && workIdx == map[] && grantIdx == map[]
      requires contributions == b.contributions && attachments == b.attachments && workItems == b.workItems
        && grants == b.grants
      modifies `seen, `referenced, `editTarget, `attIdx, `workIdx, `grantIdx
      ensures editTarget == IndexOf(ContributionChains(contributions))
        && attIdx == IndexOf(AttachmentChains(attachments))
      ensures workIdx == IndexOf(WorkChains(workItems)) && grantIdx == IndexOf(GrantChains(grants))
      ensures seen == old(seen) + F.BakedIds(b) && referenced == old(referenced) + F.BakedIds(b)
    {
      hide *;
      SeedConversation();
      SeedItems();
      BakedUnion(b, old(seen));
      BakedUnion(b, old(referenced));
    }

    method SeedConversation()
      requires editTarget == map[] && attIdx == map[]
      modifies `seen, `referenced, `editTarget, `attIdx
      ensures editTarget == IndexOf(ContributionChains(contributions))
        && attIdx == IndexOf(AttachmentChains(attachments))
      ensures seen == old(seen) + editTarget.Keys + attIdx.Keys
        && referenced == old(referenced) + editTarget.Keys + attIdx.Keys
    {
      SeedContributions();
      SeedAttachments();
    }

    method SeedItems()
      requires workIdx == map[] && grantIdx == map[]
      modifies `seen, `referenced, `workIdx, `grantIdx
      ensures workIdx == IndexOf(WorkChains(workItems)) && grantIdx == IndexOf(GrantChains(grants))
      ensures seen == old(seen) + workIdx.Keys + WorkEventIds(workItems) + grantIdx.Keys + GrantEventIds(grants)
      ensures referenced ==
          old(referenced) + workIdx.Keys + WorkEventIds(workItems) + grantIdx.Keys + GrantEventIds(grants)
    {
      SeedWork();
      SeedGrants();
    }

    /** The recorded leaves are known and stay leaves. */
    method Continue(frontier: seq<OpId>)
      modifies `seen, `referenced
      ensures seen == old(seen) + Elems(frontier) && referenced == old(referenced) - Elems(frontier)
    {
      for i := 0 to |frontier|
        invariant seen == old(seen) + Elems(frontier[..i]) && referenced == old(referenced) - Elems(frontier[..i])
      {
        seen := seen + {frontier[i]};
        referenced := referenced - {frontier[i]};
        ElemsTake(frontier, i);
      }
      assert frontier[..|frontier|] == frontier;
    }

    /** An interior op: resolvable as an anchor, never again a leaf. */
    method Interior(id: OpId)
      modifies `seen, `referenced
      ensures seen == old(seen) + {id} && referenced == old(referenced) + {id}
    {
      seen := seen + {id};
      referenced := referenced + {id};
    }

    method SeedContributions()
      requires editTarget == map[]
      modifies `seen, `referenced, `editTarget
      ensures editTarget == IndexOf(ContributionChains(contributions))
      ensures seen == old(seen) + editTarget.Keys && referenced == old(referenced) + editTarget.Keys
    {
      hide IndexOf, Bind;
      IndexOfNothing();
      ghost var chains := ContributionChains(contributions);
      for i := 0 to |contributions|
        invariant editTarget == IndexOf(chains[..i])
        invariant seen == old(seen) + editTarget.Keys && referenced == old(referenced) + editTarget.Keys
      {
        ghost var before := editTarget;
        var c := contributions[i];
        BindOne(before, c.opId, i);
        assert chains[i][..1] == [c.opId];
        editTarget := editTarget[c.opId := i];
        Interior(c.opId);
        for j := 0 to |c.edits|
          invariant editTarget == Bind(before, chains[i][..j + 1], i)
          invariant seen == old(seen) + editTarget.Keys && referenced == old(referenced) + editTarget.Keys
        {
          editTarget := editTarget[c.edits[j].opId := i];
          Interior(c.edits[j].opId);
          assert chains[i][..j + 2] == chains[i][..j + 1] + [c.edits[j].opId];
          BindMore(before, chains[i][..j + 1], i, c.edits[j].opId);
        }
        assert chains[i][..|c.edits| + 1] == chains[i];
        IndexTake(chains, i);
      }
      assert chains[..|contributions|] == chains;
    }

    method SeedAttachments()
      requires attIdx == map[]
      modifies `seen, `referenced, `attIdx
      ensures attIdx == IndexOf(AttachmentChains(attachments))
      ensures seen == old(seen) + attIdx.Keys && referenced == old(referenced) + attIdx.Keys
    {
      hide IndexOf, Bind;
      IndexOfNothing();
      ghost var chains := AttachmentChains(attachments);
      for i := 0 to |attachments|
        invariant attIdx == IndexOf(chains[..i])
        invariant seen == old(seen) + attIdx.Keys && referenced == old(referenced) + attIdx.Keys
      {
        IndexTake(chains, i);
        BindOne(attIdx, attachments[i].opId, i);
        attIdx := attIdx[attachments[i].opId := i];
        Interior(attachments[i].opId);
      }
      assert chains[..|attachments|] == chains;
    }

    method SeedWorkTimeline(es: seq<WorkEvent>)
      modifies `seen, `referenced
      ensures seen == old(seen) + WorkTimelineIds(es) && referenced == old(referenced) + WorkTimelineIds(es)
    {
      for j := 0 to |es|
        invariant seen == old(seen) + WorkTimelineIds(es[..j])
          && referenced == old(referenced) + WorkTimelineIds(es[..j])
      {
        assert es[..j + 1] == es[..j] + [es[j]];
        assert WorkTimelineIds(es[..j + 1]) == WorkTimelineIds(es[..j]) + {es[j].opId};
        Interior(es[j].opId);
      }
      assert es[..|es|] == es;
    }

    method SeedWork()
      requires workIdx == map[]
      modifies `seen, `referenced, `workIdx
      ensures workIdx == IndexOf(WorkChains(workItems))
      ensures seen == old(seen) + workIdx.Keys + WorkEventIds(workItems)
      ensures referenced == old(referenced) + workIdx.Keys + WorkEventIds(workItems)
    {
      hide IndexOf, Bind, WorkEventIds, WorkTimelineIds;
      assert WorkEventIds([]) == {} by { NoWorkEvents(); }
      IndexOfNothing();
      ghost var chains := WorkChains(workItems);
      for i := 0 to |workItems|
        invariant workIdx == IndexOf(chains[..i])
        invariant seen == old(seen) + workIdx.Keys + WorkEventIds(workItems[..i])
        invariant referenced == old(referenced) + workIdx.Keys + WorkEventIds(workItems[..i])
      {
        IndexTake(chains, i);
        var w := workItems[i];
        BindOne(workIdx, w.id, i);
        workIdx := workIdx[w.id := i];
        Interior(w.id);
        SeedWorkTimeline(w.timeline);
        WorkEventsTake(workItems, i);
      }
      assert chains[..|workItems|] == chains && workItems[..|workItems|] == workItems;
    }

    method SeedGrantTimeline(es: seq<GrantEvent>)
      modifies `seen, `referenced
      ensures seen == old(seen) + GrantTimelineIds(es) && referenced == old(referenced) + GrantTimelineIds(es)
    {
      for j := 0 to |es|
        invariant seen == old(seen) + GrantTimelineIds(es[..j])
          && referenced == old(referenced) + GrantTimelineIds(es[..j])
      {
        assert es[..j + 1] == es[..j] + [es[j]];
        assert GrantTimelineIds(es[..j + 1]) == GrantTimelineIds(es[..j]) + {es[j].opId};
        Interior(es[j].opId);
      }
      assert es[..|es|] == es;
    }

    method SeedGrants()
      requires grantIdx == map[]
      modifies `seen, `referenced, `grantIdx
      ensures grantIdx == IndexOf(GrantChains(grants))
      ensures seen == old(seen) + grantIdx.Keys + GrantEventIds(grants)
      ensures referenced == old(referenced) + grantIdx.Keys + GrantEventIds(grants)
    {
      hide IndexOf, Bind, GrantEventIds, GrantTimelineIds;
      assert GrantEventIds([]) == {} by { NoGrantEvents(); }
      IndexOfNothing();
      ghost var chains := GrantChains(grants);
      for i := 0 to |grants|
        invariant grantIdx == IndexOf(chains[..i])
        invariant seen == old(seen) + grantIdx.Keys + GrantEventIds(grants[..i])
        invariant referenced == old(referenced) + grantIdx.Keys + GrantEventIds(grants[..i])
      {
        IndexTake(chains, i);
        var g := grants[i];
        BindOne(grantIdx, g.id, i);
        grantIdx := grantIdx[g.id := i];
        Interior(g.id);
        SeedGrantTimeline(g.timeline);
        GrantEventsTake(grants, i);
      }
      assert chains[..|grants|] == chains && grants[..|grants|] == grants;
    }

    // ----- one record

    method Content()
      modifies `contentOps, `lifecycle
      ensures St() == F.Content(old(St()))
    {
      contentOps := contentOps + 1;
      if lifecycle == Dormant {
        lifecycle := Active;
      }
    }

    method Warn()
      modifies `warnings
      ensures St() == F.Warn(old(St()))
    {
      warnings := warnings + 1;
    }

    method Say(c: Contribution)
      requires F.Bounded(St())
      modifies this
      ensures St() == F.AddContribution(F.Content(old(St())), c)
    {
      Content();
      editTarget := editTarget[c.opId := |contributions|];
      contributions := contributions + [c];
    }

    method Edit(sr: SeqRecord)
      requires F.Bounded(St()) && sr.record.op.Edit?
      modifies this
      ensures St() == F.ApplyEdit(old(St()), sr)
    {
      var r := sr.record;
      if !r.op.readable || IsBlank(r.op.editBody) || r.op.editAnchor == "" {
        Warn();
        return;
      }
      if r.op.editAnchor !in editTarget {
        Warn();
        return;
      }
      var idx := editTarget[r.op.editAnchor];
      var c := contributions[idx];
      if c.author != r.author {
        Warn();
        return;
      }
      Content();
      c := c.(body := r.op.editBody);
      c := c.(mentions := r.op.editMentions);
      c := c.(edits := c.edits + [EditStamp(r.id, r.author, r.ts, "", sr.streamSeq)]);
      contributions := contributions[idx := c];
      editTarget := editTarget[r.id := idx];
    }

    method Resolve(r: Record)
      requires F.Bounded(St()) && r.op.CommentResolve?
      modifies this
      ensures St() == F.ApplyResolve(old(St()), r)
    {
      if !r.op.readable || r.op.target.None? || r.op.target.value == "" {
        Warn();
        return;
      }
      if r.op.target.value !in editTarget || contributions[editTarget[r.op.target.value]].kind == Turn {
        Warn();
        return;
      }
      var idx := editTarget[r.op.target.value];
      var c := contributions[idx];
      if c.resolved {
        return;
      }
      Content();
      contributions := contributions[idx := c.(resolved := true, resolvedBy := r.author, resolvedTs := r.ts)];
    }

    method Attach(a: Attachment)
      requires F.Bounded(St())
      modifies this
      ensures St() == F.AddAttachment(F.Content(old(St())), a)
    {
      Content();
      attIdx := attIdx[a.opId := |attachments|];
      attachments := attachments + [a];
    }

    method Remove(r: Record)
      requires F.Bounded(St()) && r.op.AttachmentRemove?
      modifies this
      ensures St() == F.ApplyRemove(old(St()), r)
    {
      if !r.op.readable || r.op.target.None? || r.op.target.value == "" {
        Warn();
        return;
      }
      if r.op.target.value !in attIdx {
        Warn();
        return;
      }
      var idx := attIdx[r.op.target.value];
      var a := attachments[idx];
      if a.removed {
        return;
      }
      Content();
      attachments := attachments[idx := a.(removed := true, removedBy := r.author, removedTs := r.ts)];
    }

    method OpenWork(sr: SeqRecord)
      requires F.Bounded(St()) && sr.record.op.WorkOpen?
      modifies this
      ensures St() == F.ApplyOpen(old(St()), sr)
    {
      var r := sr.record;
      if !r.op.readable || IsBlank(r.op.title) {
        Warn();
        return;
      }
      Content();
      workIdx := workIdx[r.id := |workItems|];
      workItems := workItems + [F.NewWorkItem(sr)];
    }

    method TouchWork(sr: SeqRecord)
      requires F.Bounded(St()) && sr.record.op.WorkRef?
      modifies this
      ensures St() == F.ApplyWorkRef(old(St()), sr)
    {
      var r := sr.record;
      if !r.op.readable || r.op.target.None? || r.op.target.value == "" {
        Warn();
        return;
      }
      Content();
      if r.op.target.value !in workIdx {
        Warn();
        return;
      }
      var idx := workIdx[r.op.target.value];
      var item := workItems[idx];
      var ev := WorkEvent(r.id, r.op.act, r.author, r.ts, false, "", sr.streamSeq);
      match r.op.act {
        case Claim =>
          if item.status == Open {
            item := item.(status := Claimed, owner := r.author);
          } else {
            ev := ev.(voided := true);
          }
        case Finish =>
          if item.status == Done {
            ev := ev.(voided := true);
          } else {
            item := item.(status := Done);
          }
        case Abandon =>
          if item.status == Claimed {
            item := item.(status := Open, owner := "");
          } else {
            ev := ev.(voided := true);
          }
      }
      item := item.(timeline := item.timeline + [ev]);
      workItems := workItems[idx := item];
    }

    method IssueGrant(sr: SeqRecord)
      requires F.Bounded(St()) && sr.record.op.GrantIssue?
      modifies this
      ensures St() == F.ApplyIssue(old(St()), sr)
    {
      var r := sr.record;
      if !r.op.readable || IsBlank(r.op.grantee) || IsBlank(r.op.scope) {
        Warn();
        return;
      }
      Content();
      grantIdx := grantIdx[r.id := |grants|];
      grants := grants + [F.NewGrant(sr)];
    }

    method RevokeGrant(sr: SeqRecord)
      requires F.Bounded(St()) && sr.record.op.GrantRevoke?
      modifies this
      ensures St() == F.ApplyRevoke(old(St()), sr)
    {
      var r := sr.record;
      if !r.op.readable || r.op.target.None? || r.op.target.value == "" {
        Warn();
        return;
      }
      Content();
      if r.op.target.value !in grantIdx {
        Warn();
        return;
      }
      var idx := grantIdx[r.op.target.value];
      var g := grants[idx];
      var ev := GrantEvent(r.id, r.author, r.ts, false, "", sr.streamSeq);
      if r.author != g.granter || g.status != Standing {
        ev := ev.(voided := true);
      } else {
        g := g.(status := Revoked);
      }
      g := g.(timeline := g.timeline + [ev]);
      grants := grants[idx := g];
    }

    method Transition(op: Op)
      requires F.Bounded(St()) && op.LifeTransition?
      modifies this
      ensures St() == F.ApplyTransition(old(St()), op)
    {
      if lifecycle == Archived {
        Warn();
        return;
      }
      if op.readable {
        match op.to {
          case Closed => lifecycle := Closed;
          case Archived => lifecycle := Archived;
          case Dormant =>
            if lifecycle == Closed {
              Warn();
            } else {
              lifecycle := Dormant;
            }
          case _ =>
        }
      }
    }

    method Checkpoint(r: Record)
      requires r.op.Baseline?
      modifies this
      ensures St() == F.ApplyCheckpoint(old(St()), r)
    {
      referenced := referenced + {r.id};
      if r.op.readable {
        Continue(r.op.baseline.frontier);
      }
      Warn();
    }

    /** Every op is observed, and builds upon its parents. */
    method NoteRecord(r: Record)
      modifies `seen, `referenced
      ensures St() == F.Note(old(St()), r)
    {
      seen := seen + {r.id};
      for i := 0 to |r.parents|
        invariant seen == old(seen) + {r.id} && referenced == old(referenced) + Elems(r.parents[..i])
      {
        referenced := referenced + {r.parents[i]};
        ElemsTake(r.parents, i);
      }
      assert r.parents[..|r.parents|] == r.parents;
    }

    method ApplyRecord(sr: SeqRecord)
      requires F.Bounded(St())
      modifies this
      ensures St() == F.Step(old(St()), sr)
    {
      var r := sr.record;
      NoteRecord(r);
      hide F.ApplyEdit, F.ApplyResolve, F.ApplyRemove, F.ApplyOpen, F.ApplyWorkRef, F.ApplyIssue, F.ApplyRevoke,
          F.ApplyTransition, F.ApplyCheckpoint;
      match r.op {
        case TurnPost(_, _, _) => Say(F.NewTurn(sr));
        case CommentAdd(_, _, _, _) => Say(F.NewComment(sr));
        case Edit(_, _, _, _) => Edit(sr);
        case CommentResolve(_, _) => Resolve(r);
        case AttachmentAdd(_, _, _, _, _, _) => Attach(F.NewAttachment(sr));
        case AttachmentRemove(_, _) => Remove(r);
        case WorkOpen(_, _, _, _) => OpenWork(sr);
        case WorkRef(_, _, _) => TouchWork(sr);
        case GrantIssue(_, _, _, _) => IssueGrant(sr);
        case GrantRevoke(_, _) => RevokeGrant(sr);
        case LifeTransition(_, _) => Transition(r.op);
        case Baseline(_, _) => Checkpoint(r);
        case Unknown(_) => Warn();
      }
    }

    // ----- after the last record

    method Settle()
      modifies `lifecycle
      ensures lifecycle == F.SettledLifecycle(old(St()))
    {
      if lifecycle == Proposed && contentOps > 0 {
        lifecycle := Active;
      }
    }

    method FlagContributions()
      modifies `contributions
      ensures contributions == F.MarkContributions(old(contributions), seen)
    {
      ghost var cs := contributions;
      for i := 0 to |contributions|
        invariant |contributions| == |cs|
        invariant forall k :: 0 <= k < i ==> contributions[k] == F.MarkContributions(cs, seen)[k]
        invariant forall k :: i <= k < |cs| ==> contributions[k] == cs[k]
      {
        var c := contributions[i];
        if c.anchor != "" && c.anchor !in seen {
          contributions := contributions[i := c.(dangling := true)];
        }
      }
    }

    method FlagAttachments()
      modifies `attachments
      ensures attachments == F.MarkAttachments(old(attachments), seen)
    {
      ghost var xs := attachments;
      for i := 0 to |attachments|
        invariant |attachments| == |xs|
        invariant forall k :: 0 <= k < i ==> attachments[k] == F.MarkAttachments(xs, seen)[k]
        invariant forall k :: i <= k < |xs| ==> attachments[k] == xs[k]
      {
        var a := attachments[i];
        if a.anchor != "" && a.anchor !in seen {
          attachments := attachments[i := a.(dangling := true)];
        }
      }
    }

    /** The observed ids nobody names as parent, sorted. Map iteration visits `seen` in any order. */
    method Frontier() returns (frontier: seq<OpId>)
      ensures frontier == SortIds(seen - referenced)
    {
      var rest := seen;
      frontier := [];
      while rest != {}
        invariant rest <= seen && Elems(frontier) == seen - rest - referenced && Distinct(frontier)
        decreases rest
      {
        var id :| id in rest;
        rest := rest - {id};
        assert forall i :: 0 <= i < |frontier| ==> frontier[i] in Elems(frontier);
        if id !in referenced {
          assert Elems(frontier + [id]) == Elems(frontier) + {id};
          frontier := frontier + [id];
        }
      }
      frontier := SortStrings(frontier);
      SortedUnique(frontier, SortIds(seen - referenced));
    }
  }

  lemma ElemsTake<T>(xs: seq<T>, i: nat)
    requires i < |xs|
    ensures Elems(xs[..i + 1]) == Elems(xs[..i]) + {xs[i]}
  {
    assert xs[..i + 1] == xs[..i] + [xs[i]];
  }

  lemma BakedUnion(b: BakedState, o: set<OpId>)
    ensures o + IndexOf(ContributionChains(b.contributions)).Keys + IndexOf(AttachmentChains(b.attachments)).Keys
            + IndexOf(WorkChains(b.workItems)).Keys + WorkEventIds(b.workItems)
            + IndexOf(GrantChains(b.grants)).Keys + GrantEventIds(b.grants)
            == o + F.BakedIds(b)
  {
    hide IndexOf, ContributionChains, AttachmentChains, WorkChains, GrantChains, WorkEventIds, GrantEventIds;
  }

  lemma IndexOfNothing()
    ensures IndexOf([]) == map[] && forall chains: seq<seq<OpId>> :: IndexOf(chains[..0]) == map[]
  {
  }

  lemma BindOne(m: map<OpId, nat>, id: OpId, i: nat)
    ensures m[id := i] == Bind(m, [id], i) && m[id := i].Keys == m.Keys + {id}
  {
  }

  lemma NoWorkEvents()
    ensures WorkEventIds([]) == {}
  {
  }

  lemma NoGrantEvents()
    ensures GrantEventIds([]) == {}
  {
  }

  lemma WorkEventsTake(ws: seq<WorkItem>, i: nat)
    requires i < |ws|
    ensures WorkEventIds(ws[..i + 1]) == WorkEventIds(ws[..i]) + WorkTimelineIds(ws[i].timeline)
  {
    assert ws[..i + 1] == ws[..i] + [ws[i]];
  }

  lemma GrantEventsTake(gs: seq<Grant>, i: nat)
    requires i < |gs|
    ensures GrantEventIds(gs[..i + 1]) == GrantEventIds(gs[..i]) + GrantTimelineIds(gs[i].timeline)
  {
    assert gs[..i + 1] == gs[..i] + [gs[i]];
  }

  lemma IndexTake(chains: seq<seq<OpId>>, i: nat)
    requires i < |chains|
    ensures IndexOf(chains[..i + 1]) == Bind(IndexOf(chains[..i]), chains[i], i)
  {
    assert chains[..i + 1] == chains[..i] + [chains[i]];
    IndexOfAppend(chains[..i], chains[i]);
  }

  /** sort.Strings on distinct strings. */
  method SortStrings(xs: seq<string>) returns (ys: seq<string>)
    requires Distinct(xs)
    ensures StrictlySorted(ys) && Elems(ys) == Elems(xs)
  {
    ys := [];
    for i := 0 to |xs|
      invariant StrictlySorted(ys) && Elems(ys) == Elems(xs[..i])
    {
      assert xs[i] !in Elems(xs[..i]);
      ElemsTake(xs, i);
      ys := Insert(ys, xs[i]);
    }
    assert xs[..|xs|] == xs;
  }

  method Insert(ys: seq<string>, x: string) returns (zs: seq<string>)
    requires StrictlySorted(ys) && x !in Elems(ys)
    ensures StrictlySorted(zs) && Elems(zs) == Elems(ys) + {x}
  {
    var k := 0;
    while k < |ys| && Less(ys[k], x)
      invariant 0 <= k <= |ys| && forall i :: 0 <= i < k ==> Less(ys[i], x)
    {
      k := k + 1;
    }
    forall i | k <= i < |ys| ensures Less(x, ys[i]) {
      assert ys[k] in Elems(ys);
      LessTotal(x, ys[k]);
      if i > k { LessTransitive(x, ys[k], ys[i]); }
    }
    zs := ys[..k] + [x] + ys[k..];
    InsertSorted(ys, x, k);
  }

  lemma InsertSorted(ys: seq<string>, x: string, k: nat)
    requires StrictlySorted(ys) && k <= |ys|
    requires (forall i :: 0 <= i < k ==> Less(ys[i], x)) && forall i :: k <= i < |ys| ==> Less(x, ys[i])
    ensures var zs := ys[..k] + [x] + ys[k..]; StrictlySorted(zs) && Elems(zs) == Elems(ys) + {x}
  {
    var zs := ys[..k] + [x] + ys[k..];
    assert ys == ys[..k] + ys[k..];
    hide Less;
    forall i, j | 0 <= i < j < |zs| ensures Less(zs[i], zs[j]) {
      var a, b := if i <= k then i else i - 1, if j <= k then j else j - 1;
      assert i != k ==> zs[i] == ys[a];
      assert j != k ==> zs[j] == ys[b];
    }
  }

  method FoldRecords(recs: seq<SeqRecord>) returns (f: Folding)
    requires F.StartsWithBaseline(recs)
    ensures fresh(f) && f.St() == F.FoldLog(recs)
  {
    hide F.Seed, F.Step, F.FoldFrom;
    f := new Folding(recs[0].record);
    ghost var seed := F.Seed(recs[0].record);
    F.FoldFromNothing(seed);
    assert recs[1..1] == [];
    for i := 1 to |recs|
      invariant fresh(f) && f.St() == F.FoldFrom(seed, recs[1..i])
    {
      assert recs[1..i + 1] == recs[1..i] + [recs[i]];
      F.FoldFromAppend(seed, recs[1..i], recs[i]);
      f.ApplyRecord(recs[i]);
    }
    assert recs[1..|recs|] == recs[1..];
  }

  method Apply(path: string, recs: seq<SeqRecord>) returns (mt: MaterializedTopic)
    ensures mt == F.View(path, recs) && F.Heads(path, recs, mt)
  {
    hide F.Heads;
    F.ViewHeads(path, recs);
    if |recs| == 0 {
      return F.MalformedView(path, NoBaseline);
    }
    if !recs[0].record.op.Baseline? {
      return F.MalformedView(path, NotABaseline);
    }
    var f := FoldRecords(recs);
    hide F.FoldLog, F.SettledLifecycle, F.MarkContributions, F.MarkAttachments;
    f.Settle();
    f.FlagContributions();
    f.FlagAttachments();
    var frontier := f.Frontier();
    mt := MaterializedTopic(
      path, f.baselineState, recs[0].record.ts, recs[0].record.id, f.lifecycle,
      f.contributions, f.attachments, f.workItems, f.grants, frontier, None, f.warnings);
  }
}
