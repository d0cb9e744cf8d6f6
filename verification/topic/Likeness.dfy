/** When two elements say the same, field by field: everything but stream sequences, signature statuses and dangling
    marks (topic/rollup.go, the fields baked state never stores). */
module Likeness {
  import opened Prelude
  import opened Vocabulary
  import opened EssenceOfTopic

  // ----- contributions

  ghost predicate SameStamp(e: EditStamp, f: EditStamp) {
    e.opId == f.opId && e.author == f.author && e.ts == f.ts
  }

  ghost predicate SameStamps(es: seq<EditStamp>, fs: seq<EditStamp>) {
    |es| == |fs| && forall i :: 0 <= i < |es| ==> SameStamp(es[i], fs[i])
  }

  ghost predicate SameTalk(c: Contribution, d: Contribution) {
    && c.opId == d.opId && c.author == d.author && c.ts == d.ts && c.kind == d.kind
    && c.body == d.body && c.mentions == d.mentions && c.anchor == d.anchor
    && c.resolved == d.resolved && c.resolvedBy == d.resolvedBy && c.resolvedTs == d.resolvedTs
    && c.authority == d.authority && SameStamps(c.edits, d.edits)
  }

  ghost predicate SameTalks(cs: seq<Contribution>, ds: seq<Contribution>) {
    |cs| == |ds| && forall i :: 0 <= i < |cs| ==> SameTalk(cs[i], ds[i])
  }

  // ----- attachments

  ghost predicate SameFile(a: Attachment, b: Attachment) {
    && a.opId == b.opId && a.author == b.author && a.ts == b.ts
    && a.name == b.name && a.blob == b.blob && a.digest == b.digest && a.size == b.size
    && a.contentType == b.contentType && a.anchor == b.anchor
    && a.removed == b.removed && a.removedBy == b.removedBy && a.removedTs == b.removedTs
  }

  ghost predicate SameFiles(xs: seq<Attachment>, ys: seq<Attachment>) {
    |xs| == |ys| && forall i :: 0 <= i < |xs| ==> SameFile(xs[i], ys[i])
  }

  // ----- work items

  ghost predicate SameEvent(e: WorkEvent, f: WorkEvent) {
    e.opId == f.opId && e.act == f.act && e.author == f.author && e.ts == f.ts && e.voided == f.voided
  }

  ghost predicate SameEvents(es: seq<WorkEvent>, fs: seq<WorkEvent>) {
    |es| == |fs| && forall i :: 0 <= i < |es| ==> SameEvent(es[i], fs[i])
  }

  ghost predicate SameItem(v: WorkItem, w: WorkItem) {
    && v.id == w.id && v.author == w.author && v.ts == w.ts
    && v.title == w.title && v.body == w.body && v.mentions == w.mentions
    && v.status == w.status && v.owner == w.owner && SameEvents(v.timeline, w.timeline)
  }

  ghost predicate SameItems(vs: seq<WorkItem>, ws: seq<WorkItem>) {
    |vs| == |ws| && forall i :: 0 <= i < |vs| ==> SameItem(vs[i], ws[i])
  }

  // ----- grants

  ghost predicate SameRevocation(e: GrantEvent, f: GrantEvent) {
    e.opId == f.opId && e.author == f.author && e.ts == f.ts && e.voided == f.voided
  }

  ghost predicate SameRevocations(es: seq<GrantEvent>, fs: seq<GrantEvent>) {
    |es| == |fs| && forall i :: 0 <= i < |es| ==> SameRevocation(es[i], fs[i])
  }

  ghost predicate SameGrant(g: Grant, h: Grant) {
    && g.id == h.id && g.granter == h.granter && g.grantee == h.grantee && g.scope == h.scope
    && g.ts == h.ts && g.expires == h.expires && g.status == h.status && SameRevocations(g.timeline, h.timeline)
  }

  ghost predicate SameGrants(gs: seq<Grant>, hs: seq<Grant>) {
    |gs| == |hs| && forall i :: 0 <= i < |gs| ==> SameGrant(gs[i], hs[i])
  }

  // ----- the cleaning forgets exactly the rest

  lemma StampsAlike(es: seq<EditStamp>, fs: seq<EditStamp>)
    ensures CleanStamps(es) == CleanStamps(fs) <==> SameStamps(es, fs)
  {
    var cs, ds := CleanStamps(es), CleanStamps(fs);
    assert |cs| == |es| && |ds| == |fs|;
    if cs == ds {
      forall i | 0 <= i < |es| ensures SameStamp(es[i], fs[i]) { assert cs[i] == ds[i]; }
    }
  }

  lemma EventsAlike(es: seq<WorkEvent>, fs: seq<WorkEvent>)
    ensures CleanWorkEvents(es) == CleanWorkEvents(fs) <==> SameEvents(es, fs)
  {
    var cs, ds := CleanWorkEvents(es), CleanWorkEvents(fs);
    assert |cs| == |es| && |ds| == |fs|;
    if cs == ds {
      forall i | 0 <= i < |es| ensures SameEvent(es[i], fs[i]) { assert cs[i] == ds[i]; }
    }
  }

  lemma RevocationsAlike(es: seq<GrantEvent>, fs: seq<GrantEvent>)
    ensures CleanGrantEvents(es) == CleanGrantEvents(fs) <==> SameRevocations(es, fs)
  {
    var cs, ds := CleanGrantEvents(es), CleanGrantEvents(fs);
    assert |cs| == |es| && |ds| == |fs|;
    if cs == ds {
      forall i | 0 <= i < |es| ensures SameRevocation(es[i], fs[i]) { assert cs[i] == ds[i]; }
    }
  }

  lemma TalkAlike(c: Contribution, d: Contribution)
    ensures CleanContribution(c) == CleanContribution(d) <==> SameTalk(c, d)
  {
    StampsAlike(c.edits, d.edits);
    hide CleanStamps, SameStamps;
  }

  lemma FileAlike(a: Attachment, b: Attachment)
    ensures CleanAttachment(a) == CleanAttachment(b) <==> SameFile(a, b)
  {
  }

  lemma ItemAlike(v: WorkItem, w: WorkItem)
    ensures CleanWorkItem(v) == CleanWorkItem(w) <==> SameItem(v, w)
  {
    EventsAlike(v.timeline, w.timeline);
    hide CleanWorkEvents, SameEvents;
  }

  lemma GrantAlike(g: Grant, h: Grant)
    ensures CleanGrant(g) == CleanGrant(h) <==> SameGrant(g, h)
  {
    RevocationsAlike(g.timeline, h.timeline);
    hide CleanGrantEvents, SameRevocations;
  }

  lemma TalksAlike(cs: seq<Contribution>, ds: seq<Contribution>)
    ensures CleanContributions(cs) == CleanContributions(ds) <==> SameTalks(cs, ds)
  {
    var xs, ys := CleanContributions(cs), CleanContributions(ds);
    assert |xs| == |cs| && |ys| == |ds|;
    hide CleanContribution, SameTalk;
    if |cs| == |ds| {
      forall i | 0 <= i < |cs| ensures xs[i] == ys[i] <==> SameTalk(cs[i], ds[i]) { TalkAlike(cs[i], ds[i]); }
    }
  }

  lemma FilesAlike(cs: seq<Attachment>, ds: seq<Attachment>)
    ensures CleanAttachments(cs) == CleanAttachments(ds) <==> SameFiles(cs, ds)
  {
    var xs, ys := CleanAttachments(cs), CleanAttachments(ds);
    assert |xs| == |cs| && |ys| == |ds|;
    hide CleanAttachment, SameFile;
    if |cs| == |ds| {
      forall i | 0 <= i < |cs| ensures xs[i] == ys[i] <==> SameFile(cs[i], ds[i]) { FileAlike(cs[i], ds[i]); }
    }
  }

  lemma ItemsAlike(cs: seq<WorkItem>, ds: seq<WorkItem>)
    ensures CleanWorkItems(cs) == CleanWorkItems(ds) <==> SameItems(cs, ds)
  {
    var xs, ys := CleanWorkItems(cs), CleanWorkItems(ds);
    assert |xs| == |cs| && |ys| == |ds|;
    hide CleanWorkItem, SameItem;
    if |cs| == |ds| {
      forall i | 0 <= i < |cs| ensures xs[i] == ys[i] <==> SameItem(cs[i], ds[i]) { ItemAlike(cs[i], ds[i]); }
    }
  }

  lemma GrantsAlike(cs: seq<Grant>, ds: seq<Grant>)
    ensures CleanGrants(cs) == CleanGrants(ds) <==> SameGrants(cs, ds)
  {
    var xs, ys := CleanGrants(cs), CleanGrants(ds);
    assert |xs| == |cs| && |ys| == |ds|;
    hide CleanGrant, SameGrant;
    if |cs| == |ds| {
      forall i | 0 <= i < |cs| ensures xs[i] == ys[i] <==> SameGrant(cs[i], ds[i]) { GrantAlike(cs[i], ds[i]); }
    }
  }

  // ----- what a cleaned element is: the same, with nothing volatile left

  /** Baked state: says what `cs` says, and carries no sequence, status or mark. */
  ghost predicate BakedTalks(cs: seq<Contribution>, baked: seq<Contribution>) {
    && SameTalks(cs, baked)
    && forall i :: 0 <= i < |baked| ==>
         && baked[i].streamSeq == 0 && baked[i].sig == "" && !baked[i].dangling
         && forall j :: 0 <= j < |baked[i].edits| ==> baked[i].edits[j].streamSeq == 0 && baked[i].edits[j].sig == ""
  }

  ghost predicate BakedFiles(xs: seq<Attachment>, baked: seq<Attachment>) {
    && SameFiles(xs, baked)
    && forall i :: 0 <= i < |baked| ==> baked[i].streamSeq == 0 && baked[i].sig == "" && !baked[i].dangling
  }

  ghost predicate BakedItems(ws: seq<WorkItem>, baked: seq<WorkItem>) {
    && SameItems(ws, baked)
    && forall i :: 0 <= i < |baked| ==>
         && baked[i].streamSeq == 0 && baked[i].sig == ""
         && forall j :: 0 <= j < |baked[i].timeline| ==>
              baked[i].timeline[j].streamSeq == 0 && baked[i].timeline[j].sig == ""
  }

  ghost predicate BakedGrants(gs: seq<Grant>, baked: seq<Grant>) {
    && SameGrants(gs, baked)
    && forall i :: 0 <= i < |baked| ==>
         && baked[i].streamSeq == 0 && baked[i].sig == ""
         && forall j :: 0 <= j < |baked[i].timeline| ==>
              baked[i].timeline[j].streamSeq == 0 && baked[i].timeline[j].sig == ""
  }

  lemma TalksBaked(cs: seq<Contribution>)
    ensures BakedTalks(cs, CleanContributions(cs))
  {
  }

  lemma FilesBaked(xs: seq<Attachment>)
    ensures BakedFiles(xs, CleanAttachments(xs))
  {
  }

  lemma ItemsBaked(ws: seq<WorkItem>)
    ensures BakedItems(ws, CleanWorkItems(ws))
  {
  }

  lemma GrantsBaked(gs: seq<Grant>)
    ensures BakedGrants(gs, CleanGrants(gs))
  {
  }
}
