/** Baking a view into a baseline payload: copy each list and strip what dies with the tail (topic/rollup.go). */
module Bake {
  import opened Prelude
  import opened Vocabulary
  import opened EssenceOfTopic
  import opened Compaction
  import opened Likeness

  method CleanBakedContributions(cs: seq<Contribution>) returns (out: seq<Contribution>)
    ensures out == CleanContributions(cs) && BakedTalks(cs, out)
  {
    TalksBaked(cs);
    hide BakedTalks;
    out := cs;
    for i := 0 to |out|
      invariant |out| == |cs| && forall k :: 0 <= k < |cs| ==>
        out[k] == if k < i then CleanContribution(cs[k]) else cs[k]
    {
      var es := out[i].edits;
      for j := 0 to |es|
        invariant |es| == |cs[i].edits| && forall k :: 0 <= k < |es| ==>
          es[k] == if k < j then CleanStamp(cs[i].edits[k]) else cs[i].edits[k]
      {
        es := es[j := es[j].(streamSeq := 0, sig := "")];
      }
      assert es == CleanStamps(cs[i].edits);
      out := out[i := out[i].(streamSeq := 0, sig := "", dangling := false, edits := es)];
    }
  }

  method CleanBakedAttachments(xs: seq<Attachment>) returns (out: seq<Attachment>)
    ensures out == CleanAttachments(xs) && BakedFiles(xs, out)
  {
    FilesBaked(xs);
    hide BakedFiles;
    out := xs;
    for i := 0 to |out|
      invariant |out| == |xs| && forall k :: 0 <= k < |xs| ==> out[k] == if k < i then CleanAttachment(xs[k]) else xs[k]
    {
      out := out[i := out[i].(streamSeq := 0, sig := "", dangling := false)];
    }
  }

  method CleanBakedWorkItems(ws: seq<WorkItem>) returns (out: seq<WorkItem>)
    ensures out == CleanWorkItems(ws) && BakedItems(ws, out)
  {
    ItemsBaked(ws);
    hide BakedItems;
    out := ws;
    for i := 0 to |out|
      invariant |out| == |ws| && forall k :: 0 <= k < |ws| ==> out[k] == if k < i then CleanWorkItem(ws[k]) else ws[k]
    {
      var tl := out[i].timeline;
      for j := 0 to |tl|
        invariant |tl| == |ws[i].timeline|
        invariant forall k :: 0 <= k < |tl| ==>
          tl[k] == if k < j then CleanWorkEvent(ws[i].timeline[k]) else ws[i].timeline[k]
      {
        tl := tl[j := tl[j].(streamSeq := 0, sig := "")];
      }
      assert tl == CleanWorkEvents(ws[i].timeline);
      out := out[i := out[i].(streamSeq := 0, sig := "", timeline := tl)];
    }
  }

  method CleanBakedGrants(gs: seq<Grant>) returns (out: seq<Grant>)
    ensures out == CleanGrants(gs) && BakedGrants(gs, out)
  {
    GrantsBaked(gs);
    hide BakedGrants;
    out := gs;
    for i := 0 to |out|
      invariant |out| == |gs| && forall k :: 0 <= k < |gs| ==> out[k] == if k < i then CleanGrant(gs[k]) else gs[k]
    {
      var tl := out[i].timeline;
      for j := 0 to |tl|
        invariant |tl| == |gs[i].timeline|
        invariant forall k :: 0 <= k < |tl| ==>
          tl[k] == if k < j then CleanGrantEvent(gs[i].timeline[k]) else gs[i].timeline[k]
      {
        tl := tl[j := tl[j].(streamSeq := 0, sig := "")];
      }
      assert tl == CleanGrantEvents(gs[i].timeline);
      out := out[i := out[i].(streamSeq := 0, sig := "", timeline := tl)];
    }
  }

  method BakePayload(mt: MaterializedTopic) returns (p: BaselinePayload)
    ensures p == RollupPayload(mt) && Bakes(p, mt)
  {
    PayloadBakes(mt);
    hide Bakes;
    var cs := CleanBakedContributions(mt.contributions);
    var xs := CleanBakedAttachments(mt.attachments);
    var ws := CleanBakedWorkItems(mt.workItems);
    var gs := CleanBakedGrants(mt.grants);
    p := BaselinePayload(mt.baselineState, mt.frontier, Some(BakedState(cs, xs, ws, gs, mt.lifecycle)), None);
  }
}
