/** The idle rules: when a topic has gone quiet, which claims have gone stale, and what a sweep of them does
    (topic/upkeep.go). The clock is the caller's. */
module Upkeep {
  import opened Prelude
  import opened Vocabulary
  import opened Fold
  import opened EssenceOfTopic
  import opened Soundness
  import opened Compaction
  import opened Likeness

  // ----- the newest operation

  /** The times of the operations a view carries on its elements. */
  ghost predicate HappenedAt(mt: MaterializedTopic, t: Time) {
    || (exists c :: c in mt.contributions && TalkedAt(c, t))
    || (exists a :: a in mt.attachments && (t == a.ts || t == a.removedTs))
    || (exists w :: w in mt.workItems && (t == w.ts || exists e :: e in w.timeline && t == e.ts))
  }

  ghost predicate TalkedAt(c: Contribution, t: Time) {
    t == c.ts || t == c.resolvedTs || exists e :: e in c.edits && t == e.ts
  }

  ghost predicate IsNewest(mt: MaterializedTopic, newest: Time) {
    && (newest == mt.baselineTs || HappenedAt(mt, newest))
    && mt.baselineTs <= newest && forall t :: HappenedAt(mt, t) ==> t <= newest
  }

  function Later(a: Time, b: Time): Time {
    if b > a then b else a
  }

  function LatestStamp(es: seq<EditStamp>, floor: Time): (t: Time)
    ensures t >= floor && (t == floor || exists e :: e in es && t == e.ts) && forall e :: e in es ==> e.ts <= t
  {
    if |es| == 0 then floor else Later(LatestStamp(es[..|es| - 1], floor), es[|es| - 1].ts)
  }

  function LatestEvent(es: seq<WorkEvent>, floor: Time): (t: Time)
    ensures t >= floor && (t == floor || exists e :: e in es && t == e.ts) && forall e :: e in es ==> e.ts <= t
  {
    if |es| == 0 then floor else Later(LatestEvent(es[..|es| - 1], floor), es[|es| - 1].ts)
  }

  function LatestTalk(cs: seq<Contribution>, floor: Time): Time {
    if |cs| == 0 then floor
    else
      var n := |cs| - 1;
      LatestStamp(cs[n].edits, Later(Later(LatestTalk(cs[..n], floor), cs[n].ts), cs[n].resolvedTs))
  }

  function LatestFile(xs: seq<Attachment>, floor: Time): Time {
    if |xs| == 0 then floor
    else var n := |xs| - 1; Later(Later(LatestFile(xs[..n], floor), xs[n].ts), xs[n].removedTs)
  }

  function LatestWork(ws: seq<WorkItem>, floor: Time): Time {
    if |ws| == 0 then floor
    else var n := |ws| - 1; LatestEvent(ws[n].timeline, Later(LatestWork(ws[..n], floor), ws[n].ts))
  }

  function Newest(mt: MaterializedTopic): Time {
    LatestWork(mt.workItems, LatestFile(mt.attachments, LatestTalk(mt.contributions, mt.baselineTs)))
  }

  lemma {:induction false} TalkIsLatest(cs: seq<Contribution>, floor: Time)
    ensures var t := LatestTalk(cs, floor);
      && t >= floor
      && (t == floor || exists c :: c in cs && TalkedAt(c, t))
      && forall c, u :: c in cs && TalkedAt(c, u) ==> u <= t
  {
    if |cs| > 0 {
      var n := |cs| - 1;
      TalkIsLatest(cs[..n], floor);
      LatestOfOne(cs[n], LatestTalk(cs[..n], floor));
      hide TalkedAt;
      assert cs == cs[..n] + [cs[n]] && cs[n] in cs;
      assert forall c :: c in cs[..n] ==> c in cs;
    }
  }

  lemma LatestOfOne(c: Contribution, floor: Time)
    ensures var t := LatestStamp(c.edits, Later(Later(floor, c.ts), c.resolvedTs));
      t >= floor && (t == floor || TalkedAt(c, t)) && forall u :: TalkedAt(c, u) ==> u <= t
  {
  }

  lemma {:induction false} FileIsLatest(xs: seq<Attachment>, floor: Time)
    ensures var t := LatestFile(xs, floor);
      && t >= floor && (t == floor || exists a :: a in xs && (t == a.ts || t == a.removedTs))
      && forall a :: a in xs ==> a.ts <= t && a.removedTs <= t
  {
    if |xs| > 0 {
      var n := |xs| - 1;
      FileIsLatest(xs[..n], floor);
      assert xs == xs[..n] + [xs[n]] && xs[n] in xs;
      assert forall a :: a in xs[..n] ==> a in xs;
    }
  }

  lemma {:induction false} WorkIsLatest(ws: seq<WorkItem>, floor: Time)
    ensures var t := LatestWork(ws, floor);
      && t >= floor && (t == floor || exists w :: w in ws && (t == w.ts || exists e :: e in w.timeline && t == e.ts))
      && forall w :: w in ws ==> w.ts <= t && forall e :: e in w.timeline ==> e.ts <= t
  {
    if |ws| > 0 {
      var n := |ws| - 1;
      WorkIsLatest(ws[..n], floor);
      assert ws == ws[..n] + [ws[n]] && ws[n] in ws;
      assert forall w :: w in ws[..n] ==> w in ws;
    }
  }

  /** The computed time is the latest of all the times the view carries. */
  lemma NewestIsNewest(mt: MaterializedTopic)
    ensures IsNewest(mt, Newest(mt))
  {
    TalkIsLatest(mt.contributions, mt.baselineTs);
    FileIsLatest(mt.attachments, LatestTalk(mt.contributions, mt.baselineTs));
    WorkIsLatest(mt.workItems, LatestFile(mt.attachments, LatestTalk(mt.contributions, mt.baselineTs)));
    hide LatestTalk, LatestFile, LatestWork;
  }

  method BumpTalk(cs: seq<Contribution>, floor: Time) returns (newest: Time)
    ensures newest == LatestTalk(cs, floor)
  {
    newest := floor;
    for i := 0 to |cs|
      invariant newest == LatestTalk(cs[..i], floor)
    {
      assert cs[..i + 1][..i] == cs[..i];
      newest := Later(Later(newest, cs[i].ts), cs[i].resolvedTs);
      ghost var start := newest;
      var es := cs[i].edits;
      for j := 0 to |es|
        invariant newest == LatestStamp(es[..j], start)
      {
        assert es[..j + 1][..j] == es[..j];
        newest := Later(newest, es[j].ts);
      }
      assert es[..|es|] == es;
    }
    assert cs[..|cs|] == cs;
  }

  method BumpFiles(xs: seq<Attachment>, floor: Time) returns (newest: Time)
    ensures newest == LatestFile(xs, floor)
  {
    newest := floor;
    for i := 0 to |xs|
      invariant newest == LatestFile(xs[..i], floor)
    {
      assert xs[..i + 1][..i] == xs[..i];
      newest := Later(Later(newest, xs[i].ts), xs[i].removedTs);
    }
    assert xs[..|xs|] == xs;
  }

  method BumpWork(ws: seq<WorkItem>, floor: Time) returns (newest: Time)
    ensures newest == LatestWork(ws, floor)
  {
    newest := floor;
    for i := 0 to |ws|
      invariant newest == LatestWork(ws[..i], floor)
    {
      assert ws[..i + 1][..i] == ws[..i];
      newest := Later(newest, ws[i].ts);
      ghost var start := newest;
      var es := ws[i].timeline;
      for j := 0 to |es|
        invariant newest == LatestEvent(es[..j], start)
      {
        assert es[..j + 1][..j] == es[..j];
        newest := Later(newest, es[j].ts);
      }
      assert es[..|es|] == es;
    }
    assert ws[..|ws|] == ws;
  }

  method NewestOpTs(mt: MaterializedTopic) returns (newest: Time)
    ensures newest == Newest(mt) && IsNewest(mt, newest)
  {
    newest := mt.baselineTs;
    newest := BumpTalk(mt.contributions, newest);
    newest := BumpFiles(mt.attachments, newest);
    newest := BumpWork(mt.workItems, newest);
    NewestIsNewest(mt);
  }

  predicate DormantEligible(mt: MaterializedTopic, window: int, now: Time) {
    mt.malformed.None? && (mt.lifecycle.Proposed? || mt.lifecycle.Active?) && now - Newest(mt) > window
  }

  /** What a view's elements say of time, cleaned or not. */
  lemma SameTimes(a: MaterializedTopic, b: MaterializedTopic, t: Time)
    requires SameTopic(a, b)
    ensures HappenedAt(a, t) ==> HappenedAt(b, t)
  {
    if HappenedAt(a, t) {
      if c :| c in a.contributions && TalkedAt(c, t) {
        var i :| 0 <= i < |a.contributions| && a.contributions[i] == c;
        TalkTimes(a.contributions, b.contributions, i, t);
      } else if x :| x in a.attachments && (t == x.ts || t == x.removedTs) {
        var i :| 0 <= i < |a.attachments| && a.attachments[i] == x;
        assert SameFile(a.attachments[i], b.attachments[i]);
        assert b.attachments[i] in b.attachments;
      } else {
        var w :| w in a.workItems && (t == w.ts || exists e :: e in w.timeline && t == e.ts);
        var i :| 0 <= i < |a.workItems| && a.workItems[i] == w;
        WorkTimes(a.workItems, b.workItems, i, t);
      }
    }
  }

  lemma TalkTimes(xs: seq<Contribution>, ys: seq<Contribution>, i: nat, t: Time)
    requires SameTalks(xs, ys) && i < |xs|
    requires TalkedAt(xs[i], t)
    ensures exists c :: c in ys && TalkedAt(c, t)
  {
    assert SameTalk(xs[i], ys[i]);
    assert ys[i] in ys;
    if e :| e in xs[i].edits && t == e.ts {
      var j :| 0 <= j < |xs[i].edits| && xs[i].edits[j] == e;
      assert SameStamp(xs[i].edits[j], ys[i].edits[j]);
      assert ys[i].edits[j] in ys[i].edits;
    }
    assert TalkedAt(ys[i], t);
  }

  lemma WorkTimes(xs: seq<WorkItem>, ys: seq<WorkItem>, i: nat, t: Time)
    requires SameItems(xs, ys) && i < |xs|
    requires t == xs[i].ts || exists e :: e in xs[i].timeline && t == e.ts
    ensures exists w :: w in ys && (t == w.ts || exists e :: e in w.timeline && t == e.ts)
  {
    assert SameItem(xs[i], ys[i]);
    assert ys[i] in ys;
    if e :| e in xs[i].timeline && t == e.ts {
      var j :| 0 <= j < |xs[i].timeline| && xs[i].timeline[j] == e;
      assert SameEvent(xs[i].timeline[j], ys[i].timeline[j]);
      assert ys[i].timeline[j] in ys[i].timeline;
    }
  }

  /** Everything the view carries but its baseline is older than the window, and the topic is in play. */
  ghost predicate QuietElements(mt: MaterializedTopic, window: int, now: Time) {
    mt.malformed.None? && (mt.lifecycle.Proposed? || mt.lifecycle.Active?)
    && forall t :: HappenedAt(mt, t) ==> now - t > window
  }

  lemma EligibleMeans(mt: MaterializedTopic, window: int, now: Time)
    ensures DormantEligible(mt, window, now) <==> QuietElements(mt, window, now) && now - mt.baselineTs > window
  {
    NewestIsNewest(mt);
    hide HappenedAt, Newest;
  }

  /** A rollup is the one thing idleness can see: whatever time it claims for itself, earlier or later than the baseline
      it replaces, becomes the floor. So the two views agree on eligibility exactly when an element decides, or when
      both baselines fall on the same side of the window. */
  lemma RollupRestartsTheClock(before: MaterializedTopic, after: MaterializedTopic, window: int, now: Time)
    requires SameTopic(before, after)
    ensures DormantEligible(after, window, now) <==>
      QuietElements(before, window, now) && now - after.baselineTs > window
    ensures (DormantEligible(after, window, now) <==> DormantEligible(before, window, now)) <==>
            !QuietElements(before, window, now)
              || (now - before.baselineTs > window <==> now - after.baselineTs > window)
  {
    EligibleMeans(before, window, now);
    EligibleMeans(after, window, now);
    forall t ensures HappenedAt(before, t) <==> HappenedAt(after, t) {
      SameTimes(before, after, t);
      SameTimes(after, before, t);
    }
    hide HappenedAt, Newest, DormantEligible;
  }

  // ----- stale claims

  /** Claimed, and nothing about it happened within the window. */
  ghost predicate IsStale(mt: MaterializedTopic, w: WorkItem, window: int, now: Time) {
    && w.status.Claimed? && now - w.ts > window
    && (forall e :: e in w.timeline ==> now - e.ts > window)
    && (forall c :: c in mt.contributions && c.anchor == w.id ==> now - c.ts > window)
    && (forall a :: a in mt.attachments && a.anchor == w.id ==> now - a.ts > window)
  }

  ghost function StaleIds(mt: MaterializedTopic, ws: seq<WorkItem>, window: int, now: Time): seq<OpId> {
    if |ws| == 0 then []
    else
      var n := |ws| - 1;
      StaleIds(mt, ws[..n], window, now) + if IsStale(mt, ws[n], window, now) then [ws[n].id] else []
  }

  /** The newest of an item's own times and those anchored to it. */
  method LastActivity(mt: MaterializedTopic, w: WorkItem) returns (last: Time)
    ensures w.ts <= last
    ensures forall e :: e in w.timeline ==> e.ts <= last
    ensures forall c :: c in mt.contributions && c.anchor == w.id ==> c.ts <= last
    ensures forall a :: a in mt.attachments && a.anchor == w.id ==> a.ts <= last
    ensures last == w.ts || (exists e :: e in w.timeline && e.ts == last)
      || (exists c :: c in mt.contributions && c.anchor == w.id && c.ts == last)
      || (exists a :: a in mt.attachments && a.anchor == w.id && a.ts == last)
  {
    last := w.ts;
    for i := 0 to |w.timeline|
      invariant w.ts <= last && forall k :: 0 <= k < i ==> w.timeline[k].ts <= last
      invariant last == w.ts || exists e :: e in w.timeline && e.ts == last
    {
      if w.timeline[i].ts > last { last := w.timeline[i].ts; }
    }
    for i := 0 to |mt.contributions|
      invariant w.ts <= last && forall e :: e in w.timeline ==> e.ts <= last
      invariant forall k :: 0 <= k < i && mt.contributions[k].anchor == w.id ==> mt.contributions[k].ts <= last
      invariant last == w.ts || (exists e :: e in w.timeline && e.ts == last)
        || exists c :: c in mt.contributions && c.anchor == w.id && c.ts == last
    {
      if mt.contributions[i].anchor == w.id && mt.contributions[i].ts > last {
        last := mt.contributions[i].ts;
        assert mt.contributions[i] in mt.contributions;
      }
    }
    for i := 0 to |mt.attachments|
      invariant w.ts <= last && forall e :: e in w.timeline ==> e.ts <= last
      invariant forall c :: c in mt.contributions && c.anchor == w.id ==> c.ts <= last
      invariant forall k :: 0 <= k < i && mt.attachments[k].anchor == w.id ==> mt.attachments[k].ts <= last
      invariant last == w.ts || (exists e :: e in w.timeline && e.ts == last)
        || (exists c :: c in mt.contributions && c.anchor == w.id && c.ts == last)
        || exists a :: a in mt.attachments && a.anchor == w.id && a.ts == last
    {
      if mt.attachments[i].anchor == w.id && mt.attachments[i].ts > last {
        last := mt.attachments[i].ts;
        assert mt.attachments[i] in mt.attachments;
      }
    }
  }

  method StaleClaims(mt: MaterializedTopic, window: int, now: Time) returns (out: seq<OpId>)
    ensures out == if mt.malformed.Some? then [] else StaleIds(mt, mt.workItems, window, now)
  {
    out := [];
    if mt.malformed.Some? {
      return;
    }
    for i := 0 to |mt.workItems|
      invariant out == StaleIds(mt, mt.workItems[..i], window, now)
    {
      var w := mt.workItems[i];
      assert mt.workItems[..i + 1][..i] == mt.workItems[..i];
      if w.status.Claimed? {
        var last := LastActivity(mt, w);
        if now - last > window {
          out := out + [w.id];
        }
      }
    }
    assert mt.workItems[..|mt.workItems|] == mt.workItems;
  }

  // ----- the sweep

  /** Ordinary abandons of the named items, in order. */
  ghost predicate AbandonsOf(tail: seq<SeqRecord>, ids: seq<OpId>) {
    |tail| == |ids| && forall k :: 0 <= k < |ids| ==> tail[k].record.op == WorkRef(Abandon, true, Some(ids[k]))
  }

  /** Items have distinct, non-empty ids, each leading back to its item. */
  ghost predicate Indexed(s: State) {
    forall i :: 0 <= i < |s.workItems| ==>
      s.workItems[i].id != "" && s.workItems[i].id in s.workIdx && s.workIdx[s.workItems[i].id] == i
  }

  lemma {:induction false} StaleIdsAre(mt: MaterializedTopic, ws: seq<WorkItem>, window: int, now: Time, i: nat)
    requires i < |ws| && IsStale(mt, ws[i], window, now)
    ensures ws[i].id in StaleIds(mt, ws, window, now)
  {
    hide IsStale;
    if i < |ws| - 1 { StaleIdsAre(mt, ws[..|ws| - 1], window, now, i); }
  }

  lemma {:induction false} StaleIdsOnly(mt: MaterializedTopic, ws: seq<WorkItem>, window: int, now: Time, id: OpId)
    requires id in StaleIds(mt, ws, window, now)
    ensures exists i :: 0 <= i < |ws| && ws[i].id == id && IsStale(mt, ws[i], window, now)
  {
    hide IsStale;
    var n := |ws| - 1;
    if id in StaleIds(mt, ws[..n], window, now) {
      StaleIdsOnly(mt, ws[..n], window, now, id);
      var i :| 0 <= i < n && ws[..n][i].id == id && IsStale(mt, ws[..n][i], window, now);
      assert ws[i] == ws[..n][i];
    } else {
      assert ws[n].id == id && IsStale(mt, ws[n], window, now);
    }
  }

  lemma {:induction false} StaleIdsDistinct(mt: MaterializedTopic, ws: seq<WorkItem>, window: int, now: Time)
    requires forall i, j :: 0 <= i < j < |ws| ==> ws[i].id != ws[j].id
    ensures Distinct(StaleIds(mt, ws, window, now))
  {
    hide IsStale;
    if |ws| > 0 {
      var n := |ws| - 1;
      StaleIdsDistinct(mt, ws[..n], window, now);
      if ws[n].id in StaleIds(mt, ws[..n], window, now) {
        StaleIdsOnly(mt, ws[..n], window, now, ws[n].id);
      }
    }
  }

  /** One abandon: its item reopens if it was claimed, and otherwise gains a void event; nothing else moves. */
  lemma AbandonStep(s: State, sr: SeqRecord, i: nat)
    requires Bounded(s) && Indexed(s) && i < |s.workItems|
      && sr.record.op == WorkRef(Abandon, true, Some(s.workItems[i].id))
    ensures var t, w := Step(s, sr), Touched(s.workItems[i], sr);
      t.workItems == s.workItems[i := w] && t.workIdx == s.workIdx && Indexed(t)
      && w == (if s.workItems[i].status.Claimed?
               then s.workItems[i].(status := Open, owner := "", timeline := w.timeline)
               else s.workItems[i].(timeline := w.timeline))
      && w.timeline == s.workItems[i].timeline + [w.timeline[|w.timeline| - 1]]
      && w.timeline[|w.timeline| - 1].voided == !s.workItems[i].status.Claimed?
  {
    hide KeepsGraph;
  }

  /** Nothing but a void event or more was added. */
  ghost predicate OnlyVoids(v: WorkItem, w: WorkItem) {
    && w == v.(timeline := w.timeline) && v.timeline <= w.timeline
    && forall k :: |v.timeline| <= k < |w.timeline| ==> w.timeline[k].voided
  }

  /** Reopened by one abandon that counted. */
  ghost predicate Reopened(v: WorkItem, w: WorkItem) {
    && v.status.Claimed? && w == v.(status := Open, owner := "", timeline := w.timeline)
    && |w.timeline| == |v.timeline| + 1 && v.timeline <= w.timeline && !w.timeline[|v.timeline|].voided
  }

  ghost predicate Names(s: State, ids: seq<OpId>) {
    forall k :: 0 <= k < |ids| ==> Named(s, ids[k])
  }

  ghost predicate Named(s: State, id: OpId) {
    exists i :: 0 <= i < |s.workItems| && s.workItems[i].id == id
  }

  ghost predicate ReopenedOver(xs: seq<WorkItem>, ys: seq<WorkItem>, ids: seq<OpId>) {
    |ys| == |xs| && forall i :: 0 <= i < |xs| ==> if xs[i].id in ids then Reopened(xs[i], ys[i]) else ys[i] == xs[i]
  }

  ghost predicate VoidOver(xs: seq<WorkItem>, ys: seq<WorkItem>, ids: seq<OpId>) {
    |ys| == |xs| && forall i :: 0 <= i < |xs| ==> OnlyVoids(xs[i], ys[i]) && (xs[i].id !in ids ==> ys[i] == xs[i])
  }

  lemma ReopenMore(xs: seq<WorkItem>, ys: seq<WorkItem>, ids: seq<OpId>, i: nat, w: WorkItem)
    requires ReopenedOver(xs, ys, ids) && i < |xs| && xs[i].id !in ids && Reopened(ys[i], w)
    requires forall j :: 0 <= j < |xs| && j != i ==> xs[j].id != xs[i].id
    ensures ReopenedOver(xs, ys[i := w], ids + [xs[i].id])
  {
    hide Reopened;
  }

  lemma VoidMore(xs: seq<WorkItem>, ys: seq<WorkItem>, ids: seq<OpId>, i: nat, w: WorkItem)
    requires VoidOver(xs, ys, ids) && i < |xs| && OnlyVoids(ys[i], w)
    ensures VoidOver(xs, ys[i := w], ids + [xs[i].id])
  {
    VoidTwice(xs[i], ys[i], w);
    hide OnlyVoids;
  }

  lemma VoidTwice(u: WorkItem, v: WorkItem, w: WorkItem)
    requires OnlyVoids(u, v) && OnlyVoids(v, w)
    ensures OnlyVoids(u, w)
  {
  }

  /** One abandon, told as what became of its item. */
  lemma AbandonOne(s: State, sr: SeqRecord, i: nat)
    requires Bounded(s) && Indexed(s) && i < |s.workItems|
      && sr.record.op == WorkRef(Abandon, true, Some(s.workItems[i].id))
    ensures var t, w := Step(s, sr), Touched(s.workItems[i], sr);
      && t.workItems == s.workItems[i := w] && Indexed(t) && w.id == s.workItems[i].id
      && if s.workItems[i].status.Claimed? then Reopened(s.workItems[i], w) else OnlyVoids(s.workItems[i], w)
  {
    hide Step, Touched, Bounded;
    AbandonStep(s, sr, i);
  }

  lemma IndexedDistinct(s: State, i: nat)
    requires Indexed(s) && i < |s.workItems|
    ensures forall j :: 0 <= j < |s.workItems| && j != i ==> s.workItems[j].id != s.workItems[i].id
  {
  }

  lemma NamesFewer(s: State, ids: seq<OpId>) returns (i: nat)
    requires Names(s, ids) && |ids| > 0
    ensures Names(s, ids[..|ids| - 1]) && i < |s.workItems| && s.workItems[i].id == ids[|ids| - 1]
  {
    var n := |ids| - 1;
    assert Named(s, ids[n]);
    var j :| 0 <= j < |s.workItems| && s.workItems[j].id == ids[n];
    i := j;
    assert forall k :: 0 <= k < n ==> ids[..n][k] == ids[k];
  }

  lemma AbandonsFewer(tail: seq<SeqRecord>, ids: seq<OpId>)
    requires AbandonsOf(tail, ids) && |tail| > 0
    ensures |ids| == |tail| && AbandonsOf(tail[..|tail| - 1], ids[..|tail| - 1])
      && ids == ids[..|tail| - 1] + [ids[|tail| - 1]]
  {
  }

  /** Abandoning claimed items, each once, reopens exactly those. */
  lemma {:induction false} SweepReopens(s: State, tail: seq<SeqRecord>, ids: seq<OpId>)
    requires Bounded(s) && Indexed(s) && AbandonsOf(tail, ids) && Distinct(ids) && Names(s, ids)
    requires forall i :: 0 <= i < |s.workItems| && s.workItems[i].id in ids ==> s.workItems[i].status.Claimed?
    ensures ReopenedOver(s.workItems, FoldFrom(s, tail).workItems, ids) && Indexed(FoldFrom(s, tail))
  {
    hide *;
    if |tail| == 0 {
      NothingSwept(s, ids, tail);
    } else {
      var n := |tail| - 1;
      AbandonsFewer(tail, ids);
      DistinctFewer(ids);
      var i := NamesFewer(s, ids);
      SweepReopens(s, tail[..n], ids[..n]);
      var u := FoldFrom(s, tail[..n]);
      NotYetSwept(s.workItems, u.workItems, ids[..n], i);
      AbandonsAt(tail, ids, n);
      AbandonOne(u, tail[n], i);
      IndexedDistinct(s, i);
      ReopenMore(s.workItems, u.workItems, ids[..n], i, Touched(u.workItems[i], tail[n]));
      LastFold(s, tail);
    }
  }

  lemma LastFold(s: State, tail: seq<SeqRecord>)
    requires Bounded(s) && |tail| > 0
    ensures FoldFrom(s, tail) == Step(FoldFrom(s, tail[..|tail| - 1]), tail[|tail| - 1])
  {
    hide Step;
  }

  lemma NothingSwept(s: State, ids: seq<OpId>, tail: seq<SeqRecord>)
    requires Bounded(s) && |tail| == 0 && AbandonsOf(tail, ids)
    ensures ReopenedOver(s.workItems, FoldFrom(s, tail).workItems, ids) && FoldFrom(s, tail) == s
  {
  }

  lemma DistinctFewer(ids: seq<OpId>)
    requires Distinct(ids) && |ids| > 0
    ensures var n := |ids| - 1;
      Distinct(ids[..n]) && ids[n] !in ids[..n] && ids[n] in ids && forall x :: x in ids[..n] ==> x in ids
  {
  }

  lemma NotYetSwept(xs: seq<WorkItem>, ys: seq<WorkItem>, ids: seq<OpId>, i: nat)
    requires ReopenedOver(xs, ys, ids) && i < |xs| && xs[i].id !in ids
    ensures |ys| == |xs| && ys[i] == xs[i]
  {
    hide Reopened;
  }

  lemma AbandonsAt(tail: seq<SeqRecord>, ids: seq<OpId>, k: nat)
    requires AbandonsOf(tail, ids) && k < |tail|
    ensures |ids| == |tail| && tail[k].record.op == WorkRef(Abandon, true, Some(ids[k]))
  {
  }

  /** Abandoning items nobody holds changes nothing but their void history. */
  lemma {:induction false} SweepAgainIsVoid(s: State, tail: seq<SeqRecord>, ids: seq<OpId>)
    requires Bounded(s) && Indexed(s) && AbandonsOf(tail, ids) && Names(s, ids)
    requires forall i :: 0 <= i < |s.workItems| && s.workItems[i].id in ids ==> !s.workItems[i].status.Claimed?
    ensures VoidOver(s.workItems, FoldFrom(s, tail).workItems, ids) && Indexed(FoldFrom(s, tail))
  {
    if |tail| > 0 {
      var n := |tail| - 1;
      AbandonsFewer(tail, ids);
      var i := NamesFewer(s, ids);
      assert ids[n] in ids;
      SweepAgainIsVoid(s, tail[..n], ids[..n]);
      var u := FoldFrom(s, tail[..n]);
      assert OnlyVoids(s.workItems[i], u.workItems[i])
        && tail[n].record.op == WorkRef(Abandon, true, Some(u.workItems[i].id));
      hide Step, Touched, VoidOver, Bounded;
      AbandonOne(u, tail[n], i);
      hide Indexed, OnlyVoids;
      VoidMore(s.workItems, u.workItems, ids[..n], i, Touched(u.workItems[i], tail[n]));
    } else {
      assert forall i :: 0 <= i < |s.workItems| ==> OnlyVoids(s.workItems[i], s.workItems[i]);
    }
  }

  ghost predicate ClaimFree(tail: seq<SeqRecord>) {
    forall k :: 0 <= k < |tail| ==> !(tail[k].record.op.WorkRef? && tail[k].record.op.act.Claim?)
  }

  /** Without a claim an unclaimed item stays unclaimed, where and what it is. */
  lemma UnclaimedStep(s: State, sr: SeqRecord, i: nat)
    requires Bounded(s) && i < |s.workItems| && !s.workItems[i].status.Claimed? && ClaimFree([sr])
    ensures var t := Step(s, sr);
      i < |t.workItems| && !t.workItems[i].status.Claimed? && t.workItems[i].id == s.workItems[i].id
  {
    var n := Note(s, sr.record);
    assert [sr][0] == sr;
    assert Step(s, sr) == Apply(n, sr) && n.workItems == s.workItems;
    ApplyArms(n, sr);
    hide Apply, Step, Note, KeepsGraph;
    if sr.record.op.WorkOpen? {
      hide Bounded;
      if !sr.record.op.readable || IsBlank(sr.record.op.title) {}
    } else if sr.record.op.WorkRef? {
      if TargetOf(sr.record.op).Some? && TargetOf(sr.record.op).value in n.workIdx {
        var j := n.workIdx[TargetOf(sr.record.op).value];
        assert j < |n.workItems|;
        hide Bounded;
        if j == i {}
      }
    } else {
      KeepsWork(n, sr);
    }
  }

  lemma {:induction false} UnclaimedTail(s: State, tail: seq<SeqRecord>, i: nat)
    requires Bounded(s) && i < |s.workItems| && !s.workItems[i].status.Claimed? && ClaimFree(tail)
    ensures var t := FoldFrom(s, tail);
      i < |t.workItems| && !t.workItems[i].status.Claimed? && t.workItems[i].id == s.workItems[i].id
  {
    if |tail| > 0 {
      var n := |tail| - 1;
      UnclaimedTail(s, tail[..n], i);
      hide Step;
      assert ClaimFree([tail[n]]);
      UnclaimedStep(FoldFrom(s, tail[..n]), tail[n], i);
    }
  }

  /** What was reopened is still nobody's when the second sweep comes. */
  lemma StillUnclaimed(s: State, t: State, between: seq<SeqRecord>, ids: seq<OpId>)
    requires Bounded(t) && Names(s, ids) && ReopenedOver(s.workItems, t.workItems, ids) && ClaimFree(between)
    requires Indexed(FoldFrom(t, between))
    ensures var u := FoldFrom(t, between);
      Names(u, ids) && forall i :: 0 <= i < |u.workItems| && u.workItems[i].id in ids ==>
        !u.workItems[i].status.Claimed?
  {
    var u := FoldFrom(t, between);
    hide FoldFrom;
    NamesStay(s, t, ids);
    forall k | 0 <= k < |ids| ensures Named(u, ids[k]) {
      assert Named(t, ids[k]);
      var i :| 0 <= i < |t.workItems| && t.workItems[i].id == ids[k];
      assert t.workItems[i].id in ids;
      UnclaimedTail(t, between, i);
    }
    forall j | 0 <= j < |u.workItems| && u.workItems[j].id in ids ensures !u.workItems[j].status.Claimed? {
      var k :| 0 <= k < |ids| && ids[k] == u.workItems[j].id;
      assert Named(t, ids[k]);
      var i :| 0 <= i < |t.workItems| && t.workItems[i].id == ids[k];
      assert t.workItems[i].id in ids;
      UnclaimedTail(t, between, i);
      IndexedDistinct(u, i);
    }
  }

  /** Sweeping the stale claims of a view reopens exactly those items; and whatever else happens in between, as long as
      nobody claims, the same sweep again is entirely void. */
  lemma SweepConverges(path: string, log: seq<SeqRecord>, window: int, now: Time, first: seq<SeqRecord>,
                       between: seq<SeqRecord>, second: seq<SeqRecord>)
    requires CausalLog(log) && Indexed(FoldLog(log)) && ClaimFree(between)
    requires Causal(IdsOf(log), first + between) && NonEmptyIds(first + between)
    requires AbandonsOf(first, StaleIds(View(path, log), View(path, log).workItems, window, now))
    requires AbandonsOf(second, StaleIds(View(path, log), View(path, log).workItems, window, now))
    ensures var mt, once := View(path, log), View(path, log + first);
      && |once.workItems| == |mt.workItems|
      && forall i :: 0 <= i < |mt.workItems| ==>
           if IsStale(mt, mt.workItems[i], window, now) then Reopened(mt.workItems[i], once.workItems[i])
           else once.workItems[i] == mt.workItems[i]
    ensures var later, twice := View(path, log + first + between), View(path, log + first + between + second);
      && |twice.workItems| == |later.workItems|
      && forall i :: 0 <= i < |later.workItems| ==> OnlyVoids(later.workItems[i], twice.workItems[i])
  {
    hide *;
    CausalStarts(log);
    var mt, s := View(path, log), FoldLog(log);
    var ids := StaleIds(mt, mt.workItems, window, now);
    WorkShown(path, log);
    LogSound(log);
    KnownIs(log);
    StaleNames(mt, s, window, now);
    SweepStates(IdsOf(log), s, first, between, second, ids);
    LongerStarts(log, first);
    LongerStarts(log + first, between);
    LongerStarts(log + first + between, second);
    FoldLogConcat(log, first);
    FoldLogConcat(log + first, between);
    FoldLogConcat(log + first + between, second);
    WorkShown(path, log + first);
    WorkShown(path, log + first + between);
    WorkShown(path, log + first + between + second);
    SweptShown(mt, FoldFrom(s, first).workItems, ids, window, now);
    VoidShown(FoldFrom(FoldFrom(s, first), between).workItems,
              FoldFrom(FoldFrom(FoldFrom(s, first), between), second).workItems, ids);
  }

  /** The two sweeps, told of states. */
  lemma SweepStates(known: set<OpId>, s: State, first: seq<SeqRecord>, between: seq<SeqRecord>, second: seq<SeqRecord>,
                    ids: seq<OpId>)
    requires Bounded(s) && Sound(s) && Covers(known, s) && Indexed(s) && ClaimFree(between)
    requires Causal(known, first + between) && NonEmptyIds(first + between)
    requires AbandonsOf(first, ids) && AbandonsOf(second, ids) && Names(s, ids) && Distinct(ids)
    requires forall i :: 0 <= i < |s.workItems| && s.workItems[i].id in ids ==> s.workItems[i].status.Claimed?
    ensures var t := FoldFrom(s, first); var u := FoldFrom(t, between);
      ReopenedOver(s.workItems, t.workItems, ids) && VoidOver(u.workItems, FoldFrom(u, second).workItems, ids)
  {
    hide *;
    SweepReopens(s, first, ids);
    IndexedTail(known, s, first + between);
    FoldFromConcat(s, first, between);
    StillUnclaimed(s, FoldFrom(s, first), between, ids);
    SweepAgainIsVoid(FoldFrom(FoldFrom(s, first), between), second, ids);
  }

  lemma CausalStarts(log: seq<SeqRecord>)
    requires CausalLog(log)
    ensures StartsWithBaseline(log) && |log| > 0
  {
    hide Causal, Mentions;
  }

  lemma KnownIs(log: seq<SeqRecord>)
    requires |log| > 0
    ensures IdsOf(log) == Mentions(log[0].record) + Mentioned(log[1..])
  {
  }

  lemma LongerStarts(log: seq<SeqRecord>, more: seq<SeqRecord>)
    requires StartsWithBaseline(log)
    ensures StartsWithBaseline(log + more)
  {
  }

  lemma SweptShown(mt: MaterializedTopic, ws: seq<WorkItem>, ids: seq<OpId>, window: int, now: Time)
    requires ReopenedOver(mt.workItems, ws, ids)
    requires forall i :: 0 <= i < |mt.workItems| ==>
      (IsStale(mt, mt.workItems[i], window, now) <==> mt.workItems[i].id in ids)
    ensures |ws| == |mt.workItems|
    ensures forall i :: 0 <= i < |mt.workItems| ==>
      if IsStale(mt, mt.workItems[i], window, now) then Reopened(mt.workItems[i], ws[i]) else ws[i] == mt.workItems[i]
  {
    hide IsStale, Reopened;
  }

  lemma VoidShown(xs: seq<WorkItem>, ys: seq<WorkItem>, ids: seq<OpId>)
    requires VoidOver(xs, ys, ids)
    ensures |ys| == |xs| && forall i :: 0 <= i < |xs| ==> OnlyVoids(xs[i], ys[i])
  {
    hide OnlyVoids;
  }

  lemma WorkShown(path: string, log: seq<SeqRecord>)
    requires StartsWithBaseline(log)
    ensures View(path, log).workItems == FoldLog(log).workItems
  {
  }

  lemma NamesStay(s: State, t: State, ids: seq<OpId>)
    requires Names(s, ids) && ReopenedOver(s.workItems, t.workItems, ids)
    ensures Names(t, ids) && forall i :: 0 <= i < |t.workItems| && t.workItems[i].id in ids ==>
      !t.workItems[i].status.Claimed?
  {
    forall k | 0 <= k < |ids| ensures Named(t, ids[k]) {
      assert Named(s, ids[k]);
      var i :| 0 <= i < |s.workItems| && s.workItems[i].id == ids[k];
      assert t.workItems[i].id == ids[k];
    }
  }

  lemma StaleNames(mt: MaterializedTopic, s: State, window: int, now: Time)
    requires mt.workItems == s.workItems && Indexed(s)
    ensures var ids := StaleIds(mt, s.workItems, window, now);
      && Names(s, ids) && Distinct(ids)
      && forall i :: 0 <= i < |s.workItems| ==>
           (IsStale(mt, s.workItems[i], window, now) <==> s.workItems[i].id in ids)
             && (s.workItems[i].id in ids ==> s.workItems[i].status.Claimed?)
  {
    var ids := StaleIds(mt, s.workItems, window, now);
    StaleIdsDistinct(mt, s.workItems, window, now);
    forall k | 0 <= k < |ids| ensures Named(s, ids[k]) {
      StaleIdsOnly(mt, s.workItems, window, now, ids[k]);
    }
    forall i | 0 <= i < |s.workItems|
      ensures IsStale(mt, s.workItems[i], window, now) <==> s.workItems[i].id in ids
      ensures s.workItems[i].id in ids ==> s.workItems[i].status.Claimed? {
      if IsStale(mt, s.workItems[i], window, now) { StaleIdsAre(mt, s.workItems, window, now, i); }
      if s.workItems[i].id in ids { StaleIdsOnly(mt, s.workItems, window, now, s.workItems[i].id); }
    }
  }

  // ----- distinct op-ids keep items indexed

  lemma TalkKeepsWork(s: State, sr: SeqRecord)
    requires Bounded(s)
    requires var op := sr.record.op; op.TurnPost? || op.CommentAdd? || op.Edit? || op.CommentResolve?
    ensures Apply(s, sr).workItems == s.workItems && Apply(s, sr).workIdx == s.workIdx
  {
    var op := sr.record.op;
    hide KeepsGraph, Edited;
    match op
    case TurnPost(_, _, _) => hide Bounded;
    case CommentAdd(_, _, _, _) => hide Bounded;
    case Edit(_, _, _, anchor) =>
      if op.readable && anchor in s.editTarget {
        var c := s.contributions[s.editTarget[anchor]];
        hide Bounded;
        if c.author != sr.record.author {}
      }
    case CommentResolve(_, _) =>
      if TargetOf(op).Some? && TargetOf(op).value in s.editTarget {
        var c := s.contributions[s.editTarget[TargetOf(op).value]];
        hide Bounded;
        if c.kind.Turn? {} else if c.resolved {}
      }
  }

  lemma KeepsWork(s: State, sr: SeqRecord)
    requires Bounded(s) && !sr.record.op.WorkOpen? && !sr.record.op.WorkRef?
    ensures Apply(s, sr).workItems == s.workItems && Apply(s, sr).workIdx == s.workIdx
  {
    var op := sr.record.op;
    if op.TurnPost? || op.CommentAdd? || op.Edit? || op.CommentResolve? {
      hide Apply;
      TalkKeepsWork(s, sr);
    } else {
      hide KeepsGraph, Challenged, ApplyTransition;
      match op
      case AttachmentAdd(_, _, _, _, _, _) => hide Bounded;
      case AttachmentRemove(_, _) =>
        if TargetOf(op).Some? && TargetOf(op).value in s.attIdx {
          var a := s.attachments[s.attIdx[TargetOf(op).value]];
          hide Bounded;
          if a.removed {}
        }
      case GrantIssue(_, _, _, _) => hide Bounded;
      case GrantRevoke(_, _) => if TargetOf(op).Some? { if TargetOf(op).value in s.grantIdx {} }
      case LifeTransition(_, _) =>
      case Baseline(_, _) =>
      case Unknown(_) =>
    }
  }

  lemma IndexedOpen(s: State, sr: SeqRecord)
    requires Bounded(s) && Indexed(s) && sr.record.id !in s.workIdx && sr.record.id != "" && sr.record.op.WorkOpen?
    ensures Indexed(ApplyOpen(s, sr))
  {
    hide KeepsGraph, Bounded;
    if !sr.record.op.readable || IsBlank(sr.record.op.title) {}
  }

  lemma IndexedRef(s: State, sr: SeqRecord)
    requires Bounded(s) && Indexed(s) && sr.record.op.WorkRef?
    ensures Indexed(ApplyWorkRef(s, sr))
  {
    hide KeepsGraph;
    if TargetOf(sr.record.op).Some? && TargetOf(sr.record.op).value in s.workIdx {
      var i := s.workIdx[TargetOf(sr.record.op).value];
      assert i < |s.workItems| && Touched(s.workItems[i], sr).id == s.workItems[i].id;
      hide Touched, Bounded;
    }
  }

  lemma IndexedSame(s: State, t: State)
    requires Indexed(s) && t.workItems == s.workItems && t.workIdx == s.workIdx
    ensures Indexed(t)
  {
  }

  lemma IndexedStep(s: State, sr: SeqRecord)
    requires Bounded(s) && Indexed(s) && sr.record.id !in s.workIdx && sr.record.id != ""
    ensures Indexed(Step(s, sr))
  {
    var n := Note(s, sr.record);
    assert Step(s, sr) == Apply(n, sr) && n.workItems == s.workItems && n.workIdx == s.workIdx;
    ApplyArms(n, sr);
    hide Apply, Step, Note, ApplyOpen, ApplyWorkRef, Indexed, KeepsGraph, Bounded;
    IndexedSame(s, n);
    if sr.record.op.WorkOpen? {
      IndexedOpen(n, sr);
    } else if sr.record.op.WorkRef? {
      IndexedRef(n, sr);
    } else {
      KeepsWork(n, sr);
      IndexedSame(n, Apply(n, sr));
    }
  }

  ghost predicate NonEmptyIds(tail: seq<SeqRecord>) {
    forall i :: 0 <= i < |tail| ==> tail[i].record.id != "" && !tail[i].record.op.Baseline?
  }

  /** From a start whose items are indexed, every causal log keeps them so. */
  lemma {:induction false} IndexedTail(known: set<OpId>, s: State, tail: seq<SeqRecord>)
    requires Bounded(s) && Sound(s) && Covers(known, s) && Causal(known, tail) && Indexed(s) && NonEmptyIds(tail)
    ensures Indexed(FoldFrom(s, tail))
  {
    if |tail| > 0 {
      var n := |tail| - 1;
      IndexedTail(known, s, tail[..n]);
      TailSound(known, s, tail[..n]);
      var u := FoldFrom(s, tail[..n]);
      assert tail[n].record.id !in u.workIdx by {
        assert u.workIdx.Keys <= u.seen;
        hide FoldFrom, Step;
      }
      hide Step, Sound, Indexed;
      IndexedStep(u, tail[n]);
    }
  }
}
