/** A handle at work: posting, attaching, reading, compacting and archiving against servers that other clients use at
    the same time (topic/handle.go, post.go, attachment.go, materialise.go, rollup.go, lifecycle.go). */
module Handles {
  import opened Prelude
  import opened Vocabulary
  import opened Fold
  import opened EssenceOfTopic
  import opened Soundness
  import opened Compaction
  import opened LifecycleRules
  import opened History
  import opened Manifests
  import opened Machine
  import opened Safety
  import opened Steps
  import opened StepsKept
  import opened WritesKept
  import opened Realms
  import opened Requests
  import opened Runs
  import opened Chronicle
  import opened Bake
  import ApplyLoop

  datatype Problem =
    | TopicArchived | RollupLost | RacesLost | NothingToCompact | Malformed | UndefinedLifecycle | EmptyName | Trouble
    | TidyUpFailed(why: Problem)

  ghost predicate SameServer(w: World, v: World) {
    v.msgs == w.msgs && v.wire == w.wire && v.base == w.base && v.objects == w.objects
  }

  ghost predicate SameLog(w: World, v: World) {
    v.msgs == w.msgs && v.wire == w.wire && v.base == w.base
  }

  /** No object is taken away or altered. */
  ghost predicate StoreKept(w: World, v: World) {
    forall n :: n in w.objects ==> n in v.objects && v.objects[n] == w.objects[n]
  }

  /** What is still in the store under a name is what was put there. */
  lemma StillStored(k: Codec, w: World, v: World, name: string, data: Bytes)
    requires Inv(k, v) && LandsNew(w, v) && name in w.contents && w.contents[name] == data && name in v.objects
    ensures v.objects[name] == data
  {
    StoreOf(k, v);
    hide Inv, LandedSince;
  }

  lemma StoreKeptTwice(u: World, w: World, v: World)
    ensures StoreKept(u, u) && (StoreKept(u, w) && StoreKept(w, v) ==> StoreKept(u, v))
  {
  }

  lemma StoreKeptSame(w: World, v: World)
    requires v.objects == w.objects
    ensures StoreKept(w, v)
  {
  }

  lemma StoreKeptNew(k: Codec, w: World, v: World, name: string, data: Bytes)
    requires Inv(k, w) && name !in w.contents && v.objects == w.objects[name := data]
    ensures StoreKept(w, v)
  {
    StoreOf(k, w);
    hide Inv;
  }

  lemma SameLogSelf(w: World)
    ensures SameLog(w, w)
  {
  }

  lemma SameLogIs(w: World, v: World)
    requires v.msgs == w.msgs && v.wire == w.wire && v.base == w.base
    ensures SameLog(w, v)
  {
  }

  lemma SameTail(w: World, v: World)
    ensures SameLog(w, v) && |w.msgs| > 0 ==> |v.msgs| > 0 && LastSeq(v) == LastSeq(w)
  {
  }

  lemma SameLogOnly(w: World, v: World, u: World)
    ensures SameLog(w, v) && u.msgs == v.msgs && u.wire == v.wire && u.base == v.base ==> SameLog(w, u)
  {
  }

  lemma OnlySame(w: World, v: World, c: ClientId, cl: Client)
    requires Only(w, v, c, cl)
    ensures SameServer(w, v)
  {
  }

  /** Only those objects are gone. */
  ghost predicate Deleted(w: World, v: World, names: seq<string>) {
    v.msgs == w.msgs && v.wire == w.wire && v.base == w.base && v.objects == w.objects - Elems(names)
  }

  lemma DeletedNone(w: World)
    ensures Deleted(w, w, []) && Deleted(w, w, [][..0])
  {
    assert w.objects - {} == w.objects;
  }

  lemma DeletedOne(w: World, v: World, u: World, names: seq<string>, n: string)
    requires Deleted(w, v, names) && u.msgs == v.msgs && u.wire == v.wire && u.base == v.base
      && u.objects == v.objects - {n}
    ensures Deleted(w, u, names + [n])
  {
    assert Elems(names + [n]) == Elems(names) + {n};
  }

  lemma WithoutFields(w: World, n: string)
    ensures var v := Without(w, n);
      v.msgs == w.msgs && v.wire == w.wire && v.base == w.base && v.path == w.path && v.objects == w.objects - {n}
  {
  }

  lemma DeletedSame(w: World, v: World, u: World, names: seq<string>)
    requires Deleted(w, v, names) && u.msgs == v.msgs && u.wire == v.wire && u.base == v.base && u.objects == v.objects
    ensures Deleted(w, u, names)
  {
  }

  lemma HasMeans(w: World, c: ClientId, cl: Client)
    requires Has(w, c, cl)
    ensures c in w.clients && w.clients[c] == cl
  {
  }

  lemma HasStill(w: World, c: ClientId, cl: Client)
    requires c in w.clients && w.clients[c] == cl
    ensures Has(w, c, cl)
  {
  }

  /** A snapshot taken at `moment`, resolved, and taken in by the client. */
  ghost predicate Fetched(realm: Realm, c: ClientId, cl: Client, purpose: Purpose, recs: seq<SeqRecord>,
                          resolved: Resolved, before: nat, moment: nat)
    reads realm
  {
    && realm.Valid() && before <= moment < |realm.past|
    && var w := realm.past[moment];
    && w.base < |w.wire| && recs == DrainOps(w.msgs) && |recs| == |w.wire| - w.base && w.path == realm.world.path
    && Has(realm.world, c,
           AfterResolve(realm.world.path, cl.(task := Drained(purpose, recs, w.base, |w.wire|)), resolved))
    && (resolved.Inline? ==> resolved.recs == w.wire[w.base..])
  }

  /** At each moment the stored log stands for the history since its baseline. */
  lemma StoredLog(k: Codec, w: World)
    requires Inv(k, w)
    ensures w.base < |w.wire| && |DrainOps(w.msgs)| == |w.wire| - w.base
  {
    assert LogOk(k, w);
    hide Inv, DrainOps, WireForm, ManifestChunksOf;
  }

  lemma FetchedIs(realm: Realm, c: ClientId, cl: Client, purpose: Purpose, recs: seq<SeqRecord>, resolved: Resolved,
                  before: nat, moment: nat, w1: World, reachable: bool)
    requires realm.Valid() && before <= moment < |realm.past| && Inv(realm.k, realm.past[moment]) && Lossless(realm.k)
    requires var w := realm.past[moment];
      && recs == DrainOps(w.msgs) && w.path == realm.world.path && w.wire <= w1.wire && w1.path == w.path
      && Has(w1, c, cl.(task := Drained(purpose, recs, w.base, |w.wire|))) && Inv(realm.k, w1)
      && resolved == Manifests.Resolve(realm.k, Reached(w1, reachable), recs)
      && Has(realm.world, c, AfterResolve(w1.path, cl.(task := Drained(purpose, recs, w.base, |w.wire|)), resolved))
    ensures Fetched(realm, c, cl, purpose, recs, resolved, before, moment)
  {
    hide *;
    var w := realm.past[moment];
    StoredLog(realm.k, w);
    HasOwn(realm.k, w1, c, cl.(task := Drained(purpose, recs, w.base, |w.wire|)));
    DrainedMeans(realm.k, w1, c, purpose, recs, w.base, |w.wire|);
    StoreOf(realm.k, w1);
    ReachedSome(w1, reachable);
    SnapshotResolves(realm.k, w1, Reached(w1, reachable), recs, w.base, |w.wire|);
    assert w1.wire[w.base..|w.wire|] == w.wire[w.base..];
    FetchedFrom(realm, c, cl, purpose, recs, resolved, before, moment);
  }

  lemma StoreOf(k: Codec, w: World)
    requires Inv(k, w)
    ensures StoreOk(w) && LogOk(k, w)
  {
    hide LogOk, StoreOk, ClientOk, BlobsOk, Coherent;
  }

  lemma HasOwn(k: Codec, w: World, c: ClientId, cl: Client)
    requires Inv(k, w) && Has(w, c, cl)
    ensures ClientOk(k, w, c, cl) && TaskOk(k, w, c, cl.task) && (cl.lifecycle.Archived? ==> IsArchived(w))
  {
    hide LogOk, StoreOk, BlobsOk, Coherent, TaskOk, IsArchived;
  }

  lemma FetchedFrom(realm: Realm, c: ClientId, cl: Client, purpose: Purpose, recs: seq<SeqRecord>, resolved: Resolved,
                    before: nat, moment: nat)
    requires realm.Valid() && before <= moment < |realm.past|
    requires var w := realm.past[moment];
      && w.base < |w.wire| && recs == DrainOps(w.msgs) && |recs| == |w.wire| - w.base && w.path == realm.world.path
      && Has(realm.world, c,
             AfterResolve(realm.world.path, cl.(task := Drained(purpose, recs, w.base, |w.wire|)), resolved))
      && (resolved.Inline? ==> resolved.recs == w.wire[w.base..])
    ensures Fetched(realm, c, cl, purpose, recs, resolved, before, moment)
  {
    hide Trace, Lossless, DrainOps, AfterResolve;
  }

  lemma FetchedMeans(realm: Realm, c: ClientId, cl: Client, purpose: Purpose, recs: seq<SeqRecord>, resolved: Resolved,
                     before: nat, moment: nat)
    requires Fetched(realm, c, cl, purpose, recs, resolved, before, moment)
    ensures realm.Valid() && before <= moment < |realm.past|
    ensures var w := realm.past[moment];
      && w.base < |w.wire| && recs == DrainOps(w.msgs) && |recs| == |w.wire| - w.base && w.path == realm.world.path
      && Has(realm.world, c,
             AfterResolve(realm.world.path, cl.(task := Drained(purpose, recs, w.base, |w.wire|)), resolved))
      && (resolved.Inline? ==> resolved.recs == w.wire[w.base..])
      && Inv(realm.k, w)
  {
    realm.Sound();
    hide Inv, Lossless, DrainOps, AfterResolve, Leads;
  }

  /** What a reader of the stored log is shown. */
  ghost predicate Observed(w: World, frontier: seq<OpId>, lifecycle: Lifecycle) {
    w.base <= |w.wire| && var mt := View(w.path, w.wire[w.base..]); frontier == mt.frontier && lifecycle == mt.lifecycle
  }

  ghost predicate Bare(w: World) {
    |DrainOps(w.msgs)| == 1
  }

  /** What a rollup comes to when nobody interferes and every request works. */
  ghost function QuietRollup(w: World, allowArchived: bool): Option<Problem> {
    if IsArchived(w) && !allowArchived then Some(TopicArchived)
    else if |DrainOps(w.msgs)| <= 1 then Some(NothingToCompact)
    else if |w.msgs| > 0 && w.msgs[|w.msgs| - 1].rec.None? then Some(RollupLost)
    else None
  }

  /** The stored log's view is well-formed and shows archived exactly when the topic is. */
  lemma ShownLifecycle(k: Codec, w: World)
    requires Inv(k, w) && w.base < |w.wire|
    ensures var mt := View(w.path, w.wire[w.base..]); mt.malformed.None? && (mt.lifecycle.Archived? <==> IsArchived(w))
  {
    hide *;
    InvStarts(k, w);
    LogBase(k, w);
    ReaderAgrees(w.path, w.wire, w.used, w.base);
    PlainStarts(w.wire);
    ViewFacts(w.path, Plain(w.wire));
    SameShown(View(w.path, w.wire[w.base..]), View(w.path, Plain(w.wire)));
    ArchivedTruth(w);
  }

  lemma LogBase(k: Codec, w: World)
    requires LogOk(k, w)
    ensures BaselineAt(w.wire, w.base)
  {
    hide DrainOps, WireForm, ManifestChunksOf;
  }

  lemma SameShown(a: MaterializedTopic, b: MaterializedTopic)
    requires SameTopic(a, b)
    ensures a.malformed == b.malformed && a.lifecycle == b.lifecycle
  {
  }

  lemma ArchivedTruth(w: World)
    requires StartsWithBaseline(w.wire)
    ensures StartsWithBaseline(Plain(w.wire)) && (IsArchived(w) <==> SettledLifecycle(FoldLog(Plain(w.wire))).Archived?)
  {
    PlainStarts(w.wire);
    hide SettledLifecycle, FoldLog, Plain;
  }

  lemma BareIs(w: World)
    ensures Bare(w) <==> |DrainOps(w.msgs)| == 1
  {
  }

  lemma SingleAfter(w: World, v: World, names: seq<string>, id: OpId)
    requires Single(w, id)
    ensures Deleted(w, v, names) ==> Single(v, id)
  {
    hide DrainOps;
  }

  lemma SingleIsBare(w: World, id: OpId)
    ensures Single(w, id) ==> Bare(w)
  {
    hide DrainOps;
  }

  lemma SingleSame(w: World, v: World, id: OpId)
    ensures SameLog(w, v) && Single(w, id) ==> Single(v, id)
  {
    hide DrainOps;
  }

  lemma SameLogServer(w: World, v: World)
    requires SameServer(w, v)
    ensures SameLog(w, v)
  {
  }

  lemma SameLogBoth(u: World, w: World, v: World)
    requires SameLog(u, w) && SameLog(u, v)
    ensures SameLog(w, v)
  {
  }

  lemma SameLogChain(u: World, w: World, v: World)
    ensures SameLog(u, w) && SameLog(w, v) ==> SameLog(u, v)
  {
  }

  lemma PayloadFrontier(mt: MaterializedTopic)
    ensures RollupPayload(mt).frontier == mt.frontier
  {
  }

  lemma ServerMeans(w: World, v: World)
    requires SameServer(w, v)
    ensures v.msgs == w.msgs && v.wire == w.wire && v.base == w.base && v.objects == w.objects && SameLog(w, v)
  {
  }

  lemma QuietSame(w: World, v: World, allowArchived: bool)
    requires SameLog(w, v)
    ensures QuietRollup(w, allowArchived) == QuietRollup(v, allowArchived)
  {
    hide DrainOps, Truth;
  }

  lemma QuietIs(w: World, allowArchived: bool)
    requires |DrainOps(w.msgs)| > 0
    ensures IsArchived(w) && !allowArchived ==> QuietRollup(w, allowArchived) == Some(TopicArchived)
    ensures !(IsArchived(w) && !allowArchived) && |DrainOps(w.msgs)| <= 1 ==>
      QuietRollup(w, allowArchived) == Some(NothingToCompact)
    ensures !(IsArchived(w) && !allowArchived) && |DrainOps(w.msgs)| > 1 && |w.msgs| > 0 ==>
      QuietRollup(w, allowArchived) == if w.msgs[|w.msgs| - 1].rec.None? then Some(RollupLost) else None
  {
    hide DrainOps, IsArchived;
  }

  lemma ObservedIs(w: World, frontier: seq<OpId>, lifecycle: Lifecycle)
    requires w.base <= |w.wire| && frontier == View(w.path, w.wire[w.base..]).frontier
      && lifecycle == View(w.path, w.wire[w.base..]).lifecycle
    ensures Observed(w, frontier, lifecycle)
  {
    hide View;
  }

  /** Undisturbed, the guard holds unless the log ends in garbage. */
  lemma QuietGuard(k: Codec, w: World, v: World, c: ClientId, cl: Client)
    requires Inv(k, w) && Inv(k, v) && SameLog(w, v) && Has(v, c, cl) && cl.task.Ready? && cl.task.upto == |w.wire|
    ensures |w.msgs| > 0 && |v.msgs| > 0
    ensures cl.task.tail == LastSeq(v) <==> w.msgs[|w.msgs| - 1].rec.Some?
  {
    hide *;
    InvMessages(k, w);
    HasOwn(k, v, c, cl);
    InvStarts(k, v);
    CoherentStarts(v.wire, v.used);
    GuardIff(k, v, c, cl.task);
    SameLogMeans(w, v);
  }

  lemma SameLogMeans(w: World, v: World)
    requires SameLog(w, v)
    ensures v.msgs == w.msgs && v.wire == w.wire && v.base == w.base
  {
  }

  /** The view is what the log stored at that moment shows. */
  ghost predicate Shows(w: World, mt: MaterializedTopic) {
    w.base < |w.wire| && mt == View(w.path, w.wire[w.base..]) && mt.malformed.None?
      && (mt.lifecycle.Archived? <==> IsArchived(w))
  }

  lemma ShowsIs(w: World, mt: MaterializedTopic)
    requires w.base < |w.wire| && mt == View(w.path, w.wire[w.base..]) && mt.malformed.None?
      && (mt.lifecycle.Archived? <==> IsArchived(w))
    ensures Shows(w, mt)
  {
    hide View, IsArchived;
  }

  lemma SameShows(w: World, v: World, mt: MaterializedTopic)
    requires SameServer(w, v) && w.path == v.path && Shows(v, mt)
    ensures Shows(w, mt)
  {
    hide View, Truth;
  }

  lemma MalformedShows(path: string, why: Malformation)
    ensures var mt := MalformedView(path, why); mt.frontier == [] && mt.lifecycle == Proposed && mt.malformed.Some?
  {
  }

  lemma AfterRead(path: string, cl: Client, resolved: Resolved)
    requires cl.task.Drained? && cl.task.purpose.Read?
    ensures AfterResolve(path, cl, resolved) ==
      if resolved.Broken? then Client([], Proposed, Idle)
      else var mt := View(path, resolved.recs); Client(mt.frontier, mt.lifecycle, Idle)
  {
    hide View;
  }

  /** What must already have happened for an op to be posted. */
  function Begun(op: Op): Task {
    if op.AttachmentAdd? then Uploaded(op.blob) else Idle
  }

  lemma BegunIs(op: Op)
    ensures Begun(op) == if op.AttachmentAdd? then Uploaded(op.blob) else Idle
  {
  }

  /** The last record ever accepted is this one. */
  ghost predicate EndsWith(w: World, opId: OpId, author: Persona, parents: seq<OpId>, op: Op) {
    |w.wire| > 0 && var r := w.wire[|w.wire| - 1].record;
      r.id == opId && r.author == author && r.parents == parents && r.op == op
  }

  /** The last record ever accepted bears this time. */
  ghost predicate Stamped(w: World, ts: Time) {
    |w.wire| > 0 && w.wire[|w.wire| - 1].record.ts == ts
  }

  lemma StampedIs(w: World, v: World, sr: SeqRecord)
    requires v.wire == w.wire + [sr]
    ensures Stamped(v, sr.record.ts)
  {
  }

  lemma EndsWithIs(w: World, v: World, sr: SeqRecord)
    requires v.wire == w.wire + [sr]
    ensures EndsWith(v, sr.record.id, sr.record.author, sr.record.parents, sr.record.op)
  {
  }

  /** A post lands as the newest record, with all that follows from it. */
  lemma PostLands(k: Codec, w: World, a: Action, cl: Client)
    requires Inv(k, w) && a.Post? && |w.msgs| > 0 && Has(w, a.c, cl) && a.id !in w.used && w.lastSeq < a.seqNo
      && !a.op.Baseline?
    requires !cl.lifecycle.Archived? && cl.task == if a.op.AttachmentAdd? then Uploaded(a.op.blob) else Idle
    ensures Enabled(w, a)
    ensures var v := Perform(k, w, a);
      && Has(v, a.c, Client(if a.acked then [a.id] else cl.frontier,
                            if a.acked && a.adopts && a.op.LifeTransition? && a.op.readable then a.op.to
                            else cl.lifecycle,
                            Idle))
      && EndsWith(v, a.id, a.author, cl.frontier, a.op) && Stamped(v, a.ts)
      && (a.op == LifeTransition(true, Archived) ==> IsArchived(v))
      && (a.op == LifeTransition(true, Closed) ==> IsShut(v) && (IsArchived(v) <==> IsArchived(w)))
      && (a.op.AttachmentAdd? ==> a.op.blob in v.objects)
      && |v.msgs| > 0 && v.msgs[|v.msgs| - 1].rec.Some? && |DrainOps(v.msgs)| == |DrainOps(w.msgs)| + 1
  {
    hide *;
    InvStarts(k, w);
    CanPost(k, w, a, cl);
    var v := Perform(k, w, a);
    var sr := SeqRecord(Record(a.id, a.author, cl.frontier, a.ts, a.op), a.seqNo);
    if a.op.AttachmentAdd? {
      HasOwn(k, w, a.c, cl);
      UploadedMeans(k, w, a.c, a.op.blob);
    }
    PostArchives(w, v, sr);
    PostShuts(w, v, sr);
    DrainAppend(w.msgs, Msg(a.seqNo, Some(sr.record)));
    EndsWithIs(w, v, sr);
    StampedIs(w, v, sr);
  }

  lemma LandsMeans(w: World, v: World, id: OpId)
    requires LandsNew(w, v)
    ensures id in w.used ==> forall i :: |w.wire| <= i < |v.wire| ==> v.wire[i].record.id != id
    ensures id in v.used && id !in w.used ==> LandedSince(w, v, id)
  {
    hide LandedSince;
  }

  lemma PostShuts(w: World, v: World, sr: SeqRecord)
    requires StartsWithBaseline(w.wire) && v.wire == w.wire + [sr] && !sr.record.op.Baseline?
    ensures sr.record.op == LifeTransition(true, Closed) ==> IsShut(v) && (IsArchived(v) <==> IsArchived(w))
  {
    TruthAppend(w.wire, sr);
    ArchivedIs(w);
    ArchivedIs(v);
    ShutIs(v);
    if sr.record.op == LifeTransition(true, Closed) { ClosingMoves(Truth(w.wire), sr); }
    hide *;
  }

  lemma ShutIs(w: World)
    requires StartsWithBaseline(w.wire)
    ensures var l := SettledLifecycle(Truth(w.wire)); IsShut(w) <==> l.Closed? || l.Archived?
  {
    hide Truth, SettledLifecycle;
  }

  lemma ClosingMoves(s: State, sr: SeqRecord)
    requires Bounded(s) && sr.record.op == LifeTransition(true, Closed)
    ensures SettledLifecycle(Step(s, sr)) == if SettledLifecycle(s).Archived? then SettledLifecycle(s) else Closed
  {
    hide Step, SettledLifecycle, CountsAsContent;
    LifecycleStep(s, sr);
  }

  lemma AllShut(k: Codec, past: seq<World>, acts: seq<Action>, i: nat)
    requires Trace(k, past, acts) && i < |past| && IsShut(past[i])
    ensures forall j :: i <= j < |past| ==> IsShut(past[j])
  {
    hide *;
    forall j | i <= j < |past| ensures IsShut(past[j]) { TraceShut(k, past, acts, i, j); }
  }

  lemma PostArchives(w: World, v: World, sr: SeqRecord)
    requires StartsWithBaseline(w.wire) && v.wire == w.wire + [sr] && !sr.record.op.Baseline?
    ensures sr.record.op == LifeTransition(true, Archived) ==> IsArchived(v)
  {
    hide EssenceOf, Truth, AttachmentsKept;
    PostMoves(w.wire, sr);
  }

  /** No withdrawn attachment's object is left. */
  ghost predicate Swept(w: World) {
    StartsWithBaseline(w.wire) && forall i :: 0 <= i < |Now(w).attachments| && Now(w).attachments[i].removed ==>
      Now(w).attachments[i].blob !in w.objects
  }

  /** No object is gone but those of withdrawn attachments. */
  ghost predicate SweptOnly(w: World, v: World) {
    StartsWithBaseline(w.wire) && forall n :: n in w.objects && n !in v.objects ==>
      exists i :: 0 <= i < |Now(w).attachments| && Now(w).attachments[i].removed && Now(w).attachments[i].blob == n
  }

  lemma SweptOnlyBy(k: Codec, u: World, w: World, fetched: World, v: World, names: seq<string>)
    requires Inv(k, w) && w.base < |w.wire| && SameServer(u, w) && SameServer(w, fetched) && Deleted(fetched, v, names)
    requires names == RemovedBlobs(View(w.path, w.wire[w.base..]).attachments)
    ensures SweptOnly(u, v)
  {
    hide *;
    InvStarts(k, w);
    LogBase(k, w);
    ShownAttachments(w);
    ServerMeans(u, w);
    ServerMeans(w, fetched);
    DeletedMeans(fetched, v, names);
    var xs := View(w.path, w.wire[w.base..]).attachments;
    SameNowWire(w, u);
    forall n | n in u.objects && n !in v.objects
      ensures
        exists i :: 0 <= i < |Now(u).attachments| && Now(u).attachments[i].removed && Now(u).attachments[i].blob == n {
      InElems(names, n);
      RemovedBlobsExactly(xs, n);
      var i :| 0 <= i < |xs| && xs[i].removed && xs[i].blob == n;
      assert Now(u).attachments[i].removed && Now(u).attachments[i].blob == n;
    }
    SweptOnlyIs(u, v);
  }

  lemma SweptOnlyIs(w: World, v: World)
    requires StartsWithBaseline(w.wire)
    requires forall n :: n in w.objects && n !in v.objects ==>
      exists i :: 0 <= i < |Now(w).attachments| && Now(w).attachments[i].removed && Now(w).attachments[i].blob == n
    ensures SweptOnly(w, v)
  {
    hide Now;
  }

  lemma AfterSweep(path: string, cl: Client, resolved: Resolved)
    requires cl.task.Drained? && cl.task.purpose.Sweep?
    ensures AfterResolve(path, cl, resolved) ==
      cl.(task := if resolved.Broken? then Idle else Deleting(RemovedBlobs(View(path, resolved.recs).attachments)))
  {
    hide View, RemovedBlobs;
  }

  lemma RemovedOne(xs: seq<Attachment>, i: nat)
    requires i < |xs|
    ensures RemovedBlobs(xs[..0]) == []
    ensures RemovedBlobs(xs[..i + 1]) == RemovedBlobs(xs[..i]) + if xs[i].removed then [xs[i].blob] else []
  {
    assert xs[..i + 1][..i] == xs[..i];
  }

  method WithdrawnNames(xs: seq<Attachment>) returns (names: seq<string>)
    ensures names == RemovedBlobs(xs)
  {
    names := [];
    for i := 0 to |xs|
      invariant names == RemovedBlobs(xs[..i])
    {
      RemovedOne(xs, i);
      if xs[i].removed {
        names := names + [xs[i].blob];
      }
    }
    assert xs[..|xs|] == xs;
  }

  lemma SameServerChain(u: World, w: World, v: World)
    requires SameServer(u, w) && SameServer(w, v)
    ensures SameServer(u, v)
  {
  }

  lemma SameFinished(w: World, v: World)
    requires SameServer(w, v)
    ensures Finished(w) ==> Finished(v)
  {
    hide DrainOps, EssenceOf, Truth;
  }

  lemma SameServerBoth(u: World, w: World, v: World)
    requires SameServer(u, w) && SameServer(u, v)
    ensures SameServer(w, v)
  {
  }

  lemma DeletedLog(u: World, w: World, v: World, names: seq<string>)
    requires SameServer(u, w) && Deleted(w, v, names)
    ensures SameLog(u, v)
  {
  }

  /** Every withdrawn attachment of the moment is among the names deleted. */
  lemma SweptBy(k: Codec, w: World, fetched: World, v: World, names: seq<string>)
    requires Inv(k, w) && w.base < |w.wire| && SameServer(w, fetched) && Deleted(fetched, v, names)
    requires names == RemovedBlobs(View(w.path, w.wire[w.base..]).attachments)
    ensures Swept(v)
  {
    hide *;
    InvStarts(k, w);
    LogBase(k, w);
    ShownAttachments(w);
    ServerMeans(w, fetched);
    DeletedMeans(fetched, v, names);
    var xs := View(w.path, w.wire[w.base..]).attachments;
    SameNowWire(w, v);
    forall i | 0 <= i < |Now(v).attachments| && Now(v).attachments[i].removed
      ensures Now(v).attachments[i].blob !in v.objects {
      RemovedBlobsExactly(xs, xs[i].blob);
      InElems(names, xs[i].blob);
    }
    SweptIs(v);
  }

  lemma InElems(names: seq<string>, n: string)
    ensures n in names <==> n in Elems(names)
  {
  }

  lemma SweptIs(w: World)
    requires StartsWithBaseline(w.wire)
    requires forall i :: 0 <= i < |Now(w).attachments| && Now(w).attachments[i].removed ==>
      Now(w).attachments[i].blob !in w.objects
    ensures Swept(w)
  {
    hide Now;
  }

  lemma DeletedMeans(w: World, v: World, names: seq<string>)
    requires Deleted(w, v, names)
    ensures v.msgs == w.msgs && v.wire == w.wire && v.base == w.base && v.objects == w.objects - Elems(names)
  {
  }

  lemma SameNowWire(w: World, v: World)
    requires StartsWithBaseline(w.wire) && v.wire == w.wire
    ensures StartsWithBaseline(v.wire) && Now(v) == Now(w)
  {
  }

  /** The stored log lists the attachments everyone sees. */
  lemma ShownAttachments(w: World)
    requires Coherent(w.wire, w.used) && BaselineAt(w.wire, w.base) && StartsWithBaseline(w.wire)
    ensures w.base < |w.wire|
    ensures var xs, ys := View(w.path, w.wire[w.base..]).attachments, Now(w).attachments;
      |xs| == |ys| && forall i :: 0 <= i < |xs| ==> xs[i].blob == ys[i].blob && xs[i].removed == ys[i].removed
  {
    var s := FoldLog(w.wire[w.base..]);
    assert EssenceOf(s) == Now(w) by {
      assert Agrees(ReadFrom(w.wire, w.base), w.used, EssenceOf(Truth(w.wire)));
      hide Sound, EssenceOf, FoldLog;
    }
    hide Coherent, FoldLog, SettledLifecycle, Truth;
    ViewFacts(w.path, w.wire[w.base..]);
    EssenceKept(s);
    hide View, EssenceOf, Now;
  }

  lemma ArchivedSince(k: Codec, past: seq<World>, acts: seq<Action>, i: int, j: nat)
    requires Trace(k, past, acts) && 0 <= i <= j < |past| && IsArchived(past[i])
    ensures IsArchived(past[j])
  {
    hide *;
    TraceArchived(k, past, acts, i, j);
  }

  lemma ObservedArchived(k: Codec, past: seq<World>, acts: seq<Action>, m: nat, frontier: seq<OpId>,
                         lifecycle: Lifecycle)
    requires Trace(k, past, acts) && m < |past| && IsArchived(past[m]) && Observed(past[m], frontier, lifecycle)
    ensures lifecycle.Archived?
  {
    assert Inv(k, past[m]) by { hide Inv, Leads, IsArchived, Observed; }
    hide *;
    StoredLog(k, past[m]);
    ShownLifecycle(k, past[m]);
    ObservedMeans(past[m], frontier, lifecycle);
  }

  lemma ObservedMeans(w: World, frontier: seq<OpId>, lifecycle: Lifecycle)
    requires Observed(w, frontier, lifecycle)
    ensures w.base <= |w.wire| && lifecycle == View(w.path, w.wire[w.base..]).lifecycle
  {
    hide View;
  }

  /** The transition landed at `i`, and the topic has been closed or archived since. */
  ghost predicate Closes(past: seq<World>, i: nat, opId: OpId, author: Persona, parents: seq<OpId>) {
    && i < |past| && EndsWith(past[i], opId, author, parents, LifeTransition(true, Closed))
    && forall j :: i <= j < |past| ==> IsShut(past[j])
  }

  lemma ClosesIs(past: seq<World>, i: nat, opId: OpId, author: Persona, parents: seq<OpId>)
    requires i < |past| && EndsWith(past[i], opId, author, parents, LifeTransition(true, Closed))
    requires forall j :: i <= j < |past| ==> IsShut(past[j])
    ensures Closes(past, i, opId, author, parents)
  {
    hide EndsWith, IsShut;
  }

  /** The stored log is the single baseline `id` of an archived topic. */
  ghost predicate Final(w: World, id: OpId) {
    Single(w, id) && IsArchived(w)
  }

  /** Archived, compact, and rid of withdrawn objects. */
  ghost predicate Finished(w: World) {
    Bare(w) && IsArchived(w) && Swept(w)
  }

  /** An archived log still to be compacted that ends in a message nobody can parse: the guard of every rollup names the
      last operation, which is never the last message again. */
  ghost predicate Stuck(w: World) {
    IsArchived(w) && |DrainOps(w.msgs)| > 1 && |w.msgs| > 0 && w.msgs[|w.msgs| - 1].rec.None?
  }

  lemma FinalIs(w: World, id: OpId)
    requires Single(w, id) && IsArchived(w)
    ensures Final(w, id)
  {
    hide Single, IsArchived;
  }

  lemma FinishedIs(w: World, v: World)
    requires IsArchived(v)
    ensures SameLog(w, v) && Swept(v) && Bare(w) ==> Finished(v)
  {
    hide Swept, IsArchived, DrainOps;
  }

  lemma BareSame(w: World, v: World)
    requires SameLog(w, v)
    ensures Bare(w) <==> Bare(v)
  {
    hide DrainOps;
  }

  lemma QuietArchived(w: World)
    requires IsArchived(w) && |DrainOps(w.msgs)| > 0
    ensures QuietRollup(w, true) ==
      if Stuck(w) then Some(RollupLost) else if Bare(w) then Some(NothingToCompact) else None
  {
    hide IsArchived, DrainOps;
  }

  lemma AllArchived(k: Codec, past: seq<World>, acts: seq<Action>, i: nat)
    requires Trace(k, past, acts) && i < |past| && IsArchived(past[i])
    ensures forall j :: i <= j < |past| ==> IsArchived(past[j])
  {
    hide *;
    forall j | i <= j < |past| ensures IsArchived(past[j]) { TraceArchived(k, past, acts, i, j); }
  }

  lemma MarkedNotStuck(w: World)
    ensures |w.msgs| > 0 && w.msgs[|w.msgs| - 1].rec.Some? ==> !Stuck(w)
  {
    hide IsArchived, DrainOps;
  }

  lemma SameStuck(w: World, v: World)
    requires SameServer(w, v)
    ensures Stuck(w) <==> Stuck(v)
  {
    hide DrainOps, Truth;
  }

  lemma ShowsMeans(w: World, mt: MaterializedTopic)
    requires Shows(w, mt)
    ensures mt.lifecycle.Archived? <==> IsArchived(w)
    ensures !mt.lifecycle.Archived? ==> !Stuck(w)
  {
    hide View, IsArchived, DrainOps;
  }

  /** The head of the log is the baseline that was alone at `i`, or became alone since. */
  lemma HeadedSince(k: Codec, past: seq<World>, acts: seq<Action>, i: nat, id: OpId)
    requires Trace(k, past, acts) && i < |past| && Bare(past[i])
    requires |DrainOps(past[|past| - 1].msgs)| > 0 && DrainOps(past[|past| - 1].msgs)[0].record.id == id
    ensures exists m :: i <= m < |past| && Single(past[m], id)
  {
    hide *;
    HeadedIs(past[|past| - 1], id);
    HeadBorn(k, past, acts, i, |past| - 1, id);
    if Headed(past[i], id) {
      BareHeaded(past[i], id);
      assert Single(past[i], id);
    }
  }

  lemma HeadedIs(w: World, id: OpId)
    requires |DrainOps(w.msgs)| > 0 && DrainOps(w.msgs)[0].record.id == id
    ensures Headed(w, id)
  {
    hide DrainOps;
  }

  lemma BareHeaded(w: World, id: OpId)
    requires Bare(w) && Headed(w, id)
    ensures Single(w, id)
  {
    hide DrainOps;
  }

  // ----- what a compacting handle makes of its snapshot

  lemma AfterBroken(path: string, cl: Client, resolved: Resolved)
    requires cl.task.Drained? && !cl.task.purpose.Read? && resolved.Broken?
    ensures AfterResolve(path, cl, resolved) == cl.(task := Idle)
  {
  }

  lemma AfterCompact(path: string, cl: Client, allowArchived: bool, recs: seq<SeqRecord>)
    requires cl.task.Drained? && cl.task.purpose == Compact(allowArchived)
    ensures var t, mt := cl.task, View(path, recs);
      AfterResolve(path, cl, Inline(recs)) ==
      if mt.malformed.Some? || (mt.lifecycle.Archived? && !allowArchived) || |recs| <= 1 then cl.(task := Idle)
      else cl.(task := Ready(mt, ManifestChunksOf(t.recs), recs[|recs| - 1].streamSeq, t.from, t.upto, None))
  {
    hide View, ManifestChunksOf;
  }

  /** With the object store in reach, a fresh snapshot always resolves. */
  lemma ReachableResolves(k: Codec, w: World, c: ClientId, cl: Client)
    requires Lossless(k) && Inv(k, w) && cl.task.Drained? && cl.task.recs == DrainOps(w.msgs)
    ensures Manifests.Resolve(k, Reached(w, true), cl.task.recs) == Inline(w.wire[w.base..])
  {
    StoreOf(k, w);
    hide Inv, Lossless, LogOk, StoreOk, Manifests.Resolve, DrainOps;
    StoredLogResolves(k, w);
  }

  // ----- a landed rollup

  /** A rollup by `author` has just landed: the newest record bakes everything `mt` shows and continues from its
      frontier, and it is all the log holds, inline or, if large, as a manifest of the document stored beside it. */
  ghost predicate Landed(k: Codec, w: World, id: OpId, author: Persona, mt: MaterializedTopic, large: bool) {
    && |w.wire| > 0 && |w.msgs| == 1 && w.msgs[0].rec.Some?
    && var r, m := w.wire[|w.wire| - 1].record, w.msgs[0].rec.value;
    && r.id == id && r.author == author && r.parents == mt.frontier
    && r.op.Baseline? && r.op.readable && Bakes(r.op.baseline, mt)
    && if large then ManifestOf(k, w.objects, m, r) else m == r
  }

  /** The record as published: all but the document, which is the named object, with its digest and its length. */
  ghost predicate ManifestOf(k: Codec, objects: map<string, Bytes>, m: Record, r: Record) {
    && m.id == r.id && m.author == r.author && m.parents == r.parents && m.ts == r.ts
    && m.op.Baseline? && m.op.readable && r.op.Baseline?
    && m.op.baseline.frontier == r.op.baseline.frontier && m.op.baseline.state.None? && m.op.baseline.baked.None?
    && m.op.baseline.manifest.Some?
    && var ref := m.op.baseline.manifest.value;
    && |ref.chunks| == 1 && ref.chunks[0] in objects
    && var doc := objects[ref.chunks[0]];
    && doc == k.encode(StateDoc(r.op.baseline.state, r.op.baseline.baked))
    && ref.digest == k.digest(doc) && ref.size == |doc|
  }

  lemma LandedIs(k: Codec, w: World, v: World, c: ClientId, cl: Client, id: OpId, author: Persona, ts: Time, seqNo: nat)
    requires Inv(k, w) && Inv(k, v) && Has(w, c, cl) && cl.task.Ready?
    requires Replaces(k, w, v, cl.task, RollupRecord(cl.task.mt, id, author, ts), seqNo)
    ensures Landed(k, v, id, author, cl.task.mt, cl.task.chunk.Some?)
  {
    var t := cl.task;
    hide *;
    HasOwn(k, w, c, cl);
    StoreOf(k, v);
    RollupBakes(t.mt, id, author, ts);
    PayloadDoc(t.mt, id, author, ts);
    LandedForm(k, w, v, c, t, RollupRecord(t.mt, id, author, ts), seqNo);
  }

  /** The plan of a rollup: the view of the stored log and the objects its baseline was read from. */
  ghost predicate Planned(w: World, mt: MaterializedTopic, superseded: seq<string>, upto: nat) {
    && w.base < |w.wire| && mt == View(w.path, w.wire[w.base..]) && upto == |w.wire|
    && superseded == ManifestChunksOf(DrainOps(w.msgs))
  }

  lemma PlannedIs(w: World, mt: MaterializedTopic, superseded: seq<string>, upto: nat)
    requires w.base < |w.wire| && mt == View(w.path, w.wire[w.base..]) && upto == |w.wire|
    requires superseded == ManifestChunksOf(DrainOps(w.msgs))
    ensures Planned(w, mt, superseded, upto) && Observed(w, mt.frontier, mt.lifecycle)
  {
    hide View, ManifestChunksOf, DrainOps;
  }

  /** From the log as it was at `w` to the rollup of exactly that log, nothing posted in between. */
  ghost predicate Compacts(k: Codec, w: World, v: World, id: OpId, author: Persona) {
    && w.base < |w.wire| && w.wire <= v.wire && |v.wire| == |w.wire| + 1
    && var mt := View(w.path, w.wire[w.base..]);
    Landed(k, v, id, author, mt, k.size(RollupPayload(mt)) > InlineBaselineThreshold)
  }

  lemma CompactsIs(k: Codec, past: seq<World>, acts: seq<Action>, m: nat, i: nat, mt: MaterializedTopic,
                   superseded: seq<string>, upto: nat, id: OpId, author: Persona)
    requires Trace(k, past, acts) && m <= i < |past| && Planned(past[m], mt, superseded, upto)
    requires |past[i].wire| == upto + 1
    requires Landed(k, past[i], id, author, mt, k.size(RollupPayload(mt)) > InlineBaselineThreshold)
    ensures Compacts(k, past[m], past[i], id, author)
  {
    TraceExtends(k, past, acts, m, i);
    hide Trace, Landed, View, RollupPayload, ManifestChunksOf, DrainOps;
  }

  /** Some log since `from` was rolled up, as `id`. */
  ghost predicate WasCompacted(k: Codec, past: seq<World>, from: nat, id: OpId, author: Persona) {
    exists m, i :: from <= m <= i < |past| && Compacts(k, past[m], past[i], id, author)
  }

  lemma WasCompactedIs(k: Codec, past: seq<World>, from: nat, m: nat, i: nat, id: OpId, author: Persona)
    requires from <= m <= i < |past| && Compacts(k, past[m], past[i], id, author)
    ensures WasCompacted(k, past, from, id, author)
  {
    hide Compacts;
  }

  lemma WasCompactedLater(k: Codec, past: seq<World>, more: seq<World>, from: nat, id: OpId, author: Persona)
    requires WasCompacted(k, past, from, id, author) && past <= more
    ensures WasCompacted(k, more, from, id, author)
  {
    hide Compacts;
    var m, i :| from <= m <= i < |past| && Compacts(k, past[m], past[i], id, author);
    assert more[m] == past[m] && more[i] == past[i];
  }

  /** Of the objects there were exactly those the old baseline named are gone. */
  ghost predicate ChunksGone(w: World, v: World) {
    forall n :: n in w.objects ==> (n in v.objects <==> n !in ManifestChunksOf(DrainOps(w.msgs)))
  }

  lemma ChunksGoneIs(w: World, u: World, v: World, mt: MaterializedTopic, names: seq<string>, upto: nat, landed: World)
    requires Planned(u, mt, names, upto) && SameLog(w, u) && StoreKept(w, landed) && Deleted(landed, v, names)
    ensures ChunksGone(w, v)
  {
    hide ManifestChunksOf, DrainOps, View;
  }

  /** A rollup only lands on the log its snapshot saw. */
  lemma LandedWhole(k: Codec, w: World, v: World, c: ClientId, cl: Client, r: Record, seqNo: nat)
    requires Inv(k, w) && Has(w, c, cl) && cl.task.Ready? && |w.msgs| > 0 && cl.task.tail == LastSeq(w)
    requires Replaces(k, w, v, cl.task, r, seqNo)
    ensures |v.wire| == cl.task.upto + 1 && Stamped(v, r.ts)
  {
    hide *;
    HasOwn(k, w, c, cl);
    InvStarts(k, w);
    CoherentStarts(w.wire, w.used);
    GuardIff(k, w, c, cl.task);
    ReplacesStore(k, w, v, cl.task, r, seqNo);
    StampedIs(w, v, SeqRecord(r, seqNo));
  }

  lemma ReplacesStore(k: Codec, w: World, v: World, t: Task, r: Record, seqNo: nat)
    requires Replaces(k, w, v, t, r, seqNo)
    ensures v.objects == w.objects && v.wire == w.wire + [SeqRecord(r, seqNo)]
  {
    hide ManifestForm;
  }

  lemma PayloadDoc(mt: MaterializedTopic, id: OpId, author: Persona, ts: Time)
    ensures RollupRecord(mt, id, author, ts).op.baseline == RollupPayload(mt)
  {
    hide RollupPayload;
  }

  lemma LandedForm(k: Codec, w: World, v: World, c: ClientId, t: Task, r: Record, seqNo: nat)
    requires TaskOk(k, w, c, t) && LogOk(k, v) && StoreOk(v) && t.Ready? && Replaces(k, w, v, t, r, seqNo)
    requires r.op.Baseline? && r.op.readable && r.op.baseline == RollupPayload(t.mt) && Bakes(r.op.baseline, t.mt)
    requires r.parents == t.mt.frontier
    ensures Landed(k, v, r.id, r.author, t.mt, t.chunk.Some?)
  {
    hide Bakes, RollupPayload, View, WireForm;
    assert DrainOps(v.msgs) == [SeqRecord(v.msgs[0].rec.value, seqNo)] by { assert v.msgs[..0] == []; }
    hide DrainOps;
    if t.chunk.Some? {
      var n := t.chunk.value;
      assert ManifestChunksOf(DrainOps(v.msgs)) == [n];
      assert n in v.objects && v.objects[n] == v.contents[n] == k.encode(DocOf(r.op.baseline));
    }
  }

  class Handle {
    const realm: Realm
    const me: ClientId
    const author: Persona
    var frontier: seq<OpId>
    var lifecycle: Lifecycle

    /** The fields are what the machine says this client has observed, and it is in the middle of `t`. */
    ghost predicate At(t: Task)
      reads this, realm
    {
      realm.Valid() && Has(realm.world, me, Client(frontier, lifecycle, t))
    }

    /** Open: binds a client to a topic and publishes nothing. */
    constructor Open(realm: Realm, me: ClientId, author: Persona)
      requires realm.Valid() && Has(realm.world, me, Client([], Unset, Idle))
      ensures At(Idle) && this.realm == realm && this.me == me && this.author == author && frontier == []
        && lifecycle == Unset
    {
      hide *;
      this.realm, this.me, this.author, frontier, lifecycle := realm, me, author, [], Unset;
      new;
      NowAt(Idle);
    }

    method DrainOnce(purpose: Purpose) returns (recs: seq<SeqRecord>, ok: bool)
      requires At(Idle) && (purpose.Sweep? ==> lifecycle.Archived?)
      modifies realm
      ensures old(realm.past) <= realm.past && Attempts(realm.acts, me) == old(Attempts(realm.acts, me))
      ensures old(realm.world.wire) <= realm.world.wire && realm.world.path == old(realm.world.path)
      ensures ok ==>
        |old(realm.past)| < |realm.past| && recs == DrainOps(realm.world.msgs)
          && At(Drained(purpose, recs, realm.world.base, |realm.world.wire|))
      ensures !ok ==> At(Idle)
      ensures old(realm.turns) == [] ==> ok && realm.turns == []
      ensures old(realm.turns) == [] ==>
        Only(old(realm.world), realm.world, me,
             Client(frontier, lifecycle, Drained(purpose, recs, realm.world.base, |realm.world.wire|)))
    {
      hide *;
      Member(Idle);
      var reply, _ := realm.Next(me);
      StillAt(Idle);
      if !reply.Works? {
        return [], false;
      }
      recs, ok := DrainOps(realm.world.msgs), true;
      realm.Sound();
      ghost var w := realm.world;
      CanDrain(realm.k, w, me, Client(frontier, lifecycle, Idle), purpose);
      realm.Do(Drain(me, purpose));
      OnlyHas(w, realm.world, me, Client(frontier, lifecycle, Drained(purpose, recs, w.base, |w.wire|)));
      NowAt(Drained(purpose, recs, w.base, |w.wire|));
    }

    /** drainOps, then resolveBaseline: the snapshot was the stored log at `moment`, and it resolves to the stretch of
        history that log stood for or not at all. */
    method Fetch(purpose: Purpose) returns (recs: seq<SeqRecord>, resolved: Resolved, ok: bool, ghost moment: nat)
      requires At(Idle) && (purpose.Sweep? ==> lifecycle.Archived?)
      modifies realm
      ensures old(realm.past) <= realm.past && Attempts(realm.acts, me) == old(Attempts(realm.acts, me))
      ensures old(realm.world.wire) <= realm.world.wire && realm.world.path == old(realm.world.path)
      ensures !ok ==> At(Idle)
      ensures ok ==>
        Fetched(realm, me, Client(frontier, lifecycle, Idle), purpose, recs, resolved, |old(realm.past)|, moment)
      ensures old(realm.turns) == [] ==>
        ok && realm.turns == [] && resolved.Inline? && SameServer(old(realm.world), realm.world)
      ensures old(realm.turns) == [] ==> moment < |realm.past| && SameServer(old(realm.world), realm.past[moment])
    {
      hide *;
      resolved := Broken(ManifestUnreadable);
      ghost var before := realm.world;
      recs, ok := DrainOnce(purpose);
      moment := 0;
      if !ok {
        return;
      }
      moment := |realm.past| - 1;
      ghost var w0 := realm.world;
      ghost var cl := Client(frontier, lifecycle, Drained(purpose, recs, w0.base, |w0.wire|));
      Member(cl.task);
      realm.Sound();
      var reply, _ := realm.Next(me);
      StillAt(cl.task);
      ghost var w1 := realm.world;
      resolved := ResolveBaseline(realm.k, Reached(realm.world, reply.Works?), recs);
      realm.Sound();
      CanResolve(realm.k, w1, me, cl, reply.Works?);
      realm.Do(Action.Resolve(me, reply.Works?));
      ghost var next := AfterResolve(w1.path, cl, resolved);
      OnlyHas(w1, realm.world, me, next);
      FetchedIs(realm, me, Client(frontier, lifecycle, Idle), purpose, recs, resolved, |old(realm.past)|, moment, w1,
                reply.Works?);
      if old(realm.turns) == [] {
        OnlyTwice(before, w1, realm.world, me, cl, next);
        OnlySame(before, w0, me, cl);
        OnlySame(before, realm.world, me, next);
        ReachableResolves(realm.k, w1, me, cl);
      }
    }

    /** Best-effort deletion, one request an object. */
    method DeleteAll(names: seq<string>, ghost cl: Client)
      requires realm.Valid() && Has(realm.world, me, cl) && cl.task == Deleting(names)
      modifies realm
      ensures realm.Valid() && Has(realm.world, me, cl.(task := Idle))
      ensures old(realm.past) <= realm.past && Attempts(realm.acts, me) == old(Attempts(realm.acts, me))
      ensures old(realm.world.wire) <= realm.world.wire && realm.world.path == old(realm.world.path)
      ensures old(realm.turns) == [] ==> realm.turns == [] && Deleted(old(realm.world), realm.world, names)
    {
      hide *;
      ghost var before := realm.world;
      DeletedNone(before);
      for i := 0 to |names|
        invariant realm.Valid() && Has(realm.world, me, cl.(task := Deleting(names[i..])))
        invariant old(realm.past) <= realm.past && Attempts(realm.acts, me) == old(Attempts(realm.acts, me))
        invariant before.wire <= realm.world.wire && realm.world.path == before.path
        invariant old(realm.turns) == [] ==> realm.turns == [] && Deleted(before, realm.world, names[..i])
      {
        ghost var rest := cl.(task := Deleting(names[i..]));
        HasMeans(realm.world, me, rest);
        var reply, _ := realm.Next(me);
        HasStill(realm.world, me, rest);
        realm.Sound();
        ghost var w := realm.world;
        CanDelete(realm.k, w, me, rest, reply.Works?);
        realm.Do(Delete(me, reply.Works?));
        assert names[i..][1..] == names[i + 1..];
        OnlyHas(if reply.Works? then Without(w, names[i]) else w,
                realm.world, me, cl.(task := Deleting(names[i + 1..])));
        WithoutFields(w, names[i]);
        if old(realm.turns) == [] {
          DeletedOne(before, w, realm.world, names[..i], names[i]);
          assert names[..i] + [names[i]] == names[..i + 1];
        }
      }
      realm.Sound();
      ghost var w := realm.world;
      assert names[|names|..] == [] && names[..|names|] == names;
      CanDelete(realm.k, w, me, cl.(task := Deleting([])), true);
      realm.Do(Delete(me, true));
      OnlyHas(w, realm.world, me, cl.(task := Idle));
      if old(realm.turns) == [] {
        DeletedSame(before, w, realm.world, names);
      }
    }

    /** The object store takes the state document before the manifest that names it is published. */
    method PutDocument(ghost t: Task) returns (ok: bool, ghost task: Task)
      requires At(t) && t.Ready? && t.chunk.None?
      modifies realm
      ensures old(realm.past) <= realm.past && Attempts(realm.acts, me) == old(Attempts(realm.acts, me))
      ensures old(realm.world.wire) <= realm.world.wire && realm.world.path == old(realm.world.path)
      ensures At(task) && task.Ready? && task == t.(chunk := task.chunk)
      ensures ok <==> task.chunk.Some?
      ensures old(realm.turns) == [] ==> ok && realm.turns == [] && SameLog(old(realm.world), realm.world)
      ensures old(realm.turns) == [] ==> StoreKept(old(realm.world), realm.world)
    {
      hide *;
      task := t;
      StoreKeptSame(realm.world, realm.world);
      Member(t);
      var reply, _ := realm.Next(me);
      StillAt(t);
      ok := reply.Works?;
      SameLogSelf(realm.world);
      if ok {
        realm.Sound();
        ghost var w := realm.world;
        var name := FreshName(realm.world.contents.Keys);
        CanPutChunk(realm.k, w, me, Client(frontier, lifecycle, t), name);
        realm.Do(PutChunk(me, name));
        task := t.(chunk := Some(name));
        NowAt(task);
        SameLogIs(w, realm.world);
        StoreKeptNew(realm.k, w, realm.world, name, realm.world.contents[name]);
      }
    }

    /** publishBaseline: inline, or document first and manifest after, under the same guard: the last message must
        still be `lastSeq`. The document's size decides between the two, and is not otherwise of interest. */
    method PublishBaseline(large: bool, lastSeq: nat, ghost t: Task) returns (opId: OpId, err: Option<Problem>)
      requires At(t) && t.Ready? && t.chunk.None? && lastSeq == t.tail
      modifies realm
      ensures realm.Valid() && old(realm.past) <= realm.past
      ensures old(realm.world.wire) <= realm.world.wire && realm.world.path == old(realm.world.path)
      ensures Attempts(realm.acts, me) <= old(Attempts(realm.acts, me)) + 1
      ensures err.None? ==>
        Single(realm.world, opId) && Has(realm.world, me, Client(t.mt.frontier, t.mt.lifecycle, Deleting(t.superseded)))
      ensures err.None? ==>
        && Landed(realm.k, realm.world, opId, author, t.mt, large) && |realm.world.wire| == t.upto + 1
        && Stamped(realm.world, realm.clock)
        && Attempts(realm.acts, me) == old(Attempts(realm.acts, me)) + 1
      ensures err.Some? ==> At(Idle) && (err.value.RollupLost? || err.value.Trouble?)
      ensures err == Some(RollupLost) ==>
        && Attempts(realm.acts, me) == old(Attempts(realm.acts, me)) + 1
        && |realm.world.msgs| > 0 && lastSeq != LastSeq(realm.world)
      ensures old(realm.turns) == [] ==> realm.turns == [] && |old(realm.world.msgs)| > 0
      ensures old(realm.turns) == [] ==>
        if lastSeq == LastSeq(old(realm.world)) then err.None?
        else err == Some(RollupLost) && SameLog(old(realm.world), realm.world)
      ensures old(realm.turns) == [] ==> StoreKept(old(realm.world), realm.world)
    {
      hide *;
      ghost var task := t;
      ghost var before := realm.world;
      Member(t);
      realm.Sound();
      SameLogSelf(before);
      StoreKeptSame(before, before);
      if large {
        var ok;
        ok, task := PutDocument(t);
        if !ok {
          Stop(task);
          return "", Some(Trouble);
        }
      }
      Member(task);
      var reply, now := realm.Next(me);
      StillAt(task);
      if reply.Fails? {
        Stop(task);
        return "", Some(Trouble);
      }
      realm.Sound();
      ghost var w := realm.world;
      opId := FreshName(realm.world.used);
      var lost := lastSeq != LastSeq(realm.world);
      CanPublish(realm.k, w, Publish(me, opId, author, now, w.lastSeq + 1, reply.Works?),
                 Client(frontier, lifecycle, task));
      realm.Do(Publish(me, opId, author, now, realm.world.lastSeq + 1, reply.Works?));
      SameTail(before, w);
      ghost var cl := Client(frontier, lifecycle, task);
      realm.Sound();
      if !lost {
        LandedIs(realm.k, w, realm.world, me, cl, opId, author, now, w.lastSeq + 1);
        RollupBakes(task.mt, opId, author, now);
        LandedWhole(realm.k, w, realm.world, me, cl, RollupRecord(task.mt, opId, author, now), w.lastSeq + 1);
        ReplacesStore(realm.k, w, realm.world, task, RollupRecord(task.mt, opId, author, now), w.lastSeq + 1);
      } else {
        OnlyHas(w, realm.world, me, Client(frontier, lifecycle, Idle));
      }
      StoreKeptSame(w, realm.world);
      StoreKeptTwice(before, w, realm.world);
      if lost {
        err := Some(if reply.Works? then RollupLost else Trouble);
        OnlyHas(w, realm.world, me, Client(frontier, lifecycle, Idle));
        NowAt(Idle);
        SameLogOnly(before, w, realm.world);
        SameLogSelf(w);
        SameLogOnly(w, w, realm.world);
        SameTail(w, realm.world);
      } else if reply.Works? {
        err := None;
      } else {
        err := Some(Trouble);
        NowAt(Idle);
      }
    }

    /** The first half of a rollup: drain, resolve, fold, and refuse where there is nothing to gain or to trust. */
    method PlanRollup(allowArchived: bool)
      returns (mt: MaterializedTopic, superseded: seq<string>, lastSeq: nat, err: Option<Problem>, ghost t: Task,
               ghost moment: nat)
      requires At(Idle)
      modifies realm
      ensures realm.Valid() && old(realm.past) <= realm.past
        && Attempts(realm.acts, me) == old(Attempts(realm.acts, me))
      ensures old(realm.world.wire) <= realm.world.wire && realm.world.path == old(realm.world.path)
      ensures err.Some? ==> At(Idle) && err.value in {Trouble, Malformed, TopicArchived, NothingToCompact}
      ensures err.None? ==>
        At(t) && t.Ready? && t.chunk.None? && t.mt == mt && t.superseded == superseded && t.tail == lastSeq
      ensures err.None? || err.value.TopicArchived? || err.value.NothingToCompact? ==>
        |old(realm.past)| <= moment < |realm.past|
      ensures err.None? ==>
        Planned(realm.past[moment], mt, superseded, t.upto) && Observed(realm.past[moment], mt.frontier, mt.lifecycle)
      ensures old(realm.turns) == [] && err.None? ==> SameLog(old(realm.world), realm.past[moment])
      ensures old(realm.turns) == [] ==> StoreKept(old(realm.world), realm.world)
      ensures err == Some(TopicArchived) ==> !allowArchived && IsArchived(realm.past[moment])
      ensures err == Some(NothingToCompact) ==> Bare(realm.past[moment])
      ensures old(realm.turns) == [] ==>
        realm.turns == [] && SameLog(old(realm.world), realm.world) && |realm.world.msgs| > 0
      ensures old(realm.turns) == [] ==>
        QuietRollup(old(realm.world), allowArchived) ==
          if err.None? && lastSeq != LastSeq(realm.world) then Some(RollupLost) else err
    {
      hide *;
      mt, superseded, lastSeq, t := MalformedView("", NoBaseline), [], 0, Idle;
      ghost var before := realm.world;
      ghost var cl := Client(frontier, lifecycle, Idle);
      Member(Idle);
      var recs, resolved, ok;
      recs, resolved, ok, moment := Fetch(Compact(allowArchived));
      if old(realm.turns) == [] {
        ServerMeans(before, realm.world);
        StoreKeptSame(before, realm.world);
      }
      if !ok {
        AtValid(Idle);
        err := Some(Trouble);
        return;
      }
      FetchedMeans(realm, me, cl, Compact(allowArchived), recs, resolved, |old(realm.past)|, moment);
      ghost var w := realm.past[moment];
      ghost var drained := cl.(task := Drained(Compact(allowArchived), recs, w.base, |w.wire|));
      if resolved.Broken? {
        AfterBroken(w.path, drained, resolved);
        NowAt(Idle);
        err := Some(Malformed);
        return;
      }
      superseded := ManifestChunksOf(recs);
      mt := ApplyLoop.Apply(realm.world.path, resolved.recs);
      AfterCompact(w.path, drained, allowArchived, resolved.recs);
      if mt.malformed.Some? {
        ShownLifecycle(realm.k, w);
        assert false;
      }
      ShownLifecycle(realm.k, w);
      BareIs(w);
      realm.Sound();
      if old(realm.turns) == [] {
        SameLogServer(before, w);
        SameLogServer(before, realm.world);
        SameLogBoth(before, w, realm.world);
        QuietSame(before, w, allowArchived);
        QuietIs(w, allowArchived);
      }
      if mt.lifecycle.Archived? && !allowArchived {
        NowAt(Idle);
        err := Some(TopicArchived);
      } else if |recs| <= 1 {
        NowAt(Idle);
        err := Some(NothingToCompact);
      } else {
        err := None;
        lastSeq := resolved.recs[|resolved.recs| - 1].streamSeq;
        t := Ready(mt, superseded, lastSeq, w.base, |w.wire|, None);
        NowAt(t);
        PlannedIs(w, mt, superseded, t.upto);
        if old(realm.turns) == [] {
          QuietGuard(realm.k, w, realm.world, me, Client(frontier, lifecycle, t));
        }
      }
    }

    /** Rollup: compacts the topic unless it is archived, already compact, or someone writes in between. */
    method Rollup(allowArchived: bool) returns (opId: OpId, err: Option<Problem>)
      requires At(Idle)
      modifies realm, this`frontier, this`lifecycle
      ensures At(Idle) && old(realm.past) <= realm.past
      ensures old(realm.world.wire) <= realm.world.wire && realm.world.path == old(realm.world.path)
      ensures Attempts(realm.acts, me) <= old(Attempts(realm.acts, me)) + 1
      ensures err.None? || err == Some(RollupLost) ==>
        Attempts(realm.acts, me) == old(Attempts(realm.acts, me)) + 1
      ensures err.None? ==> exists i :: |old(realm.past)| <= i < |realm.past| && Single(realm.past[i], opId)
      ensures err.None? ==>
        exists m :: |old(realm.past)| <= m < |realm.past| && Observed(realm.past[m], frontier, lifecycle)
      ensures err.None? ==> WasCompacted(realm.k, realm.past, |old(realm.past)|, opId, author)
      ensures err.Some? ==> frontier == old(frontier) && lifecycle == old(lifecycle)
      ensures err.Some? ==> err.value in {RollupLost, Trouble, Malformed, TopicArchived, NothingToCompact}
      ensures err == Some(NothingToCompact) ==> exists i :: |old(realm.past)| <= i < |realm.past| && Bare(realm.past[i])
      ensures err == Some(TopicArchived) ==>
        !allowArchived && exists m :: |old(realm.past)| <= m < |realm.past| && IsArchived(realm.past[m])
      ensures old(realm.turns) == [] ==> realm.turns == [] && err == QuietRollup(old(realm.world), allowArchived)
      ensures old(realm.turns) == [] ==>
        if err.None? then Single(realm.world, opId) && ChunksGone(old(realm.world), realm.world)
        else SameLog(old(realm.world), realm.world)
    {
      hide *;
      ghost var before := realm.world;
      var mt, superseded, lastSeq;
      ghost var t, moment;
      mt, superseded, lastSeq, err, t, moment := PlanRollup(allowArchived);
      opId := "";
      if err.Some? {
        return;
      }
      ghost var planned, plan := realm.world, realm.past[moment];
      ghost var length: nat := |realm.past|;
      var payload := BakePayload(mt);
      opId, err := PublishBaseline(realm.k.size(payload) > InlineBaselineThreshold, lastSeq, t);
      SameLogChain(before, planned, realm.world);
      if err.Some? {
        return;
      }
      realm.Sound();
      assert Single(realm.past[|realm.past| - 1], opId);
      ghost var landed, i := realm.world, |realm.past| - 1;
      CompactsIs(realm.k, realm.past, realm.acts, moment, i, mt, superseded, t.upto, opId, author);
      WasCompactedIs(realm.k, realm.past, |old(realm.past)|, moment, i, opId, author);
      ghost var past := realm.past;
      DeleteAll(superseded, Client(mt.frontier, mt.lifecycle, Deleting(superseded)));
      PayloadFrontier(mt);
      frontier, lifecycle := payload.frontier, mt.lifecycle;
      NowAt(Idle);
      assert Observed(realm.past[moment], frontier, lifecycle);
      SingleAfter(landed, realm.world, superseded, opId);
      WasCompactedLater(realm.k, past, realm.past, |old(realm.past)|, opId, author);
      if old(realm.turns) == [] {
        StoreKeptTwice(before, planned, landed);
        ChunksGoneIs(before, plan, realm.world, mt, superseded, t.upto, landed);
      }
    }

    /** Materialise: replays the log and adopts what it shows. */
    method Materialise() returns (mt: MaterializedTopic, err: Option<Problem>)
      requires At(Idle)
      modifies realm, this`frontier, this`lifecycle
      ensures At(Idle) && old(realm.past) <= realm.past && Attempts(realm.acts, me) == old(Attempts(realm.acts, me))
      ensures old(realm.world.wire) <= realm.world.wire && realm.world.path == old(realm.world.path)
      ensures err.Some? ==> err.value.Trouble? && frontier == old(frontier) && lifecycle == old(lifecycle)
      ensures err.None? ==> frontier == mt.frontier && lifecycle == mt.lifecycle
      ensures err.None? && mt.malformed.Some? ==> mt.frontier == [] && mt.lifecycle == Proposed
      ensures err.None? && mt.malformed.None? ==>
        exists m :: |old(realm.past)| <= m < |realm.past| && Shows(realm.past[m], mt)
      ensures old(realm.turns) == [] ==>
        realm.turns == [] && err.None? && mt.malformed.None? && Shows(old(realm.world), mt)
      ensures old(realm.turns) == [] ==> SameServer(old(realm.world), realm.world)
    {
      hide *;
      ghost var before := realm.world;
      ghost var cl := Client(frontier, lifecycle, Idle);
      Member(Idle);
      var recs, resolved, ok;
      ghost var moment;
      recs, resolved, ok, moment := Fetch(Read);
      mt, err := MalformedView("", NoBaseline), None;
      if !ok {
        err := Some(Trouble);
        return;
      }
      FetchedMeans(realm, me, cl, Read, recs, resolved, |old(realm.past)|, moment);
      ghost var w := realm.past[moment];
      AfterRead(w.path, cl.(task := Drained(Read, recs, w.base, |w.wire|)), resolved);
      if resolved.Broken? {
        mt := MalformedView(realm.world.path, resolved.why);
        MalformedShows(realm.world.path, resolved.why);
      } else {
        mt := ApplyLoop.Apply(realm.world.path, resolved.recs);
        ShownLifecycle(realm.k, w);
        ShowsIs(w, mt);
        assert Shows(realm.past[moment], mt);
        if old(realm.turns) == [] { SameShows(before, w, mt); }
      }
      frontier, lifecycle := mt.frontier, mt.lifecycle;
      NowAt(Idle);
    }

    /** Post: parents onto what the handle has observed, and is refused once it has seen the topic archived. Only Close
        and Archive make the handle adopt the transition they post. */
    method Post(op: Op, adopts: bool) returns (opId: OpId, err: Option<Problem>)
      requires !op.Baseline? && At(Begun(op))
      modifies realm, this`frontier, this`lifecycle
      ensures At(Idle) && old(realm.past) <= realm.past && Attempts(realm.acts, me) == old(Attempts(realm.acts, me))
      ensures old(realm.world.wire) <= realm.world.wire && realm.world.path == old(realm.world.path)
      ensures LandsNew(old(realm.world), realm.world)
      ensures old(lifecycle).Archived? <==> err == Some(TopicArchived)
      ensures opId == "" <==> err.Some?
      ensures err.Some? ==>
        err.value in {TopicArchived, Trouble} && frontier == old(frontier) && lifecycle == old(lifecycle)
      ensures err == Some(TopicArchived) ==> realm.world.wire == old(realm.world.wire)
      ensures err.None? ==>
        && |old(realm.past)| < |realm.past| && frontier == [opId]
        && EndsWith(realm.world, opId, author, old(frontier), op) && Stamped(realm.world, realm.clock)
      ensures err.None? ==> lifecycle == if adopts && op.LifeTransition? && op.readable then op.to else old(lifecycle)
      ensures err.None? && op == LifeTransition(true, Archived) ==> IsArchived(realm.world)
      ensures err.None? && op == LifeTransition(true, Closed) ==>
        IsShut(realm.world) && (old(realm.turns) == [] ==> (IsArchived(realm.world) <==> IsArchived(old(realm.world))))
      ensures err.None? && op.AttachmentAdd? ==> op.blob in realm.world.objects
      ensures old(realm.turns) == [] ==> realm.turns == [] && (err.None? || err == Some(TopicArchived))
      ensures old(realm.turns) == [] && err.None? ==>
        |realm.world.msgs| > 0 && realm.world.msgs[|realm.world.msgs| - 1].rec.Some?
          && |DrainOps(realm.world.msgs)| == |DrainOps(old(realm.world.msgs))| + 1
    {
      hide *;
      ghost var t, before := Begun(op), realm.world;
      Member(t);
      opId := "";
      if lifecycle.Archived? {
        Stop(t);
        ServerMeans(before, realm.world);
        err := Some(TopicArchived);
        return;
      }
      var reply, now := realm.Next(me);
      StillAt(t);
      ghost var met := realm.world;
      if reply.Fails? {
        Stop(t);
        LandsTwice(before, met, realm.world);
        err := Some(Trouble);
        return;
      }
      realm.Sound();
      ghost var w := realm.world;
      ghost var cl := Client(frontier, lifecycle, t);
      var id := FreshName(realm.world.used);
      BegunIs(op);
      PostLands(realm.k, w, Action.Post(me, id, author, now, op, w.lastSeq + 1, reply.Works?, adopts), cl);
      realm.Do(Action.Post(me, id, author, now, op, realm.world.lastSeq + 1, reply.Works?, adopts));
      LandsTwice(before, met, realm.world);
      if reply.Works? {
        opId, err := id, None;
        frontier := [opId];
        if adopts && op.LifeTransition? && op.readable {
          lifecycle := op.to;
        }
      } else {
        err := Some(Trouble);
      }
      NowAt(Idle);
    }

    /** PostTurnIdempotent: the caller's id doubles as the duplicate-detection identity. However others interfere and
        whichever answers are lost, a known id lands nothing, an unknown one at most once, and success means it has
        landed; either way the handle goes on from it. */
    method PostTurnIdempotent(op: Op, id: OpId) returns (opId: OpId, err: Option<Problem>)
      requires op.TurnPost? && At(Idle)
      modifies realm, this`frontier, this`lifecycle
      ensures At(Idle) && old(realm.past) <= realm.past && lifecycle == old(lifecycle)
      ensures old(lifecycle).Archived? <==> err == Some(TopicArchived)
      ensures err.Some? ==> frontier == old(frontier)
      ensures err.None? ==> frontier == [opId] && (id != "" ==> opId == id) && opId in realm.world.used
      ensures LandsNew(old(realm.world), realm.world)
      ensures id in old(realm.world.used) ==>
        forall i :: |old(realm.world.wire)| <= i < |realm.world.wire| ==> realm.world.wire[i].record.id != id
      ensures err.None? && opId !in old(realm.world.used) ==> LandedSince(old(realm.world), realm.world, opId)
      ensures old(realm.turns) == [] ==> realm.turns == [] && (err.None? || err == Some(TopicArchived))
      ensures old(realm.turns) == [] && id in old(realm.world.used) && id != "" ==>
        realm.world.wire == old(realm.world.wire)
      ensures old(realm.turns) == [] && err.None? && (id !in old(realm.world.used) || id == "") ==>
        && EndsWith(realm.world, opId, author, old(frontier), op) && Stamped(realm.world, realm.clock)
        && |realm.world.wire| == |old(realm.world.wire)| + 1
    {
      hide *;
      BegunIs(op);
      opId := "";
      Member(Idle);
      ghost var before := realm.world;
      LandsNothing(before);
      LandsMeans(before, before, id);
      if lifecycle.Archived? {
        err := Some(TopicArchived);
        return;
      }
      ghost var cl := Client(frontier, lifecycle, Idle);
      var reply, now := realm.Next(me);
      StillAt(Idle);
      LandsMeans(before, realm.world, id);
      if reply.Fails? {
        err := Some(Trouble);
        return;
      }
      realm.Sound();
      ghost var w := realm.world;
      var use := if id == "" then FreshName(realm.world.used) else id;
      if use in realm.world.used {
        if reply.NoAnswer? {
          err := Some(Trouble);
          return;
        }
        CanRepost(realm.k, w, me, cl, use);
        realm.Do(Repost(me, use));
        OnlyHas(w, realm.world, me, cl.(frontier := [use]));
        LandsTwice(before, w, realm.world);
        LandsMeans(before, realm.world, id);
      } else {
        PostLands(realm.k, w, Action.Post(me, use, author, now, op, w.lastSeq + 1, reply.Works?, false), cl);
        CanPost(realm.k, w, Action.Post(me, use, author, now, op, w.lastSeq + 1, reply.Works?, false), cl);
        realm.Do(Action.Post(me, use, author, now, op, realm.world.lastSeq + 1, reply.Works?, false));
        LandsTwice(before, w, realm.world);
        LandsMeans(before, realm.world, id);
        if reply.NoAnswer? {
          NowAt(Idle);
          err := Some(Trouble);
          return;
        }
      }
      opId, err := use, None;
      LandsMeans(before, realm.world, opId);
      frontier := [opId];
      NowAt(Idle);
    }

    /** Transition: only to a state the protocol defines. */
    method Transition(to: Lifecycle, adopts: bool) returns (opId: OpId, err: Option<Problem>)
      requires At(Idle)
      modifies realm, this`frontier, this`lifecycle
      ensures At(Idle) && old(realm.past) <= realm.past && Attempts(realm.acts, me) == old(Attempts(realm.acts, me))
      ensures (to.Unset? || to.Undefined?) <==> err == Some(UndefinedLifecycle)
      ensures err == Some(UndefinedLifecycle) ==> realm.past == old(realm.past)
      ensures lifecycle == if err.None? && adopts then to else old(lifecycle)
      ensures err.Some? ==> frontier == old(frontier)
      ensures old(lifecycle).Archived? && err != Some(UndefinedLifecycle) <==> err == Some(TopicArchived)
      ensures opId == "" <==> err.Some?
      ensures err.Some? ==> err.value in {UndefinedLifecycle, TopicArchived, Trouble}
      ensures err.None? ==>
        |old(realm.past)| < |realm.past| && frontier == [opId]
          && EndsWith(realm.world, opId, author, old(frontier), LifeTransition(true, to))
      ensures err.None? && to.Archived? ==> IsArchived(realm.world)
      ensures err.None? && to.Closed? ==>
        IsShut(realm.world) && (old(realm.turns) == [] ==> (IsArchived(realm.world) <==> IsArchived(old(realm.world))))
      ensures old(realm.turns) == [] && err != Some(UndefinedLifecycle) ==>
        realm.turns == [] && (err.None? || err == Some(TopicArchived))
      ensures old(realm.turns) == [] && err.None? ==>
        |realm.world.msgs| > 0 && realm.world.msgs[|realm.world.msgs| - 1].rec.Some?
          && |DrainOps(realm.world.msgs)| == |DrainOps(old(realm.world.msgs))| + 1
    {
      hide *;
      if to.Unset? || to.Undefined? {
        return "", Some(UndefinedLifecycle);
      }
      BegunIs(LifeTransition(true, to));
      opId, err := Post(LifeTransition(true, to), adopts);
    }

    /** Attach: the object is stored before any op names it. */
    method Attach(name: string, contentType: string, data: Bytes, anchor: OpId)
      returns (opId: OpId, err: Option<Problem>)
      requires At(Idle)
      modifies realm, this`frontier, this`lifecycle
      ensures At(Idle) && old(realm.past) <= realm.past && lifecycle == old(lifecycle)
      ensures IsBlank(name) <==> err == Some(EmptyName)
      ensures !IsBlank(name) && old(lifecycle).Archived? <==> err == Some(TopicArchived)
      ensures err == Some(EmptyName) || err == Some(TopicArchived) ==> realm.past == old(realm.past)
      ensures err.Some? ==> frontier == old(frontier)
      ensures err.None? ==> frontier == [opId] && exists blob ::
        EndsWith(realm.world, opId, author, old(frontier),
                 AttachmentAdd(name, blob, realm.k.digest(data), |data|, contentType, anchor))
        && blob in realm.world.objects && realm.world.objects[blob] == data
      ensures old(realm.turns) == [] ==> realm.turns == [] && (err.None? || err.value in {EmptyName, TopicArchived})
    {
      hide *;
      opId := "";
      if IsBlank(name) {
        err := Some(EmptyName);
        return;
      }
      if lifecycle.Archived? {
        err := Some(TopicArchived);
        return;
      }
      Member(Idle);
      var reply, _ := realm.Next(me);
      StillAt(Idle);
      if reply.Fails? {
        err := Some(Trouble);
        return;
      }
      realm.Sound();
      var blob := FreshName(realm.world.contents.Keys);
      CanUpload(realm.k, realm.world, me, Client(frontier, lifecycle, Idle), blob, data);
      realm.Do(Upload(me, blob, data));
      NowAt(Uploaded(blob));
      ghost var uploaded := realm.world;
      if !reply.Works? {
        Stop(Uploaded(blob));
        err := Some(Trouble);
        return;
      }
      var op := AttachmentAdd(name, blob, realm.k.digest(data), |data|, contentType, anchor);
      BegunIs(op);
      opId, err := Post(op, false);
      AtValid(Idle);
      realm.Sound();
      if err.None? { StillStored(realm.k, uploaded, realm.world, blob, data); }
    }

    /** sweepRemovedBlobs: deletes the objects of withdrawn attachments, as far as the servers let it. */
    method Sweep()
      requires At(Idle) && lifecycle.Archived?
      modifies realm
      ensures At(Idle) && old(realm.past) <= realm.past && Attempts(realm.acts, me) == old(Attempts(realm.acts, me))
      ensures old(realm.world.wire) <= realm.world.wire && realm.world.path == old(realm.world.path)
      ensures old(realm.turns) == [] ==>
        && realm.turns == [] && SameLog(old(realm.world), realm.world) && Swept(realm.world)
        && SweptOnly(old(realm.world), realm.world)
    {
      hide *;
      ghost var before := realm.world;
      ghost var cl := Client(frontier, lifecycle, Idle);
      Member(Idle);
      var recs, resolved, ok;
      ghost var moment;
      recs, resolved, ok, moment := Fetch(Purpose.Sweep);
      if !ok {
        return;
      }
      FetchedMeans(realm, me, cl, Purpose.Sweep, recs, resolved, |old(realm.past)|, moment);
      ghost var w := realm.past[moment];
      AfterSweep(w.path, cl.(task := Drained(Purpose.Sweep, recs, w.base, |w.wire|)), resolved);
      if resolved.Broken? {
        NowAt(Idle);
        return;
      }
      var mt := ApplyLoop.Apply(realm.world.path, resolved.recs);
      var names := WithdrawnNames(mt.attachments);
      ghost var fetched := realm.world;
      DeleteAll(names, cl.(task := Deleting(names)));
      NowAt(Idle);
      if old(realm.turns) == [] {
        SameServerBoth(before, w, fetched);
        SweptBy(realm.k, w, fetched, realm.world, names);
        SweptOnlyBy(realm.k, before, w, fetched, realm.world, names);
        DeletedLog(before, fetched, realm.world, names);
      }
    }

    /** archiveCompact: the final compaction, at most three guarded attempts against racing writers. */
    method ArchiveCompact() returns (opId: OpId, err: Option<Problem>)
      requires At(Idle) && IsArchived(realm.world)
      modifies realm, this`frontier, this`lifecycle
      ensures At(Idle) && old(realm.past) <= realm.past && Attempts(realm.acts, me) <= old(Attempts(realm.acts, me)) + 3
      ensures old(realm.world.wire) <= realm.world.wire && realm.world.path == old(realm.world.path)
      ensures err.None? ==>
        lifecycle.Archived? && exists i :: |old(realm.past)| <= i < |realm.past| && Single(realm.past[i], opId)
      ensures err == Some(NothingToCompact) ==> exists i :: |old(realm.past)| <= i < |realm.past| && Bare(realm.past[i])
      ensures err.Some? ==> frontier == old(frontier) && lifecycle == old(lifecycle)
      ensures err == Some(RacesLost) ==> Attempts(realm.acts, me) == old(Attempts(realm.acts, me)) + 3
      ensures err.Some? ==> err.value in {RacesLost, NothingToCompact, Trouble, Malformed}
      ensures old(realm.turns) == [] ==> realm.turns == []
      ensures old(realm.turns) == [] ==>
        match QuietRollup(old(realm.world), true)
        case Some(RollupLost) => err == Some(RacesLost) && SameLog(old(realm.world), realm.world)
        case Some(why) => err == Some(why) && SameLog(old(realm.world), realm.world)
        case None => err.None? && Single(realm.world, opId)
    {
      hide *;
      opId, err := "", Some(RacesLost);
      Member(Idle);
      realm.Sound();
      ghost var before := realm.world;
      SameLogSelf(before);
      var attempt := 0;
      while attempt < 3
        invariant 0 <= attempt <= 3
        invariant At(Idle) && old(realm.past) <= realm.past && before.wire <= realm.world.wire
          && realm.world.path == before.path
        invariant frontier == old(frontier) && lifecycle == old(lifecycle) && realm.Valid()
        invariant Attempts(realm.acts, me) == old(Attempts(realm.acts, me)) + attempt
        invariant old(realm.turns) == [] ==> realm.turns == [] && SameLog(before, realm.world)
        invariant old(realm.turns) == [] && attempt > 0 ==> QuietRollup(before, true) == Some(RollupLost)
      {
        ghost var start, length := realm.world, |realm.past|;
        var why;
        opId, why := Rollup(true);
        Member(Idle);
        realm.Sound();
        if old(realm.turns) == [] {
          QuietSame(before, start, true);
          SameLogChain(before, start, realm.world);
        }
        if why.None? {
          ghost var m :| length <= m < |realm.past| && Observed(realm.past[m], frontier, lifecycle);
          ArchivedSince(realm.k, realm.past, realm.acts, |old(realm.past)| - 1, m);
          ObservedArchived(realm.k, realm.past, realm.acts, m, frontier, lifecycle);
          return opId, None;
        }
        if !why.value.RollupLost? {
          return "", why;
        }
        attempt := attempt + 1;
      }
    }

    /** The topic is archived: compact what is left, then sweep. Nothing left to compact means it already was. */
    method FinishArchival() returns (opId: OpId, err: Option<Problem>)
      requires At(Idle) && lifecycle.Archived?
      modifies realm, this`frontier, this`lifecycle
      ensures At(Idle) && old(realm.past) <= realm.past && Attempts(realm.acts, me) <= old(Attempts(realm.acts, me)) + 3
      ensures lifecycle.Archived? && IsArchived(realm.world)
      ensures err.None? ==> exists i :: |old(realm.past)| <= i < |realm.past| && Final(realm.past[i], opId)
      ensures err.Some? ==> err.value in {TopicArchived, RacesLost, Trouble, Malformed}
      ensures err == Some(TopicArchived) ==>
        exists i :: |old(realm.past)| <= i < |realm.past| && Bare(realm.past[i]) && IsArchived(realm.past[i])
      ensures err == Some(RacesLost) ==> Attempts(realm.acts, me) == old(Attempts(realm.acts, me)) + 3
      ensures old(realm.turns) == [] ==> realm.turns == []
      ensures old(realm.turns) == [] ==>
        if Stuck(old(realm.world)) then err == Some(RacesLost) && SameLog(old(realm.world), realm.world)
        else
          && Finished(realm.world)
          && if Bare(old(realm.world)) then err == Some(TopicArchived) && SameLog(old(realm.world), realm.world)
             else err.None? && Single(realm.world, opId)
    {
      hide *;
      ghost var before, early := realm.world, |realm.past| as nat;
      Member(Idle);
      realm.Sound();
      HasOwn(realm.k, before, me, Client(frontier, lifecycle, Idle));
      StoreOf(realm.k, before);
      LogNonempty(realm.k, before);
      QuietArchived(before);
      opId, err := ArchiveCompact();
      Member(Idle);
      realm.Sound();
      AllArchived(realm.k, realm.past, realm.acts, early - 1);
      BareIs(realm.world);
      BareIs(before);
      if SameLog(before, realm.world) { BareSame(before, realm.world); }
      ghost var compacted := realm.world;
      SingleIsBare(compacted, opId);
      if err.None? {
        ghost var i :| early <= i < |realm.past| && Single(realm.past[i], opId);
        FinalIs(realm.past[i], opId);
        SweepAfter(early);
        SingleSame(compacted, realm.world, opId);
        assert Final(realm.past[i], opId);
      } else if err.value.NothingToCompact? {
        ghost var i :| early <= i < |realm.past| && Bare(realm.past[i]);
        assert IsArchived(realm.past[i]);
        SweepAfter(early);
        SameLogChain(before, compacted, realm.world);
        assert Bare(realm.past[i]) && IsArchived(realm.past[i]);
        opId, err := "", Some(TopicArchived);
      }
    }

    /** A sweep of a topic archived since `early`. */
    method SweepAfter(ghost early: nat)
      requires At(Idle) && lifecycle.Archived? && IsArchived(realm.world)
      modifies realm
      ensures At(Idle) && old(realm.past) <= realm.past && Attempts(realm.acts, me) == old(Attempts(realm.acts, me))
      ensures IsArchived(realm.world) && realm.Valid()
      ensures old(realm.turns) == [] ==> realm.turns == [] && (Bare(old(realm.world)) ==> Finished(realm.world))
      ensures old(realm.turns) == [] ==> SameLog(old(realm.world), realm.world)
    {
      hide *;
      ghost var before, length := realm.world, |realm.past| as nat;
      Member(Idle);
      realm.Sound();
      Sweep();
      Member(Idle);
      realm.Sound();
      AllArchived(realm.k, realm.past, realm.acts, length - 1);
      FinishedIs(before, realm.world);
    }

    /** The topic is not archived as far as this handle knows: say so, compact, sweep. Should someone else's compaction
        have baked the transition first, the baseline found at the head of the log is the answer. */
    method BeginArchival() returns (opId: OpId, err: Option<Problem>)
      requires At(Idle) && !lifecycle.Archived?
      modifies realm, this`frontier, this`lifecycle
      ensures At(Idle) && old(realm.past) <= realm.past && Attempts(realm.acts, me) <= old(Attempts(realm.acts, me)) + 3
      ensures err.None? ==> exists i :: |old(realm.past)| <= i < |realm.past| && Final(realm.past[i], opId)
      ensures err.Some? ==> err.value in {RacesLost, Trouble, Malformed}
      ensures err.None? || err == Some(RacesLost) ==> lifecycle.Archived? && IsArchived(realm.world)
      ensures err == Some(RacesLost) ==> Attempts(realm.acts, me) == old(Attempts(realm.acts, me)) + 3
      ensures old(realm.turns) == [] ==>
        realm.turns == [] && err.None? && Finished(realm.world) && Single(realm.world, opId)
    {
      hide *;
      opId := "";
      ghost var before := realm.world;
      Member(Idle);
      realm.Sound();
      StoreOf(realm.k, before);
      LogNonempty(realm.k, before);
      var _, refused := Transition(Archived, true);
      Member(Idle);
      realm.Sound();
      if refused.Some? {
        err := refused;
        return;
      }
      ghost var marked, early := realm.world, |realm.past| as nat;
      StoreOf(realm.k, marked);
      LogNonempty(realm.k, marked);
      QuietArchived(marked);
      MarkedNotStuck(marked);
      BareIs(marked);
      opId, err := ArchiveCompact();
      Member(Idle);
      realm.Sound();
      AllArchived(realm.k, realm.past, realm.acts, early - 1);
      ghost var compacted := realm.world;
      SingleIsBare(compacted, opId);
      if err.None? {
        ghost var i :| early <= i < |realm.past| && Single(realm.past[i], opId);
        FinalIs(realm.past[i], opId);
        SweepAfter(early);
        SingleSame(compacted, realm.world, opId);
        assert Final(realm.past[i], opId);
      } else if err.value.NothingToCompact? {
        ghost var i :| early <= i < |realm.past| && Bare(realm.past[i]);
        SweepAfter(early);
        var ok;
        ghost var m;
        ghost var swept := realm.world;
        opId, ok, m := HeadNow(i);
        if SameServer(swept, realm.world) { SameFinished(swept, realm.world); }
        err := if ok then None else Some(Trouble);
        AtValid(Idle);
        realm.Sound();
        AllArchived(realm.k, realm.past, realm.acts, early - 1);
        if ok { FinalIs(realm.past[m], opId); }
      }
    }

    /** The baseline now at the head of the log; it was alone there at `m`. */
    method HeadNow(ghost i: nat) returns (opId: OpId, ok: bool, ghost m: nat)
      requires At(Idle) && i < |realm.past| && Bare(realm.past[i])
      modifies realm
      ensures At(Idle) && old(realm.past) <= realm.past && Attempts(realm.acts, me) == old(Attempts(realm.acts, me))
      ensures ok ==> i <= m < |realm.past| && Single(realm.past[m], opId)
      ensures old(realm.turns) == [] ==> ok && realm.turns == [] && SameServer(old(realm.world), realm.world)
    {
      hide *;
      ghost var before := realm.world;
      opId, m := "", 0;
      var recs;
      recs, ok := DrainOnce(Read);
      if ok {
        ghost var t := Drained(Read, recs, realm.world.base, |realm.world.wire|);
        AtValid(t);
        realm.Sound();
        StoreOf(realm.k, realm.world);
        LogNonempty(realm.k, realm.world);
        opId := recs[0].record.id;
        HeadedSince(realm.k, realm.past, realm.acts, i, opId);
        m :| i <= m < |realm.past| && Single(realm.past[m], opId);
        ghost var drained := realm.world;
        Stop(t);
        if old(realm.turns) == [] {
          OnlySame(before, drained, me, Client(frontier, lifecycle, t));
          SameServerChain(before, drained, realm.world);
        }
      }
    }

    /** Archive: records the transition and compacts, or finishes an archival that was left half done. An op-id without
        error is the baseline that was, at some moment of the call, all the archived topic's log held. Left undisturbed
        the call ends in that state and with withdrawn objects gone, unless an archived log ends in garbage. */
    method Archive() returns (opId: OpId, err: Option<Problem>)
      requires At(Idle)
      modifies realm, this`frontier, this`lifecycle
      ensures At(Idle) && old(realm.past) <= realm.past
      ensures Attempts(realm.acts, me) <= old(Attempts(realm.acts, me)) + 3
      ensures err.None? ==> exists i :: |old(realm.past)| <= i < |realm.past| && Final(realm.past[i], opId)
      ensures err == Some(TopicArchived) ==>
        exists i :: |old(realm.past)| <= i < |realm.past| && Bare(realm.past[i]) && IsArchived(realm.past[i])
      ensures err.None? || err == Some(TopicArchived) || err == Some(RacesLost) ==>
        IsArchived(realm.world) && lifecycle.Archived?
      ensures err == Some(RacesLost) ==> Attempts(realm.acts, me) == old(Attempts(realm.acts, me)) + 3
      ensures old(realm.turns) == [] ==> realm.turns == []
      ensures old(realm.turns) == [] ==>
        if Stuck(old(realm.world)) then err == Some(RacesLost) && SameLog(old(realm.world), realm.world)
        else
          && Finished(realm.world)
          && if IsArchived(old(realm.world)) && Bare(old(realm.world))
             then err == Some(TopicArchived) && SameLog(old(realm.world), realm.world)
             else err.None? && Single(realm.world, opId)
    {
      hide *;
      opId := "";
      ghost var before := realm.world;
      var mt, trouble := Materialise();
      if trouble.Some? {
        err := trouble;
        return;
      }
      if mt.malformed.Some? {
        err := Some(Malformed);
        return;
      }
      if old(realm.turns) == [] {
        ShowsMeans(before, mt);
        SameStuck(before, realm.world);
        SameLogServer(before, realm.world);
      }
      ghost var read := realm.world;
      if SameLog(before, read) { BareSame(before, read); }
      if mt.lifecycle.Archived? {
        opId, err := FinishArchival();
        SameLogChain(before, read, realm.world);
      } else {
        opId, err := BeginArchival();
      }
    }

    /** Close: records the transition, then one best-effort compaction whose defeat or emptiness is no error. Once an
        op-id is returned, error or not, the topic is closed or archived from the moment the transition landed; and
        without error a compaction was tried, or there was nothing left to compact. Undisturbed the topic ends compact,
        unless it was archived already. */
    method Close() returns (opId: OpId, err: Option<Problem>)
      requires At(Idle)
      modifies realm, this`frontier, this`lifecycle
      ensures At(Idle) && old(realm.past) <= realm.past
      ensures Attempts(realm.acts, me) <= old(Attempts(realm.acts, me)) + 1
      ensures opId == "" ==> err.Some? && lifecycle == old(lifecycle)
      ensures opId != "" ==> exists i ::
        |old(realm.past)| <= i < |realm.past| && Closes(realm.past, i, opId, author, old(frontier))
          && IsShut(realm.world)
      ensures opId != "" ==>
        err.None?
          || err in {Some(TidyUpFailed(Trouble)), Some(TidyUpFailed(Malformed)), Some(TidyUpFailed(TopicArchived))}
      ensures old(lifecycle).Archived? ==> err == Some(TopicArchived) && opId == ""
      ensures err.None? ==>
        || Attempts(realm.acts, me) == old(Attempts(realm.acts, me)) + 1
        || exists i :: |old(realm.past)| <= i < |realm.past| && Bare(realm.past[i])
      ensures old(realm.turns) == [] && !old(lifecycle).Archived? ==>
        && opId != "" && realm.turns == []
        && if IsArchived(old(realm.world)) then err == Some(TidyUpFailed(TopicArchived))
           else err.None? && Bare(realm.world)
    {
      hide *;
      ghost var before := realm.world;
      AtValid(Idle);
      realm.Sound();
      StoreOf(realm.k, before);
      LogNonempty(realm.k, before);
      opId, err := Transition(Closed, true);
      if err.Some? {
        return;
      }
      AtValid(Idle);
      realm.Sound();
      ghost var i, closed := |realm.past| - 1, realm.world;
      assert EndsWith(realm.past[i], opId, author, old(frontier), LifeTransition(true, Closed));
      if old(realm.turns) == [] { QuietIs(closed, false); }
      var rolled, why := Rollup(false);
      SingleIsBare(realm.world, rolled);
      AtValid(Idle);
      realm.Sound();
      AllShut(realm.k, realm.past, realm.acts, i);
      ClosesIs(realm.past, i, opId, author, old(frontier));
      if why.Some? && !why.value.RollupLost? && !why.value.NothingToCompact? {
        err := Some(TidyUpFailed(why.value));
      }
    }

    method Stop(ghost t: Task)
      requires At(t)
      modifies realm
      ensures At(Idle) && old(realm.past) <= realm.past && Attempts(realm.acts, me) == old(Attempts(realm.acts, me))
      ensures realm.Valid() && SameServer(old(realm.world), realm.world) && realm.turns == old(realm.turns)
      ensures LandsNew(old(realm.world), realm.world)
      ensures old(realm.world.wire) <= realm.world.wire && realm.world.path == old(realm.world.path)
    {
      hide *;
      Member(t);
      realm.Sound();
      ghost var w := realm.world;
      CanStop(realm.k, w, me, Client(frontier, lifecycle, t));
      realm.Do(GiveUp(me));
      OnlyHas(w, realm.world, me, Client(frontier, lifecycle, Idle));
      OnlySame(w, realm.world, me, Client(frontier, lifecycle, Idle));
      NowAt(Idle);
    }

    lemma Member(t: Task)
      requires At(t)
      ensures realm.Valid() && Has(realm.world, me, Client(frontier, lifecycle, t))
      ensures me in realm.world.clients && realm.world.clients[me] == Client(frontier, lifecycle, t)
    {
      hide Trace, Lossless;
    }

    lemma AtValid(t: Task)
      requires At(t)
      ensures realm.Valid()
    {
      hide Trace, Lossless;
    }

    lemma NowAt(t: Task)
      requires realm.Valid() && Has(realm.world, me, Client(frontier, lifecycle, t))
      ensures At(t)
    {
      hide Trace, Lossless;
    }

    lemma StillAt(t: Task)
      requires realm.Valid() && me in realm.world.clients && realm.world.clients[me] == Client(frontier, lifecycle, t)
      ensures At(t) && Has(realm.world, me, Client(frontier, lifecycle, t))
    {
      hide Trace, Lossless;
    }
  }
}
