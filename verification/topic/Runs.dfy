/** Whole runs of the topic machine: what holds in every world any number of clients can reach, whatever they
    interleave and wherever they crash. */
module Runs {
  import opened Prelude
  import opened Vocabulary
  import opened Fold
  import opened EssenceOfTopic
  import opened Soundness
  import opened Compaction
  import opened LifecycleRules
  import opened Permanence
  import opened Trails
  import opened History
  import opened Manifests
  import opened Machine
  import opened Safety
  import opened Steps
  import opened StepsKept
  import opened WritesKept

  // ----- where runs start

  ghost predicate Unengaged(w: World, c: ClientId, cl: Client) {
    cl.task.Idle? && !cl.lifecycle.Archived? && Elems(cl.frontier) <= w.used
  }

  /** A topic whose log is one inline baseline: just started, or carrying baked content that is in order. */
  ghost predicate Founded(w: World) {
    && |w.wire| == 1 && w.base == 0 && StartsWithBaseline(w.wire)
    && w.wire[0].record.op.baseline.manifest.None?
    && w.msgs == [Msg(w.wire[0].streamSeq, Some(w.wire[0].record))] && w.wire[0].streamSeq <= w.lastSeq
    && Mentions(w.wire[0].record) <= w.used && Leaves(Seed(w.wire[0].record)) != {}
    && StoreOk(w) && BlobsOk(w)
    && forall c :: c in w.clients ==> Unengaged(w, c, w.clients[c])
  }

  lemma OneRecord(wire: seq<SeqRecord>)
    requires |wire| == 1 && StartsWithBaseline(wire)
    ensures FoldLog(wire) == Seed(wire[0].record) && Plain(wire) == wire
  {
  }

  lemma FoundedCoherent(wire: seq<SeqRecord>, used: set<OpId>)
    requires |wire| == 1 && StartsWithBaseline(wire) && Mentions(wire[0].record) <= used
      && Leaves(Seed(wire[0].record)) != {}
    ensures Coherent(wire, used)
  {
    var r := wire[0].record;
    OneRecord(wire);
    SeedSound(r);
    CoversSeed(r);
    assert Truth(wire) == Seed(r);
    hide Sound, Seed, Mentions, EssenceOf, Leaves, Truth, FoldLog;
    assert Agrees(Seed(r), used, EssenceOf(Seed(r)));
    forall k: nat | BaselineAt(wire, k) ensures Agrees(ReadFrom(wire, k), used, EssenceOf(Truth(wire))) {
      assert k == 0 && wire[0..] == wire;
    }
  }

  lemma FoundedLog(k: Codec, w: World)
    requires Founded(w)
    ensures LogOk(k, w)
  {
    hide BlobsOk, StoreOk, Seed, Leaves, Mentions;
    DrainOne(w.wire[0].record, w.wire[0].streamSeq);
    assert w.wire == [w.wire[0]];
    assert DrainOps(w.msgs) == w.wire;
    hide DrainOps;
    assert WireForm(k, w.contents, w.wire[0].record, w.wire[0].record);
  }

  lemma FoundedInv(k: Codec, w: World)
    requires Founded(w)
    ensures Inv(k, w)
  {
    FoundedLog(k, w);
    FoundedCoherent(w.wire, w.used);
    hide LogOk, Coherent, StoreOk, BlobsOk, Seed, Leaves, Mentions, IsArchived;
  }

  /** StartTopic: the initial baseline is inline, names no frontier and bakes nothing. */
  function Birth(id: OpId, author: Persona, ts: Time, state: string): Record {
    Record(id, author, [], ts, Baseline(true, BaselinePayload(Some(state), [], None, None)))
  }

  /** The world just after a topic was started: its starter's handle is on the baseline, others have only opened it. */
  function Born(path: string, birth: Record, seqNo: nat, starter: ClientId, others: set<ClientId>): World {
    World(path, [Msg(seqNo, Some(birth))], seqNo, map[],
          (map c | c in others :: Client([], Unset, Idle))[starter := Client([birth.id], Unset, Idle)],
          {birth.id}, map[], map[], [SeqRecord(birth, seqNo)], 0)
  }

  lemma BirthSeed(id: OpId, author: Persona, ts: Time, state: string)
    ensures var s := Seed(Birth(id, author, ts, state));
      Leaves(s) == {id} && s.attachments == [] && Mentions(Birth(id, author, ts, state)) == {id}
        && EssenceOf(s).attachments == []
  {
    assert BakedIds(BakedState([], [], [], [], Unset)) == {};
  }

  /** What a reader is shown of a freshly started topic: its state, nothing said, proposed, and the baseline to build
      upon. */
  lemma BirthShows(path: string, id: OpId, author: Persona, ts: Time, state: string, seqNo: nat)
    ensures var mt := View(path, [SeqRecord(Birth(id, author, ts, state), seqNo)]);
      && mt.malformed.None? && mt.baselineState == Some(state) && mt.baselineId == id && mt.baselineTs == ts
      && mt.lifecycle == Proposed && mt.frontier == [id] && mt.warnings == 0
      && mt.contributions == [] && mt.attachments == [] && mt.workItems == [] && mt.grants == []
  {
    var log := [SeqRecord(Birth(id, author, ts, state), seqNo)];
    BirthSeed(id, author, ts, state);
    OneRecord(log);
    assert BakedOf(log[0].record.op.baseline) == BakedState([], [], [], [], Unset);
    hide BakedIds, FoldLog;
    SortOne(id);
  }

  lemma SortOne(id: OpId)
    ensures SortIds({id}) == [id]
  {
    assert Elems([id]) == {id};
    SortedUnique(SortIds({id}), [id]);
  }

  lemma BornFounded(path: string, id: OpId, author: Persona, ts: Time, state: string, seqNo: nat, starter: ClientId,
                    others: set<ClientId>)
    ensures Founded(Born(path, Birth(id, author, ts, state), seqNo, starter, others))
  {
    var w := Born(path, Birth(id, author, ts, state), seqNo, starter, others);
    BirthSeed(id, author, ts, state);
    OneRecord(w.wire);
    hide Seed, Leaves, Mentions, EssenceOf, FoldLog;
    assert Now(w).attachments == [];
    assert Elems([id]) == {id};
  }

  // ----- every step, every run

  lemma InvStep(k: Codec, w: World, a: Action)
    requires Lossless(k) && Inv(k, w) && Enabled(w, a)
    ensures Inv(k, Perform(k, w, a))
  {
    hide Inv, Lossless, Perform;
    match a
    case Post(_, _, _, _, _, _, _, _) => PostKept(k, w, a);
    case Repost(c, id) => RepostKept(k, w, c, id);
    case Garble(seqNo) => GarbleKept(k, w, seqNo);
    case Drain(c, purpose) => DrainKept(k, w, c, purpose);
    case Resolve(c, reachable) => ResolveKept(k, w, c, reachable);
    case PutChunk(c, name) => PutChunkKept(k, w, c, name);
    case Publish(_, _, _, _, _, _) => PublishKept(k, w, a);
    case Delete(c, done) => DeleteKept(k, w, c, done);
    case Upload(c, name, data) => UploadKept(k, w, c, name, data);
    case GiveUp(c) => GiveUpKept(k, w, c);
    case Crash(c) => CrashKept(k, w, c);
  }

  lemma GiveUpKept(k: Codec, w: World, c: ClientId)
    requires Inv(k, w) && Enabled(w, GiveUp(c))
    ensures Inv(k, Perform(k, w, GiveUp(c)))
  {
    hide Inv;
    StopKept(k, w, c);
  }

  lemma CrashKept(k: Codec, w: World, c: ClientId)
    requires Inv(k, w) && Enabled(w, Crash(c))
    ensures Inv(k, Perform(k, w, Crash(c)))
  {
    hide Inv;
    StopKept(k, w, c);
  }

  lemma {:induction false} InvRun(k: Codec, w: World, run: seq<Action>)
    requires Lossless(k) && Inv(k, w) && ValidRun(k, w, run)
    ensures Inv(k, After(k, w, run))
    decreases |run|
  {
    if |run| > 0 {
      hide Inv, Lossless, Enabled, Perform;
      InvStep(k, w, run[0]);
      InvRun(k, Perform(k, w, run[0]), run[1..]);
    }
  }

  // ----- what readers see

  /** Every world a run reaches from a founded one. */
  ghost predicate Reachable(k: Codec, w: World) {
    exists start: World, run: seq<Action> :: Founded(start) && ValidRun(k, start, run) && After(k, start, run) == w
  }

  /** A freshly started topic is reachable, and its opening baseline is one readers may start from. */
  lemma BornReachable(k: Codec, path: string, id: OpId, author: Persona, ts: Time, state: string, seqNo: nat,
                      starter: ClientId, others: set<ClientId>)
    ensures var w := Born(path, Birth(id, author, ts, state), seqNo, starter, others);
      Reachable(k, w) && BaselineAt(w.wire, 0)
  {
    var w := Born(path, Birth(id, author, ts, state), seqNo, starter, others);
    BornFounded(path, id, author, ts, state, seqNo, starter, others);
    hide Founded;
    assert ValidRun(k, w, []) && After(k, w, []) == w;
  }

  lemma ReachableInv(k: Codec, w: World)
    requires Lossless(k) && Reachable(k, w)
    ensures Inv(k, w) && StartsWithBaseline(w.wire)
  {
    hide Inv, Founded, Lossless;
    var start: World, run: seq<Action> :| Founded(start) && ValidRun(k, start, run) && After(k, start, run) == w;
    FoundedInv(k, start);
    InvRun(k, start, run);
    InvStarts(k, w);
  }

  lemma InvStarts(k: Codec, w: World)
    requires Inv(k, w)
    ensures Coherent(w.wire, w.used) && LogOk(k, w) && StoreOk(w) && BlobsOk(w)
    ensures StartsWithBaseline(w.wire) && Leaves(Truth(w.wire)) != {}
  {
    hide LogOk, StoreOk, BlobsOk, ClientOk;
  }

  /** No reader can tell whether a rollup ever happened: reading the stored log, or having followed from any earlier
      baseline on, shows the same topic as the log of every accepted operation that nobody compacted. */
  lemma NobodyCanTell(k: Codec, w: World, from: nat)
    requires Lossless(k) && Reachable(k, w) && BaselineAt(w.wire, from)
    ensures StartsWithBaseline(w.wire) && BaselineAt(w.wire, w.base)
    ensures Manifests.Resolve(k, w.objects, DrainOps(w.msgs)) == Inline(w.wire[w.base..])
    ensures SameTopic(View(w.path, w.wire[from..]), View(w.path, Plain(w.wire)))
    ensures View(w.path, w.wire[from..]).frontier != []
  {
    hide *;
    ReachableInv(k, w);
    InvStarts(k, w);
    StoredLogResolves(k, w);
    ReaderAgrees(w.path, w.wire, w.used, from);
  }

  lemma StoredLogResolves(k: Codec, w: World)
    requires Lossless(k) && LogOk(k, w) && StoreOk(w)
    ensures BaselineAt(w.wire, w.base) && Manifests.Resolve(k, w.objects, DrainOps(w.msgs)) == Inline(w.wire[w.base..])
  {
    hide Manifests.Resolve, Lossless, DrainOps, ManifestChunksOf, WireForm, StoreOk;
    SnapshotResolves(k, w, w.objects, DrainOps(w.msgs), w.base, |w.wire|);
    assert w.wire[w.base..|w.wire|] == w.wire[w.base..];
  }

  lemma ReaderAgrees(path: string, wire: seq<SeqRecord>, used: set<OpId>, from: nat)
    requires Coherent(wire, used) && BaselineAt(wire, from)
    ensures SameTopic(View(path, wire[from..]), View(path, Plain(wire)))
    ensures View(path, wire[from..]).frontier != []
  {
    assert StartsWithBaseline(wire);
    PlainStarts(wire);
    assert EssenceOf(FoldLog(wire[from..])) == EssenceOf(FoldLog(Plain(wire)))
      && Leaves(FoldLog(Plain(wire))) != {} by {
      assert Agrees(ReadFrom(wire, from), used, EssenceOf(Truth(wire)));
      hide Sound, EssenceOf, Leaves, FoldLog;
    }
    hide EssenceOf, View, FoldLog, SameTopic, Coherent, Leaves;
    SameEssenceSameTopic(path, wire[from..], Plain(wire));
    FrontierIsLeaves(path, Plain(wire));
    assert SameTopic(View(path, wire[from..]), View(path, Plain(wire)));
    SameFrontier(View(path, wire[from..]), View(path, Plain(wire)));
  }

  lemma SameFrontier(a: MaterializedTopic, b: MaterializedTopic)
    requires SameTopic(a, b)
    ensures a.frontier == b.frontier
  {
  }

  // ----- the guard

  /** A rollup lands exactly when its snapshot is still the whole log and the log does not end in garbage; one that
      does not land changes nothing but its client's mind. */
  lemma GuardExact(k: Codec, w: World, a: Action, t: Task)
    requires Lossless(k) && Reachable(k, w) && a.Publish? && Enabled(w, a)
    requires a.c in w.clients && w.clients[a.c].task == t && t.Ready?
    ensures |w.msgs| > 0
    ensures var v := Perform(k, w, a);
      if t.upto == |w.wire| && w.msgs[|w.msgs| - 1].rec.Some?
      then v.wire == w.wire + [SeqRecord(RollupRecord(t.mt, a.id, a.author, a.ts), a.seqNo)] && |v.msgs| == 1
        && Plain(v.wire) == Plain(w.wire)
      else v == SetTask(w, a.c, Idle)
  {
    hide *;
    ReachableInv(k, w);
    InvStarts(k, w);
    PublishIs(k, w, a);
    OwnTask(k, w, a.c);
    CoherentStarts(w.wire, w.used);
    GuardIff(k, w, a.c, t);
    if t.tail == LastSeq(w) {
      var r := RollupRecord(t.mt, a.id, a.author, a.ts);
      RollupForm(t.mt, a.id, a.author, a.ts);
      ReplacedShape(k, w, t, r, a.seqNo, a.c);
      PlainAppend(w.wire, SeqRecord(r, a.seqNo));
    }
  }

  lemma ReplacedShape(k: Codec, w: World, t: Task, logical: Record, seqNo: nat, c: ClientId)
    requires t.Ready? && logical.op.Baseline? && StartsWithBaseline(w.wire)
    ensures forall cl :: var v := SetClient(Replaced(k, w, t, logical, seqNo), c, cl);
      v.wire == w.wire + [SeqRecord(logical, seqNo)] && |v.msgs| == 1 && |w.wire| > 0
  {
  }

  lemma GuardIff(k: Codec, w: World, c: ClientId, t: Task)
    requires t.Ready? && TaskOk(k, w, c, t) && LogOk(k, w) && Increasing(w.wire)
    ensures |w.msgs| > 0 && (t.tail == LastSeq(w) <==> t.upto == |w.wire| && w.msgs[|w.msgs| - 1].rec.Some?)
  {
    hide View, RollupPayload, ManifestChunksOf, WireForm;
    var ds, last := DrainOps(w.msgs), w.msgs[|w.msgs| - 1];
    assert ds ==
      DrainOps(w.msgs[..|w.msgs| - 1]) + if last.rec.Some? then [SeqRecord(last.rec.value, last.seqNo)] else [];
    hide DrainOps;
    assert |ds| == |w.wire| - w.base;
  }

  // ----- objects

  /** Every attachment any reader lists is in the store, unless it was withdrawn and the topic archived. */
  lemma AttachmentsStored(k: Codec, w: World, from: nat, i: nat)
    requires Lossless(k) && Reachable(k, w) && BaselineAt(w.wire, from)
    requires i < |View(w.path, w.wire[from..]).attachments|
    ensures var mt := View(w.path, w.wire[from..]); var a := mt.attachments[i];
      a.blob in w.objects || (a.removed && mt.lifecycle.Archived?)
  {
    hide *;
    ReachableInv(k, w);
    InvStarts(k, w);
    BaselineBelow(w.wire, from);
    assert w.wire[from..|w.wire|] == w.wire[from..];
    ListedStored(w, from, i);
  }

  lemma ListedStored(w: World, from: nat, i: nat)
    requires Coherent(w.wire, w.used) && BlobsOk(w) && BaselineAt(w.wire, from) && StartsWithBaseline(w.wire)
    requires i < |View(w.path, w.wire[from..]).attachments|
    ensures var mt := View(w.path, w.wire[from..]); var a := mt.attachments[i];
      a.blob in w.objects || (a.removed && mt.lifecycle.Archived?)
  {
    var s := FoldLog(w.wire[from..]);
    assert EssenceOf(s) == Now(w) by {
      assert Agrees(ReadFrom(w.wire, from), w.used, EssenceOf(Truth(w.wire)));
      hide Sound, EssenceOf, FoldLog;
    }
    assert EssenceOf(s).lifecycle == SettledLifecycle(s);
    hide Coherent, FoldLog, SettledLifecycle, Truth;
    ViewFacts(w.path, w.wire[from..]);
    EssenceKept(s);
    hide View, EssenceOf;
    assert IsArchived(w) <==> SettledLifecycle(s).Archived?;
    var a := View(w.path, w.wire[from..]).attachments[i];
    assert a.blob == s.attachments[i].blob && a.removed == s.attachments[i].removed;
    assert a.blob == Now(w).attachments[i].blob && a.removed == Now(w).attachments[i].removed;
  }

  /** Deletions only ever hit garbage: never a chunk the current baseline names, never a document on its way to being
      published, and an attachment's object only once the topic is archived and the attachment withdrawn. */
  lemma DeletionsHitGarbage(k: Codec, w: World, c: ClientId, n: string)
    requires Lossless(k) && Reachable(k, w) && c in w.clients && w.clients[c].task.Deleting?
      && n in w.clients[c].task.names
    ensures n !in ManifestChunksOf(DrainOps(w.msgs))
    ensures forall d :: d in w.clients && w.clients[d].task.Ready? ==> w.clients[d].task.chunk != Some(n)
    ensures StartsWithBaseline(w.wire)
    ensures forall i :: 0 <= i < |Now(w).attachments| && Now(w).attachments[i].blob == n ==>
      Now(w).attachments[i].removed && IsArchived(w)
  {
    hide *;
    ReachableInv(k, w);
    InvStarts(k, w);
    OwnTask(k, w, c);
    MayDeleteNamed(k, w, c, n);
    NotNeeded(w, n);
    ChunkIsLive(k, w, n);
    forall d | d in w.clients && w.clients[d].task.Ready? ensures w.clients[d].task.chunk != Some(n) {
      OwnTask(k, w, d);
      ReadyChunk(k, w, d, w.clients[d].task);
    }
    BlobIsWithdrawn(w, n);
  }

  lemma MayDeleteNamed(k: Codec, w: World, c: ClientId, n: string)
    requires c in w.clients && w.clients[c].task.Deleting? && n in w.clients[c].task.names
      && TaskOk(k, w, c, w.clients[c].task)
    ensures MayDelete(w, n)
  {
    hide MayDelete;
  }

  lemma ChunkIsLive(k: Codec, w: World, n: string)
    requires LogOk(k, w)
    ensures n in ManifestChunksOf(DrainOps(w.msgs)) ==> n in w.fates && w.fates[n] == Live
  {
    hide SnapOk, DrainOps, ManifestChunksOf;
  }

  lemma ReadyChunk(k: Codec, w: World, d: ClientId, t: Task)
    requires t.Ready? && TaskOk(k, w, d, t)
    ensures t.chunk.Some? ==> t.chunk.value in w.fates && w.fates[t.chunk.value] == InFlight(d)
  {
    hide View, DrainOps, ManifestChunksOf, RollupPayload;
  }

  lemma BlobIsWithdrawn(w: World, n: string)
    requires BlobsOk(w) && StartsWithBaseline(w.wire) && n in w.fates && (w.fates[n] == Attached ==> Withdrawn(w, n))
    ensures forall i :: 0 <= i < |Now(w).attachments| && Now(w).attachments[i].blob == n ==>
      Now(w).attachments[i].removed && IsArchived(w)
  {
    hide EssenceOf, Truth;
  }

  // ----- nothing is ever taken back

  lemma StepExtends(k: Codec, w: World, a: Action)
    requires Enabled(w, a)
    ensures w.wire <= Perform(k, w, a).wire && Perform(k, w, a).path == w.path
  {
    hide DrainOps, View, RollupPayload, ManifestChunksOf, Manifests.Resolve, ManifestForm, Bury, RemovedBlobs;
    match a
    case Post(_, _, _, _, _, _, _, _) =>
    case Repost(_, _) =>
    case Garble(_) =>
    case Drain(_, _) =>
    case Resolve(c, reachable) => hide Enabled; ResolveExtends(k, w, c, reachable);
    case PutChunk(_, _) =>
    case Publish(c, _, _, _, _, _) => if w.clients[c].task.tail == LastSeq(w) { if a.acked {} }
    case Delete(c, done) => if |w.clients[c].task.names| > 0 { if done {} }
    case Upload(_, _, _) =>
    case GiveUp(_) =>
    case Crash(_) =>
  }

  lemma ResolveExtends(k: Codec, w: World, c: ClientId, reachable: bool)
    requires c in w.clients && w.clients[c].task.Drained?
    ensures ResolveStep(k, w, c, reachable).wire == w.wire && ResolveStep(k, w, c, reachable).path == w.path
  {
    hide View, ManifestChunksOf, Manifests.Resolve, RemovedBlobs;
    if Manifests.Resolve(k, Reached(w, reachable), w.clients[c].task.recs).Broken? {} else {
      match w.clients[c].task.purpose
      case Read =>
      case Compact(_) =>
      case Sweep =>
    }
  }

  lemma {:induction false} RunExtends(k: Codec, w: World, run: seq<Action>)
    requires ValidRun(k, w, run)
    ensures w.wire <= After(k, w, run).wire && After(k, w, run).path == w.path
    decreases |run|
  {
    if |run| > 0 {
      hide Enabled, Perform;
      StepExtends(k, w, run[0]);
      RunExtends(k, Perform(k, w, run[0]), run[1..]);
    }
  }

  lemma {:induction false} PlainExtends(wire: seq<SeqRecord>, more: seq<SeqRecord>)
    requires StartsWithBaseline(wire)
    ensures StartsWithBaseline(wire + more) && Plain(wire) <= Plain(wire + more)
  {
    if |more| == 0 {
      assert wire + more == wire;
    } else {
      var n := |more| - 1;
      PlainExtends(wire, more[..n]);
      PlainAppend(wire + more[..n], more[n]);
      assert wire + more == wire + more[..n] + [more[n]];
    }
  }

  /** Whatever any clients do next, no contribution, attachment, item or grant disappears or moves, each changes only as
      it may, and an archived topic stays archived and a closed one never reopens. */
  lemma NothingIsTakenBack(k: Codec, w: World, run: seq<Action>)
    requires StartsWithBaseline(w.wire) && ValidRun(k, w, run)
    ensures var v := After(k, w, run);
      && StartsWithBaseline(v.wire)
      && Grows(Truth(w.wire), Truth(v.wire))
      && (SettledLifecycle(Truth(w.wire)).Archived? ==> SettledLifecycle(Truth(v.wire)).Archived?)
      && (SettledLifecycle(Truth(w.wire)).Closed? ==>
         SettledLifecycle(Truth(v.wire)).Closed? || SettledLifecycle(Truth(v.wire)).Archived?)
  {
    RunExtends(k, w, run);
    hide *;
    TruthExtends(w.wire, After(k, w, run).wire);
  }

  lemma TruthExtends(wire: seq<SeqRecord>, longer: seq<SeqRecord>)
    requires StartsWithBaseline(wire) && wire <= longer
    ensures StartsWithBaseline(longer)
    ensures Grows(Truth(wire), Truth(longer))
    ensures SettledLifecycle(Truth(wire)).Archived? ==> SettledLifecycle(Truth(longer)).Archived?
    ensures SettledLifecycle(Truth(wire)).Closed? ==>
      SettledLifecycle(Truth(longer)).Closed? || SettledLifecycle(Truth(longer)).Archived?
  {
    hide FoldLog, SettledLifecycle, Grows, Plain;
    var more := longer[|wire|..];
    assert longer == wire + more;
    PlainExtends(wire, more);
    PlainStarts(wire);
    var p, q := Plain(wire), Plain(longer);
    var ops := q[|p|..];
    assert q == p + ops;
    FoldLogConcat(p, ops);
    ElementsArePermanent(FoldLog(p), ops);
    TerminalStates(FoldLog(p), ops);
  }

  // ----- trails, in every reachable world

  /** Reachable from a founding baseline whose baked content, if any, is consistent. */
  ghost predicate ReachableFrom(k: Codec, start: World, run: seq<Action>, w: World) {
    Founded(start) && ValidRun(k, start, run) && After(k, start, run) == w && Consistent(Seed(start.wire[0].record))
  }

  /** Every item, grant and edit trail any reader is shown tells that element's whole state. */
  lemma ReadersSeeTrails(k: Codec, start: World, run: seq<Action>, w: World, from: nat)
    requires Lossless(k) && ReachableFrom(k, start, run, w) && BaselineAt(w.wire, from)
    ensures forall i :: 0 <= i < |View(w.path, w.wire[from..]).workItems| ==>
      WorkOk(View(w.path, w.wire[from..]).workItems[i])
    ensures forall i :: 0 <= i < |View(w.path, w.wire[from..]).grants| ==>
      GrantOk(View(w.path, w.wire[from..]).grants[i])
    ensures forall i :: 0 <= i < |View(w.path, w.wire[from..]).contributions| ==>
      StampsOk(View(w.path, w.wire[from..]).contributions[i])
  {
    assert Founded(start) && ValidRun(k, start, run) && After(k, start, run) == w
      && Consistent(Seed(start.wire[0].record)) by {
      hide Founded, Consistent, Seed;
    }
    FoundingRecord(start);
    RunExtends(k, start, run);
    hide *;
    FoundedInv(k, start);
    InvRun(k, start, run);
    InvStarts(k, w);
    TruthConsistent(w.wire);
    ReaderConsistent(w.wire, w.used, from);
    ConsistentView(w.path, w.wire[from..]);
  }

  lemma FoundingRecord(start: World)
    requires Founded(start)
    ensures |start.wire| == 1 && StartsWithBaseline(start.wire)
  {
    hide StoreOk, BlobsOk, Seed, Mentions;
  }

  lemma TruthConsistent(wire: seq<SeqRecord>)
    requires StartsWithBaseline(wire) && Consistent(Seed(wire[0].record))
    ensures Consistent(Truth(wire))
  {
    PlainStarts(wire);
    hide Consistent, Seed, Plain;
    TrailsTell(Seed(wire[0].record), Plain(wire)[1..]);
  }

  lemma ReaderConsistent(wire: seq<SeqRecord>, used: set<OpId>, from: nat)
    requires Coherent(wire, used) && BaselineAt(wire, from) && Consistent(Truth(wire))
    ensures Consistent(ReadFrom(wire, from))
  {
    assert Agrees(ReadFrom(wire, from), used, EssenceOf(Truth(wire)));
    hide Consistent, Sound, Truth, ReadFrom, EssenceOf;
    ConsistentAlike(Truth(wire), ReadFrom(wire, from));
  }

  lemma ConsistentView(path: string, log: seq<SeqRecord>)
    requires StartsWithBaseline(log) && Consistent(FoldLog(log))
    ensures var mt := View(path, log);
      && (forall i :: 0 <= i < |mt.workItems| ==> WorkOk(mt.workItems[i]))
      && (forall i :: 0 <= i < |mt.grants| ==> GrantOk(mt.grants[i]))
      && (forall i :: 0 <= i < |mt.contributions| ==> StampsOk(mt.contributions[i]))
  {
    var s, mt := FoldLog(log), View(path, log);
    assert mt.workItems == s.workItems && mt.grants == s.grants && |mt.contributions| == |s.contributions|;
    assert forall i :: 0 <= i < |s.contributions| ==>
      mt.contributions[i].edits == s.contributions[i].edits && mt.contributions[i].author == s.contributions[i].author;
    hide WorkOk, GrantOk, FoldLog, View;
    assert forall i :: 0 <= i < |s.contributions| ==> StampsOk(s.contributions[i]);
  }
}
