/** The shared servers as one client's handle meets them: between any two of its requests the other clients may have
    done anything they can do. */
module Realms {
  import opened Prelude
  import opened Vocabulary
  import opened Fold
  import opened Compaction
  import opened LifecycleRules
  import opened Permanence
  import opened History
  import opened Manifests
  import opened Machine
  import opened Safety
  import opened Steps
  import opened StepsKept
  import opened WritesKept
  import opened Runs
  import opened Chronicle

  /** How the servers answer a request: they perform it; they perform it but the answer is lost; they do not. */
  datatype Reply = Works | NoAnswer | Fails

  /** What others do before a request arrives, and how that request fares. */
  datatype Turn = Turn(others: seq<Action>, reply: Reply, now: Time)

  function Actor(a: Action): Option<ClientId> {
    match a
    case Post(c, _, _, _, _, _, _, _) => Some(c)
    case Repost(c, _) => Some(c)
    case Garble(_) => None
    case Drain(c, _) => Some(c)
    case Resolve(c, _) => Some(c)
    case PutChunk(c, _) => Some(c)
    case Publish(c, _, _, _, _, _) => Some(c)
    case Delete(c, _) => Some(c)
    case Upload(c, _, _) => Some(c)
    case GiveUp(c) => Some(c)
    case Crash(c) => Some(c)
  }

  ghost predicate Leads(k: Codec, w: World, a: Action, v: World) {
    Enabled(w, a) && v == Perform(k, w, a)
  }

  /** The worlds passed through and the actions between them. */
  ghost predicate Trace(k: Codec, past: seq<World>, acts: seq<Action>) {
    && |past| == |acts| + 1
    && (forall i :: 0 <= i < |past| ==> Inv(k, past[i]))
    && (forall i :: 0 <= i < |acts| ==> Leads(k, past[i], acts[i], past[i + 1]))
  }

  lemma TraceGrows(k: Codec, past: seq<World>, acts: seq<Action>, a: Action)
    requires Lossless(k) && Trace(k, past, acts) && Enabled(past[|past| - 1], a)
    ensures Trace(k, past + [Perform(k, past[|past| - 1], a)], acts + [a])
  {
    hide Inv, Enabled, Perform, Lossless;
    var w, v := past[|past| - 1], Perform(k, past[|past| - 1], a);
    InvStep(k, w, a);
    assert Leads(k, w, a, v);
    hide Leads;
    var longer, more := past + [v], acts + [a];
    assert forall i :: 0 <= i < |past| ==> longer[i] == past[i];
    forall i | 0 <= i < |more| ensures Leads(k, longer[i], more[i], longer[i + 1]) {
      if i < |acts| { assert Leads(k, past[i], acts[i], past[i + 1]); }
    }
  }

  lemma TraceLast(k: Codec, past: seq<World>, acts: seq<Action>, j: nat)
    requires Trace(k, past, acts) && 0 < j < |past|
    ensures |past| == |acts| + 1 && Inv(k, past[j - 1]) && Leads(k, past[j - 1], acts[j - 1], past[j])
  {
    hide Inv, Leads;
    assert past[j - 1 + 1] == past[j];
  }

  /** Another client's step leaves a handle's state alone. */
  lemma OthersLeave(k: Codec, w: World, a: Action, me: ClientId)
    requires Enabled(w, a) && Actor(a) != Some(me) && me in w.clients
    ensures var v := Perform(k, w, a); me in v.clients && v.clients[me] == w.clients[me]
  {
    match a
    case Post(_, _, _, _, _, _, _, _) => hide Posted;
    case Repost(_, _) =>
    case Garble(_) =>
    case Drain(_, _) => hide DrainOps;
    case Resolve(c, reachable) => ResolveLeaves(k, w, c, reachable, me);
    case PutChunk(_, _) =>
    case Publish(c, _, _, _, _, _) => hide Bury, ManifestForm; if w.clients[c].task.tail == LastSeq(w) { if a.acked {} }
    case Delete(c, done) => if |w.clients[c].task.names| > 0 { if done {} }
    case Upload(_, _, _) =>
    case GiveUp(_) =>
    case Crash(_) =>
  }

  lemma ResolveLeaves(k: Codec, w: World, c: ClientId, reachable: bool, me: ClientId)
    requires c in w.clients && w.clients[c].task.Drained? && me in w.clients && me != c
    ensures var v := ResolveStep(k, w, c, reachable); me in v.clients && v.clients[me] == w.clients[me]
  {
    hide View, ManifestChunksOf, Manifests.Resolve, RemovedBlobs;
    if Manifests.Resolve(k, Reached(w, reachable), w.clients[c].task.recs).Broken? {} else {
      match w.clients[c].task.purpose
      case Read =>
      case Compact(_) =>
      case Sweep =>
    }
  }

  // ----- what a trace keeps

  lemma ArchivedStep(k: Codec, w: World, a: Action, v: World)
    requires Inv(k, w) && Leads(k, w, a, v) && IsArchived(w)
    ensures IsArchived(v)
  {
    InvStarts(k, w);
    hide Inv, Enabled, Perform;
    StepExtends(k, w, a);
    hide *;
    TruthExtends(w.wire, v.wire);
    ArchivedIs(w);
    ArchivedIs(v);
  }

  lemma ArchivedIs(w: World)
    requires StartsWithBaseline(w.wire)
    ensures IsArchived(w) <==> SettledLifecycle(Truth(w.wire)).Archived?
  {
    hide SettledLifecycle, Truth;
  }

  /** Once archived, archived at every later moment. */
  lemma {:induction false} TraceArchived(k: Codec, past: seq<World>, acts: seq<Action>, i: nat, j: nat)
    requires Trace(k, past, acts) && i <= j < |past| && IsArchived(past[i])
    ensures IsArchived(past[j])
  {
    hide *;
    if i < j {
      TraceArchived(k, past, acts, i, j - 1);
      TraceLast(k, past, acts, j);
      ArchivedStep(k, past[j - 1], acts[j - 1], past[j]);
    }
  }

  /** Closed or archived, as everyone sees it. */
  ghost predicate IsShut(w: World) {
    StartsWithBaseline(w.wire) && var l := SettledLifecycle(Truth(w.wire)); l.Closed? || l.Archived?
  }

  lemma {:induction false} TraceExtends(k: Codec, past: seq<World>, acts: seq<Action>, i: nat, j: nat)
    requires Trace(k, past, acts) && i <= j < |past|
    ensures past[i].wire <= past[j].wire
  {
    hide *;
    if i < j {
      TraceExtends(k, past, acts, i, j - 1);
      TraceLast(k, past, acts, j);
      LeadsExtends(k, past[j - 1], acts[j - 1], past[j]);
    }
  }

  lemma LeadsExtends(k: Codec, w: World, a: Action, v: World)
    requires Leads(k, w, a, v)
    ensures w.wire <= v.wire
  {
    hide Enabled, Perform;
    StepExtends(k, w, a);
  }

  /** Once closed, closed or archived at every later moment: nothing reopens a topic. */
  lemma TraceShut(k: Codec, past: seq<World>, acts: seq<Action>, i: nat, j: nat)
    requires Trace(k, past, acts) && i <= j < |past| && IsShut(past[i])
    ensures IsShut(past[j])
  {
    TraceExtends(k, past, acts, i, j);
    hide Trace, Truth, SettledLifecycle, Grows;
    TruthExtends(past[i].wire, past[j].wire);
  }

  /** The stored log is a single baseline with this id. */
  ghost predicate Single(w: World, id: OpId) {
    |DrainOps(w.msgs)| == 1 && DrainOps(w.msgs)[0].record.id == id
  }

  ghost predicate Headed(w: World, id: OpId) {
    |DrainOps(w.msgs)| > 0 && DrainOps(w.msgs)[0].record.id == id
  }

  /** The head of the stored log only changes when a rollup makes it the whole log. */
  lemma HeadStep(k: Codec, w: World, a: Action, v: World, id: OpId)
    requires Inv(k, w) && Leads(k, w, a, v) && Headed(v, id)
    ensures Headed(w, id) || Single(v, id)
  {
    assert LogOk(k, w);
    hide Inv;
    LogNonempty(k, w);
    assert Enabled(w, a) && v == Perform(k, w, a);
    hide Leads, Enabled;
    MessagesStep(k, w, a);
    hide Perform;
    if |v.msgs| == 1 {
      assert |DrainOps(v.msgs)| <= 1 by { assert v.msgs[..0] == []; }
    } else if v.msgs != w.msgs {
      DrainAppend(w.msgs, v.msgs[|w.msgs|]);
    }
  }

  lemma InvMessages(k: Codec, w: World)
    requires Inv(k, w)
    ensures |w.msgs| > 0
  {
    hide SnapOk, Coherent, StoreOk, BlobsOk, ClientOk;
  }

  lemma LogNonempty(k: Codec, w: World)
    requires LogOk(k, w)
    ensures |w.msgs| > 0 && |DrainOps(w.msgs)| > 0
  {
    hide WireForm, ManifestChunksOf, DrainOps;
  }

  lemma MessagesStep(k: Codec, w: World, a: Action)
    requires Enabled(w, a)
    ensures var v := Perform(k, w, a);
      v.msgs == w.msgs || |v.msgs| == 1 || (|v.msgs| == |w.msgs| + 1 && v.msgs == w.msgs + [v.msgs[|w.msgs|]])
  {
    match a
    case Post(_, _, _, _, _, _, _, _) =>
    case Repost(_, _) =>
    case Garble(_) =>
    case Drain(_, _) => hide DrainOps;
    case Resolve(c, reachable) => hide Enabled; ResolveMessages(k, w, c, reachable);
    case PutChunk(_, _) => hide RollupPayload;
    case Publish(c, _, _, _, _, _) => hide Bury, ManifestForm; if w.clients[c].task.tail == LastSeq(w) { if a.acked {} }
    case Delete(c, done) => if |w.clients[c].task.names| > 0 { if done {} }
    case Upload(_, _, _) =>
    case GiveUp(_) =>
    case Crash(_) =>
  }

  lemma ResolveMessages(k: Codec, w: World, c: ClientId, reachable: bool)
    requires c in w.clients && w.clients[c].task.Drained?
    ensures ResolveStep(k, w, c, reachable).msgs == w.msgs
  {
    hide View, ManifestChunksOf, Manifests.Resolve, RemovedBlobs;
    if Manifests.Resolve(k, Reached(w, reachable), w.clients[c].task.recs).Broken? {} else {
      match w.clients[c].task.purpose
      case Read =>
      case Compact(_) =>
      case Sweep =>
    }
  }

  /** A log headed by `id` was already, or there was a later moment when `id` was all there was. */
  lemma {:induction false} HeadBorn(k: Codec, past: seq<World>, acts: seq<Action>, i: nat, j: nat, id: OpId)
    requires Trace(k, past, acts) && i <= j < |past| && Headed(past[j], id)
    ensures Headed(past[i], id) || exists m :: i < m <= j && Single(past[m], id)
  {
    hide *;
    if i < j {
      TraceLast(k, past, acts, j);
      HeadStep(k, past[j - 1], acts[j - 1], past[j], id);
      if Headed(past[j - 1], id) { HeadBorn(k, past, acts, i, j - 1, id); }
    }
  }

  // ----- fresh names

  function Longest(s: set<string>): (n: nat)
    ensures forall x :: x in s ==> |x| <= n
  {
    if s == {} then 0 else
    assert exists m :: m in s && IsLeast(m, s) by { var _ := LeastExists(s); }
    LeastUnique(s);
    var m :| m in s && IsLeast(m, s);
    var n := Longest(s - {m});
    assert forall x :: x in s ==> x == m || x in s - {m};
    if |m| > n then |m| else n
  }

  function FreshName(used: set<string>): (x: string)
    ensures x !in used && x != ""
  {
    seq(Longest(used) + 1, _ => 'x')
  }

  // ----- counting guarded publishes

  /** How many guarded publishes `c` has made. */
  function Attempts(acts: seq<Action>, c: ClientId): nat {
    if |acts| == 0 then 0
    else
      var last := acts[|acts| - 1];
      Attempts(acts[..|acts| - 1], c) + if last.Publish? && last.c == c then 1 else 0
  }

  lemma AttemptsAppend(acts: seq<Action>, a: Action, c: ClientId)
    ensures Attempts(acts + [a], c) == Attempts(acts, c) + if a.Publish? && a.c == c then 1 else 0
  {
    assert (acts + [a])[..|acts|] == acts;
  }

  lemma LandsNothing(w: World)
    ensures LandsNew(w, w)
  {
  }

  // ----- the servers

  /** The subject, the object store and everybody else. `turns` is what the outside holds in store for the next
      requests; past its end nobody else acts and every request works. */
  class Realm {
    const k: Codec
    var world: World
    var turns: seq<Turn>
    ghost var past: seq<World>
    ghost var acts: seq<Action>
    ghost var clock: Time // the time told to the last request

    ghost predicate Valid()
      reads this
    {
      Lossless(k) && Trace(k, past, acts) && past[|past| - 1] == world
    }

    /** Any world that satisfies the invariant can be met: a freshly started topic to begin with. */
    constructor (k: Codec, w: World, turns: seq<Turn>)
      requires Lossless(k) && Inv(k, w)
      ensures Valid() && world == w && this.k == k && this.turns == turns && fresh(this)
    {
      this.k, world, this.turns, past, acts := k, w, turns, [w], [];
      new;
      hide Inv, Lossless, Leads;
    }

    /** One step of the machine happens. */
    method Do(a: Action)
      requires Valid() && Enabled(world, a)
      modifies this`world, this`past, this`acts
      ensures Valid() && world == Perform(k, old(world), a)
      ensures past == old(past) + [world] && acts == old(acts) + [a]
      ensures old(world.wire) <= world.wire && world.path == old(world.path)
      ensures LandsNew(old(world), world)
      ensures forall c :: Attempts(acts, c) == old(Attempts(acts, c)) + if a.Publish? && a.c == c then 1 else 0
    {
      hide Enabled, Perform, Trace, LandsNew;
      TraceGrows(k, past, acts, a);
      StepExtends(k, world, a);
      StepLandsNew(k, world, a);
      world := Perform(k, world, a);
      past := past + [world];
      forall c ensures Attempts(acts + [a], c) == Attempts(acts, c) + if a.Publish? && a.c == c then 1 else 0 {
        AttemptsAppend(acts, a, c);
      }
      acts := acts + [a];
    }

    lemma Sound()
      requires Valid()
      ensures Inv(k, world) && |world.msgs| > 0 && |past| > 0 && past[|past| - 1] == world && Trace(k, past, acts)
        && Lossless(k)
    {
      hide Inv, Leads, Lossless;
      InvMessages(k, world);
    }

    /** The next request of `me` arrives: the others act first, and the answer is settled. */
    method Next(me: ClientId) returns (reply: Reply, now: Time)
      requires Valid() && me in world.clients
      modifies this
      ensures Valid() && me in world.clients && world.clients[me] == old(world.clients[me])
      ensures old(past) <= past && old(acts) <= acts
      ensures Attempts(acts, me) == old(Attempts(acts, me))
      ensures old(world.wire) <= world.wire && world.path == old(world.path)
      ensures LandsNew(old(world), world)
      ensures old(turns) == [] ==> turns == [] && world == old(world) && acts == old(acts) && reply == Works
      ensures clock == now
    {
      hide Trace, Lossless, LandsNew, Attempts;
      LandsNothing(world);
      reply, now := Works, 0;
      if turns != [] {
        var turn := turns[0];
        turns := turns[1..];
        reply, now := turn.reply, turn.now;
        Meanwhile(turn.others, me);
      }
      clock := now;
    }

    /** The others act, as far as they can. */
    method Meanwhile(others: seq<Action>, me: ClientId)
      requires Valid() && me in world.clients
      modifies this`world, this`past, this`acts
      ensures Valid() && me in world.clients && world.clients[me] == old(world.clients[me])
      ensures old(past) <= past && old(acts) <= acts && Attempts(acts, me) == old(Attempts(acts, me))
      ensures old(world.wire) <= world.wire && world.path == old(world.path) && LandsNew(old(world), world)
    {
      hide *;
      LandsNothing(world);
      for i := 0 to |others|
        invariant Valid() && me in world.clients && world.clients[me] == old(world.clients[me])
        invariant old(past) <= past && old(acts) <= acts && Attempts(acts, me) == old(Attempts(acts, me))
        invariant old(world.wire) <= world.wire && world.path == old(world.path) && LandsNew(old(world), world)
      {
        var a := others[i];
        if Actor(a) != Some(me) && Enabled(world, a) {
          OthersLeave(k, world, a, me);
          NotMine(a, me);
          ghost var before := world;
          Do(a);
          LandsTwice(old(world), before, world);
        }
      }
    }
  }

  lemma NotMine(a: Action, me: ClientId)
    requires Actor(a) != Some(me)
    ensures !(a.Publish? && a.c == me)
  {
  }
}
