/** Following a topic live (topic/follow.go): the records are accumulated and the whole log refolded after each. */
module Follow {
  import opened Prelude
  import opened Vocabulary
  import opened Fold
  import opened EssenceOfTopic
  import opened Soundness
  import opened Compaction
  import opened Anchors
  import opened History
  import opened Manifests
  import opened Machine
  import opened Safety
  import opened Runs
  import ApplyLoop

  /** What a follower shows after `fed`, its baseline resolved against the store as it was when the first record
      came. */
  function FollowedView(k: Codec, path: string, store: map<string, Bytes>, fed: seq<SeqRecord>): MaterializedTopic
    requires |fed| > 0
  {
    match Manifests.Resolve(k, store, fed[..1])
    case Broken(why) => MalformedView(path, why)
    case Inline(first) => View(path, first + fed[1..])
  }

  lemma ResolveOne(k: Codec, store: map<string, Bytes>, recs: seq<SeqRecord>)
    requires |recs| == 1
    ensures var r := Manifests.Resolve(k, store, recs); r.Inline? ==> |r.recs| == 1
  {
    hide Fetch;
  }

  class Follower {
    const k: Codec
    const path: string
    var recs: seq<SeqRecord>
    var baselineBroken: Option<Malformation>
    var frontier: seq<OpId>
    var lifecycle: Lifecycle
    ghost var fed: seq<SeqRecord>
    ghost var store: map<string, Bytes>

    ghost predicate Valid()
      reads this
    {
      && |recs| == |fed| && (fed == [] ==> baselineBroken.None?)
      && (fed != [] ==>
            match Manifests.Resolve(k, store, fed[..1])
            case Broken(why) => baselineBroken == Some(why)
            case Inline(first) => baselineBroken.None? && recs == first + fed[1..])
    }

    constructor (k: Codec, path: string)
      ensures Valid() && fed == [] && this.k == k && this.path == path && fresh(this)
    {
      this.k, this.path := k, path;
      recs, baselineBroken, frontier, lifecycle, fed, store := [], None, [], Unset, [], map[];
    }

    /** One message of the consumer: a record that does not parse is skipped, any other is shown with all before it. */
    method Receive(m: Msg, objects: map<string, Bytes>) returns (shown: Option<MaterializedTopic>)
      requires Valid()
      modifies this
      ensures Valid()
      ensures fed == old(fed) + (if m.rec.Some? then [SeqRecord(m.rec.value, m.seqNo)] else [])
      ensures store == if old(fed) == [] && m.rec.Some? then objects else old(store)
      ensures m.rec.None? ==> shown.None? && frontier == old(frontier) && lifecycle == old(lifecycle)
      ensures m.rec.Some? ==>
        shown == Some(FollowedView(k, path, store, fed)) && frontier == shown.value.frontier
          && lifecycle == shown.value.lifecycle
    {
      if m.rec.None? {
        return None;
      }
      Accept(SeqRecord(m.rec.value, m.seqNo), objects);
      var mt := Show();
      frontier, lifecycle := mt.frontier, mt.lifecycle;
      shown := Some(mt);
    }

    /** Accumulates a record; the first is resolved on the spot. */
    method Accept(sr: SeqRecord, objects: map<string, Bytes>)
      requires Valid()
      modifies `recs, `baselineBroken, `fed, `store
      ensures Valid() && fed == old(fed) + [sr] && store == if old(fed) == [] then objects else old(store)
    {
      hide Manifests.Resolve;
      recs := recs + [sr];
      fed := fed + [sr];
      if |recs| == 1 {
        store := objects;
        assert fed == [sr] && fed[..1] == fed && recs == [sr];
        ResolveOne(k, objects, recs);
        var r := ResolveBaseline(k, objects, recs);
        match r {
          case Broken(why) => baselineBroken := Some(why);
          case Inline(first) =>
            recs := first;
            assert first + fed[1..] == first;
        }
      } else {
        assert fed[..1] == old(fed)[..1] && fed[1..] == old(fed)[1..] + [sr];
      }
    }

    /** The fold of everything accumulated, unless the baseline could not be resolved. */
    method Show() returns (mt: MaterializedTopic)
      requires Valid() && |fed| > 0
      ensures mt == FollowedView(k, path, store, fed)
    {
      hide View, Manifests.Resolve;
      if baselineBroken.Some? {
        mt := MalformedView(path, baselineBroken.value);
      } else {
        mt := ApplyLoop.Apply(path, recs);
      }
    }
  }

  // ----- what travels on the wire for a rollup does not matter to a follower

  /** A follower meets a checkpoint in whichever form it was published. */
  lemma CheckpointForm(k: Codec, contents: map<string, Bytes>, s: State, wire: SeqRecord, logical: SeqRecord)
    requires Bounded(s) && WireForm(k, contents, wire.record, logical.record)
    ensures Step(s, wire) == Step(s, logical)
  {
    if wire.record != logical.record {
      var n :| n in contents && logical.record.op.readable && wire.record == ManifestForm(k, logical.record, n);
      assert wire.record.op.baseline.frontier == logical.record.op.baseline.frontier;
    }
  }

  /** `fed` is what travelled for `log`. */
  ghost predicate Travelled(k: Codec, contents: map<string, Bytes>, fed: seq<SeqRecord>, log: seq<SeqRecord>) {
    |fed| == |log| && forall i :: 0 <= i < |log| ==>
      fed[i] == log[i] || WireForm(k, contents, fed[i].record, log[i].record)
  }

  lemma {:induction false} SameFold(k: Codec, contents: map<string, Bytes>, s: State, fed: seq<SeqRecord>,
                                    log: seq<SeqRecord>)
    requires Bounded(s) && Travelled(k, contents, fed, log)
    ensures FoldFrom(s, fed) == FoldFrom(s, log)
  {
    if |fed| > 0 {
      var n := |fed| - 1;
      hide Step, WireForm, Bounded;
      SameFold(k, contents, s, fed[..n], log[..n]);
      if fed[n] != log[n] { CheckpointForm(k, contents, FoldFrom(s, log[..n]), fed[n], log[n]); }
    }
  }

  lemma SameViewOf(path: string, a: seq<SeqRecord>, b: seq<SeqRecord>)
    requires StartsWithBaseline(a) && StartsWithBaseline(b) && a[0] == b[0] && FoldLog(a) == FoldLog(b)
    ensures View(path, a) == View(path, b)
  {
    hide FoldLog, SettledLifecycle;
  }

  /** A follower that joined at any baseline of a reachable history, and resolved it, shows after every record what the
      log nobody compacted shows. */
  lemma FollowerSeesTheTopic(k: Codec, w: World, store: map<string, Bytes>, fed: seq<SeqRecord>, from: nat)
    requires Lossless(k) && Reachable(k, w) && BaselineAt(w.wire, from) && |fed| > 0
    requires Travelled(k, w.contents, fed[1..], w.wire[from + 1..])
    requires Manifests.Resolve(k, store, fed[..1]) == Inline([w.wire[from]])
    ensures StartsWithBaseline(w.wire) && SameTopic(FollowedView(k, w.path, store, fed), View(w.path, Plain(w.wire)))
  {
    hide *;
    BaselineMeans(w.wire, from);
    var log, seen := w.wire[from..], [w.wire[from]] + fed[1..];
    assert log == [w.wire[from]] + w.wire[from + 1..];
    FollowedInline(k, w.path, store, fed, [w.wire[from]]);
    NobodyCanTell(k, w, from);
    SameFoldLog(k, w.contents, w.wire[from], fed[1..], w.wire[from + 1..]);
    SameViewOf(w.path, seen, log);
  }

  lemma BaselineMeans(wire: seq<SeqRecord>, from: nat)
    requires BaselineAt(wire, from)
    ensures from < |wire| && wire[from].record.op.Baseline?
  {
  }

  lemma FollowedInline(k: Codec, path: string, store: map<string, Bytes>, fed: seq<SeqRecord>, first: seq<SeqRecord>)
    requires |fed| > 0 && Manifests.Resolve(k, store, fed[..1]) == Inline(first)
    ensures FollowedView(k, path, store, fed) == View(path, first + fed[1..])
  {
    hide View, Manifests.Resolve;
  }

  lemma SameFoldLog(k: Codec, contents: map<string, Bytes>, first: SeqRecord, fed: seq<SeqRecord>, log: seq<SeqRecord>)
    requires first.record.op.Baseline? && Travelled(k, contents, fed, log)
    ensures StartsWithBaseline([first] + fed) && StartsWithBaseline([first] + log)
      && FoldLog([first] + fed) == FoldLog([first] + log)
  {
    assert ([first] + fed)[1..] == fed && ([first] + log)[1..] == log;
    hide FoldFrom, Seed;
    SameFold(k, contents, Seed(first.record), fed, log);
  }
}
