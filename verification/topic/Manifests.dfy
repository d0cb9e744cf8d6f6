/** Baselines too large to inline: the state document lives in the object store and the log carries a manifest
    (topic/rollup.go, `publishManifestBaseline` and `resolveBaseline`). */
module Manifests {
  import opened Prelude
  import opened Vocabulary
  import opened Fold

  type Bytes = string

  datatype StateDoc = StateDoc(state: Option<string>, baked: Option<BakedState>)

  /** JSON and SHA-256, of which only the round trip matters here; `size` is the length of an inline payload. */
  datatype Codec = Codec(
    encode: StateDoc -> Bytes, decode: Bytes -> Option<StateDoc>, digest: Bytes -> string, size: BaselinePayload -> nat)

  const InlineBaselineThreshold: nat := 128 * 1024

  ghost predicate Lossless(k: Codec) {
    forall d :: k.decode(k.encode(d)) == Some(d)
  }

  datatype Resolved = Inline(recs: seq<SeqRecord>) | Broken(why: Malformation)

  /** The objects a log's current baseline references. */
  function ManifestChunksOf(recs: seq<SeqRecord>): seq<string> {
    if |recs| == 0 || !recs[0].record.op.Baseline? || !recs[0].record.op.readable
      || recs[0].record.op.baseline.manifest.None?
    then []
    else recs[0].record.op.baseline.manifest.value.chunks
  }

  function Fetch(objects: map<string, Bytes>, names: seq<string>): Option<Bytes> {
    if |names| == 0 then Some("")
    else
      var n := |names| - 1;
      match Fetch(objects, names[..n])
      case None => None
      case Some(doc) => if names[n] in objects then Some(doc + objects[names[n]]) else None
  }

  function Resolve(k: Codec, objects: map<string, Bytes>, recs: seq<SeqRecord>): Resolved {
    if |recs| == 0 || !recs[0].record.op.Baseline? || !recs[0].record.op.readable
      || recs[0].record.op.baseline.manifest.None?
    then Inline(recs)
    else
      var bp := recs[0].record.op.baseline;
      match Fetch(objects, bp.manifest.value.chunks)
      case None => Broken(ManifestUnreadable)
      case Some(doc) =>
        if k.digest(doc) != bp.manifest.value.digest then Broken(ManifestCorrupt)
        else match k.decode(doc)
             case None => Broken(ManifestCorrupt)
             case Some(sd) => Inline(recs[0 := recs[0].(record := recs[0].record.(
                                op := Baseline(true, BaselinePayload(sd.state, bp.frontier, sd.baked, None))))])
  }

  lemma FetchMissing(objects: map<string, Bytes>, names: seq<string>, i: nat)
    requires i <= |names| && Fetch(objects, names[..i]).None?
    ensures Fetch(objects, names).None?
    decreases |names| - i
  {
    if i == |names| {
      assert names[..i] == names;
    } else {
      assert names[..i + 1][..i] == names[..i];
      FetchMissing(objects, names, i + 1);
    }
  }

  /** resolveBaseline: rewrites the first record in place, or says why it cannot. */
  method ResolveBaseline(k: Codec, objects: map<string, Bytes>, recs: seq<SeqRecord>) returns (r: Resolved)
    ensures r == Resolve(k, objects, recs)
  {
    if |recs| == 0 || !recs[0].record.op.Baseline? {
      return Inline(recs);
    }
    var bp := recs[0].record.op.baseline;
    if !recs[0].record.op.readable || bp.manifest.None? {
      return Inline(recs);
    }
    var chunks := bp.manifest.value.chunks;
    var doc: Bytes := "";
    for i := 0 to |chunks|
      invariant Fetch(objects, chunks[..i]) == Some(doc)
    {
      assert chunks[..i + 1][..i] == chunks[..i];
      if chunks[i] !in objects {
        FetchMissing(objects, chunks, i + 1);
        return Broken(ManifestUnreadable);
      }
      doc := doc + objects[chunks[i]];
    }
    assert chunks[..|chunks|] == chunks;
    if k.digest(doc) != bp.manifest.value.digest {
      return Broken(ManifestCorrupt);
    }
    match k.decode(doc) {
      case None => return Broken(ManifestCorrupt);
      case Some(sd) =>
        var inline := Baseline(true, BaselinePayload(sd.state, bp.frontier, sd.baked, None));
        return Inline(recs[0 := recs[0].(record := recs[0].record.(op := inline))]);
    }
  }

  // ----- exactly when a manifest resolves, and to what

  /** The named objects one after the other, absent ones contributing nothing. */
  function Joined(objects: map<string, Bytes>, names: seq<string>): Bytes {
    if |names| == 0 then ""
    else (if names[0] in objects then objects[names[0]] else "") + Joined(objects, names[1..])
  }

  lemma {:induction false} JoinedLast(objects: map<string, Bytes>, names: seq<string>)
    requires |names| > 0
    ensures var n := |names| - 1;
      Joined(objects, names) == Joined(objects, names[..n]) + if names[n] in objects then objects[names[n]] else ""
  {
    var n := |names| - 1;
    if n > 0 {
      JoinedLast(objects, names[1..]);
      assert names[1..][..n - 1] == names[..n][1..];
    }
  }

  lemma {:induction false} FetchIsJoined(objects: map<string, Bytes>, names: seq<string>)
    ensures Fetch(objects, names) ==
      if forall i :: 0 <= i < |names| ==> names[i] in objects then Some(Joined(objects, names)) else None
  {
    if |names| > 0 {
      FetchIsJoined(objects, names[..|names| - 1]);
      JoinedLast(objects, names);
    }
  }

  predicate HasManifest(recs: seq<SeqRecord>) {
    && |recs| > 0 && recs[0].record.op.Baseline? && recs[0].record.op.readable
    && recs[0].record.op.baseline.manifest.Some?
  }

  /** The record with the document `sd` in place of its manifest; everything else is as it was. */
  ghost predicate Inlined(was: SeqRecord, now: SeqRecord, sd: StateDoc) {
    && now.streamSeq == was.streamSeq && now.record.id == was.record.id && now.record.author == was.record.author
    && now.record.parents == was.record.parents && now.record.ts == was.record.ts
    && was.record.op.Baseline? && now.record.op.Baseline? && now.record.op.readable
    && now.record.op.baseline.frontier == was.record.op.baseline.frontier
    && now.record.op.baseline.state == sd.state && now.record.op.baseline.baked == sd.baked
    && now.record.op.baseline.manifest.None?
  }

  /** A log without a manifest is left alone; one with a manifest is unreadable exactly when an object is missing,
      corrupt exactly when the objects in order do not have the digest or are no document, and else carries the
      document. */
  lemma ResolveExactly(k: Codec, objects: map<string, Bytes>, recs: seq<SeqRecord>)
    ensures var r := Resolve(k, objects, recs);
      if !HasManifest(recs) then r == Inline(recs)
      else
        var ref := recs[0].record.op.baseline.manifest.value;
        var there, doc := forall i :: 0 <= i < |ref.chunks| ==> ref.chunks[i] in objects, Joined(objects, ref.chunks);
        && (r == Broken(ManifestUnreadable) <==> !there)
        && (r == Broken(ManifestCorrupt) <==> there && (k.digest(doc) != ref.digest || k.decode(doc).None?))
        && (r.Inline? <==> there && k.digest(doc) == ref.digest && k.decode(doc).Some?)
        && (r.Inline? ==> |r.recs| == |recs| && r.recs[1..] == recs[1..] && k.decode(doc).Some?
                          && Inlined(recs[0], r.recs[0], k.decode(doc).value))
  {
    if HasManifest(recs) {
      FetchIsJoined(objects, recs[0].record.op.baseline.manifest.value.chunks);
      hide Fetch, Joined;
    }
  }

  // ----- the manifest form of a baseline

  function DocOf(p: BaselinePayload): StateDoc {
    StateDoc(p.state, p.baked)
  }

  /** What is published in place of an inline baseline whose document went to object `name`. */
  function ManifestForm(k: Codec, r: Record, name: string): Record
    requires r.op.Baseline?
  {
    var p := r.op.baseline;
    var doc := k.encode(DocOf(p));
    r.(op := Baseline(true, BaselinePayload(None, p.frontier, None, Some(ManifestRef([name], k.digest(doc), |doc|)))))
  }

  /** `wire` is what travelled for `logical`: the record itself, or its manifest with the document put under the
      name. */
  ghost predicate WireForm(k: Codec, contents: map<string, Bytes>, wire: Record, logical: Record) {
    logical.op.Baseline? && logical.op.baseline.manifest.None?
    && (wire == logical
        || exists n ::
          n in contents && logical.op.readable && contents[n] == k.encode(DocOf(logical.op.baseline))
          && wire == ManifestForm(k, logical, n))
  }

  /** Resolving gives back exactly what an inline publish would have carried, or says the chunk is gone: never a
      partial or a different state. */
  lemma ResolveWireForm(k: Codec, contents: map<string, Bytes>, objects: map<string, Bytes>, recs: seq<SeqRecord>,
                        logical: Record)
    requires Lossless(k) && |recs| > 0 && WireForm(k, contents, recs[0].record, logical)
    requires forall n :: n in objects ==> n in contents && objects[n] == contents[n]
    ensures if forall n :: n in ManifestChunksOf(recs) ==> n in objects
            then Resolve(k, objects, recs) == Inline(recs[0 := SeqRecord(logical, recs[0].streamSeq)])
            else Resolve(k, objects, recs) == Broken(ManifestUnreadable)
  {
    if recs[0].record == logical {
      assert ManifestChunksOf(recs) == [];
      assert recs[0 := SeqRecord(logical, recs[0].streamSeq)] == recs;
    } else {
      var n :| n in contents && logical.op.readable && contents[n] == k.encode(DocOf(logical.op.baseline))
        && recs[0].record == ManifestForm(k, logical, n);
      assert ManifestChunksOf(recs) == [n];
      assert [n][..0] == [];
      assert Fetch(objects, [n][..0]) == Some("");
      if n in objects {
        assert Fetch(objects, [n]) == Some("" + objects[n]);
        assert "" + objects[n] == objects[n];
      } else {
        assert n in ManifestChunksOf(recs);
      }
    }
  }
}
