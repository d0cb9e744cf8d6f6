/** One topic and its clients as a state machine: the atomic steps of posting, draining, compacting, attaching, sweeping
    and crashing, in any interleaving (topic/post.go, rollup.go, lifecycle.go, attachment.go, replay.go). */
module Machine {
  import opened Prelude
  import opened Vocabulary
  import opened Fold
  import opened Compaction
  import opened Manifests

  type ClientId = nat

  /** A stored message; `rec` is None when the wire record does not parse and every reader skips it. */
  datatype Msg = Msg(seqNo: nat, rec: Option<Record>)

  datatype Purpose = Read | Compact(allowArchived: bool) | Sweep

  /** What a client is in the middle of. `from` and `upto` locate its snapshot in the history. */
  datatype Task =
    | Idle
    | Drained(purpose: Purpose, recs: seq<SeqRecord>, from: nat, upto: nat)
    | Ready(mt: MaterializedTopic, superseded: seq<string>, tail: nat, from: nat, upto: nat, chunk: Option<string>)
    | Uploaded(name: string)
    | Deleting(names: seq<string>)

  /** A handle: the frontier and lifecycle it last observed, and its current task. */
  datatype Client = Client(frontier: seq<OpId>, lifecycle: Lifecycle, task: Task)

  /** What became of an object name. */
  datatype Fate = InFlight(owner: ClientId) | Live | Dead | Pending(owner: ClientId) | Attached

  /** `msgs`, `lastSeq` and `objects` are the servers'; the rest records history: the ids and contents ever used, the
      fate of every object name, every record ever accepted, and which of them is the current baseline. */
  datatype World = World(
    path: string, msgs: seq<Msg>, lastSeq: nat, objects: map<string, Bytes>, clients: map<ClientId, Client>,
    used: set<OpId>, contents: map<string, Bytes>, fates: map<string, Fate>, wire: seq<SeqRecord>, base: nat)

  datatype Action =
    | Post(c: ClientId, id: OpId, author: Persona, ts: Time, op: Op, seqNo: nat, acked: bool, adopts: bool)
    | Repost(c: ClientId, id: OpId)
    | Garble(seqNo: nat)
    | Drain(c: ClientId, purpose: Purpose)
    | Resolve(c: ClientId, reachable: bool)
    | PutChunk(c: ClientId, name: string)
    | Publish(c: ClientId, id: OpId, author: Persona, ts: Time, seqNo: nat, acked: bool)
    | Delete(c: ClientId, done: bool)
    | Upload(c: ClientId, name: string, data: Bytes)
    | GiveUp(c: ClientId)
    | Crash(c: ClientId)

  /** drainOps: the records that parse, in stream order. */
  function DrainOps(msgs: seq<Msg>): seq<SeqRecord> {
    if |msgs| == 0 then []
    else
      var last := msgs[|msgs| - 1];
      DrainOps(msgs[..|msgs| - 1]) + if last.rec.Some? then [SeqRecord(last.rec.value, last.seqNo)] else []
  }

  /** The sequence of the last message on the subject, which a guarded publish must name. */
  function LastSeq(w: World): nat
    requires |w.msgs| > 0
  {
    w.msgs[|w.msgs| - 1].seqNo
  }

  function RemovedBlobs(xs: seq<Attachment>): seq<string> {
    if |xs| == 0 then []
    else RemovedBlobs(xs[..|xs| - 1]) + if xs[|xs| - 1].removed then [xs[|xs| - 1].blob] else []
  }

  /** Which steps can happen. Ids, object names and sequences are fresh; ordinary posts carry no baseline, and an
      attachment.add names the object its client has just uploaded. */
  predicate Enabled(w: World, a: Action) {
    |w.msgs| > 0 &&
    match a
    case Post(c, id, _, _, op, seqNo, _, _) =>
      c in w.clients && id !in w.used && w.lastSeq < seqNo && !op.Baseline? && !w.clients[c].lifecycle.Archived?
      && (w.clients[c].task == if op.AttachmentAdd? then Uploaded(op.blob) else Idle)
    case Repost(c, id) => c in w.clients && id in w.used && !w.clients[c].lifecycle.Archived? && w.clients[c].task.Idle?
    case Garble(seqNo) => w.lastSeq < seqNo
    case Drain(c, purpose) =>
      c in w.clients && w.clients[c].task.Idle? && (purpose.Sweep? ==> w.clients[c].lifecycle.Archived?)
    case Resolve(c, _) => c in w.clients && w.clients[c].task.Drained?
    case PutChunk(c, name) =>
      c in w.clients && w.clients[c].task.Ready? && w.clients[c].task.chunk.None? && name !in w.contents
    case Publish(c, id, _, _, seqNo, _) =>
      c in w.clients && w.clients[c].task.Ready? && id !in w.used && w.lastSeq < seqNo
    case Delete(c, _) => c in w.clients && w.clients[c].task.Deleting?
    case Upload(c, name, _) =>
      c in w.clients && w.clients[c].task.Idle? && !w.clients[c].lifecycle.Archived? && name !in w.contents
    case GiveUp(c) => c in w.clients
    case Crash(c) => c in w.clients
  }

  function SetClient(w: World, c: ClientId, cl: Client): World {
    w.(clients := w.clients[c := cl])
  }

  function SetTask(w: World, c: ClientId, t: Task): World
    requires c in w.clients
  {
    SetClient(w, c, w.clients[c].(task := t))
  }

  /** A record lands on the subject. */
  function Land(w: World, r: Record, seqNo: nat): World {
    w.(msgs := w.msgs + [Msg(seqNo, Some(r))], lastSeq := seqNo, used := w.used + {r.id},
       wire := w.wire + [SeqRecord(r, seqNo)])
  }

  /** An ordinary record lands; an attachment.add takes over the object it names. */
  function Posted(w: World, r: Record, seqNo: nat): World {
    var landed := Land(w, r, seqNo);
    if r.op.AttachmentAdd? then landed.(fates := w.fates[r.op.blob := Attached]) else landed
  }

  /** Post: the op parents onto the frontier the handle observed. Transitions made by Close and Archive also set the
      handle's lifecycle. An unacknowledged publish may have landed all the same. */
  function PostStep(w: World, a: Action): World
    requires a.Post? && a.c in w.clients
  {
    var cl := w.clients[a.c];
    var adopts := a.acked && a.adopts && a.op.LifeTransition? && a.op.readable;
    SetClient(Posted(w, Record(a.id, a.author, cl.frontier, a.ts, a.op), a.seqNo), a.c,
              Client(if a.acked then [a.id] else cl.frontier, if adopts then a.op.to else cl.lifecycle, Idle))
  }

  function Reached(w: World, reachable: bool): map<string, Bytes> {
    if reachable then w.objects else map[]
  }

  /** resolveBaseline and apply on a drained snapshot, then whatever the drain was for. The object store may be out of
      reach, and then seems empty. */
  function ResolveStep(k: Codec, w: World, c: ClientId, reachable: bool): World
    requires c in w.clients && w.clients[c].task.Drained?
  {
    var t := w.clients[c].task;
    match Manifests.Resolve(k, Reached(w, reachable), t.recs)
    case Broken(_) =>
      if t.purpose.Read? then SetClient(w, c, Client([], Proposed, Idle)) else SetTask(w, c, Idle)
    case Inline(recs) =>
      var mt := View(w.path, recs);
      match t.purpose
      case Read => SetClient(w, c, Client(mt.frontier, mt.lifecycle, Idle))
      case Compact(allowArchived) =>
        if mt.malformed.Some? || (mt.lifecycle.Archived? && !allowArchived) || |recs| <= 1 then SetTask(w, c, Idle)
        else SetTask(w, c, Ready(mt, ManifestChunksOf(t.recs), recs[|recs| - 1].streamSeq, t.from, t.upto, None))
      case Sweep => SetTask(w, c, Deleting(RemovedBlobs(mt.attachments)))
  }

  function Bury(fates: map<string, Fate>, names: seq<string>): map<string, Fate> {
    fates + map n | n in names :: Dead
  }

  /** A rollup lands: in one stroke it replaces everything before it. */
  function Replaced(k: Codec, w: World, t: Task, logical: Record, seqNo: nat): World
    requires t.Ready? && logical.op.Baseline?
  {
    var buried := Bury(w.fates, t.superseded);
    Land(w, logical, seqNo).(
      base := |w.wire|,
      msgs := [Msg(seqNo, Some(if t.chunk.None? then logical else ManifestForm(k, logical, t.chunk.value)))],
      fates := if t.chunk.None? then buried else buried[t.chunk.value := Live])
  }

  /** The guarded publish: it lands only while the last message is the one the snapshot ended with. */
  function PublishStep(k: Codec, w: World, a: Action): World
    requires a.Publish? && a.c in w.clients && w.clients[a.c].task.Ready? && |w.msgs| > 0
  {
    var t := w.clients[a.c].task;
    if t.tail != LastSeq(w) then SetTask(w, a.c, Idle)
    else
      var replaced := Replaced(k, w, t, RollupRecord(t.mt, a.id, a.author, a.ts), a.seqNo);
      if a.acked then SetClient(replaced, a.c, Client(t.mt.frontier, t.mt.lifecycle, Deleting(t.superseded)))
      else SetTask(replaced, a.c, Idle)
  }

  function Stored(w: World, name: string, data: Bytes, fate: Fate): World {
    w.(objects := w.objects[name := data], contents := w.contents[name := data], fates := w.fates[name := fate])
  }

  function PutStep(w: World, c: ClientId, name: string, data: Bytes, fate: Fate, t: Task): World
    requires c in w.clients
  {
    SetTask(Stored(w, name, data, fate), c, t)
  }

  function DeleteStep(w: World, c: ClientId, done: bool): World
    requires c in w.clients && w.clients[c].task.Deleting?
  {
    var names := w.clients[c].task.names;
    if |names| == 0 then SetTask(w, c, Idle)
    else
      var next := SetTask(w, c, Deleting(names[1..]));
      if done then next.(objects := w.objects - {names[0]}) else next
  }

  function Perform(k: Codec, w: World, a: Action): World
    requires Enabled(w, a)
  {
    match a
    case Post(_, _, _, _, _, _, _, _) => PostStep(w, a)
    case Repost(c, id) => SetClient(w, c, w.clients[c].(frontier := [id]))
    case Garble(seqNo) => w.(msgs := w.msgs + [Msg(seqNo, None)], lastSeq := seqNo)
    case Drain(c, purpose) => SetTask(w, c, Drained(purpose, DrainOps(w.msgs), w.base, |w.wire|))
    case Resolve(c, reachable) => ResolveStep(k, w, c, reachable)
    case PutChunk(c, name) =>
      var t := w.clients[c].task;
      PutStep(w, c, name, k.encode(DocOf(RollupPayload(t.mt))), InFlight(c), t.(chunk := Some(name)))
    case Publish(_, _, _, _, _, _) => PublishStep(k, w, a)
    case Delete(c, done) => DeleteStep(w, c, done)
    case Upload(c, name, data) => PutStep(w, c, name, data, Pending(c), Uploaded(name))
    case GiveUp(c) => SetTask(w, c, Idle)
    case Crash(c) => SetClient(w, c, Client([], Unset, Idle))
  }

  /** A run: every action enabled when it happens. */
  ghost predicate ValidRun(k: Codec, w: World, run: seq<Action>)
    decreases |run|
  {
    |run| == 0 || (Enabled(w, run[0]) && ValidRun(k, Perform(k, w, run[0]), run[1..]))
  }

  ghost function After(k: Codec, w: World, run: seq<Action>): World
    requires ValidRun(k, w, run)
    decreases |run|
  {
    if |run| == 0 then w else After(k, Perform(k, w, run[0]), run[1..])
  }
}
