/** Operations and materialised elements, payloads already decoded (topic/vocab.go, topic/view.go). */
module Vocabulary {
  import opened Prelude

  type OpId = string
  type Persona = string
  type Time = int // the zero time is 0

  /** Go's Lifecycle is a string: Unset is "", Undefined any string that names no state. */
  datatype Lifecycle = Unset | Proposed | Active | Dormant | Closed | Archived | Undefined(name: string)

  datatype GrantAuthority = GrantAuthority(grant: OpId, granter: Persona)

  datatype EditStamp = EditStamp(opId: OpId, author: Persona, ts: Time, sig: string, streamSeq: nat)

  datatype ContributionKind = Turn | Comment | Reply

  datatype Contribution = Contribution(
    opId: OpId, author: Persona, ts: Time, kind: ContributionKind,
    body: string, mentions: seq<Persona>, anchor: OpId, dangling: bool,
    resolved: bool, resolvedBy: Persona, resolvedTs: Time,
    edits: seq<EditStamp>, authority: Option<GrantAuthority>, sig: string, streamSeq: nat)

  datatype Attachment = Attachment(
    opId: OpId, author: Persona, ts: Time,
    name: string, blob: string, digest: string, size: nat, contentType: string,
    anchor: OpId, dangling: bool, removed: bool, removedBy: Persona, removedTs: Time,
    sig: string, streamSeq: nat)

  datatype WorkStatus = Open | Claimed | Done
  datatype WorkAct = Claim | Finish | Abandon

  datatype WorkEvent = WorkEvent(opId: OpId, act: WorkAct, author: Persona, ts: Time, voided: bool, sig: string,
                                 streamSeq: nat)

  datatype WorkItem = WorkItem(
    id: OpId, author: Persona, ts: Time, title: string, body: string, mentions: seq<Persona>,
    status: WorkStatus, owner: Persona, timeline: seq<WorkEvent>, sig: string, streamSeq: nat)

  datatype GrantStatus = Standing | Revoked

  datatype GrantEvent = GrantEvent(opId: OpId, author: Persona, ts: Time, voided: bool, sig: string, streamSeq: nat)

  datatype Grant = Grant(
    id: OpId, granter: Persona, grantee: Persona, scope: string, ts: Time, expires: Time,
    status: GrantStatus, timeline: seq<GrantEvent>, sig: string, streamSeq: nat)

  datatype BakedState = BakedState(
    contributions: seq<Contribution>, attachments: seq<Attachment>,
    workItems: seq<WorkItem>, grants: seq<Grant>, lifecycle: Lifecycle)

  datatype ManifestRef = ManifestRef(chunks: seq<string>, digest: string, size: nat)

  datatype BaselinePayload = BaselinePayload(
    state: Option<string>, frontier: seq<OpId>, baked: Option<BakedState>, manifest: Option<ManifestRef>)

  /** An operation with its payload decoded. `readable` says whether decoding reported no error; a failed
      decode leaves whatever the payload value then holds, and the fold uses it where the code does. */
  datatype Op =
    | Baseline(readable: bool, baseline: BaselinePayload)
    | TurnPost(turnBody: string, turnMentions: seq<Persona>, authority: Option<GrantAuthority>)
    | CommentAdd(reply: bool, commentBody: string, commentMentions: seq<Persona>, commentAnchor: OpId)
    | Edit(readable: bool, editBody: string, editMentions: seq<Persona>, editAnchor: OpId)
    | CommentResolve(readable: bool, target: Option<OpId>)
    | AttachmentAdd(fileName: string, blob: string, digest: string, size: nat, contentType: string, fileAnchor: OpId)
    | AttachmentRemove(readable: bool, target: Option<OpId>)
    | WorkOpen(readable: bool, title: string, workBody: string, workMentions: seq<Persona>)
    | WorkRef(act: WorkAct, readable: bool, target: Option<OpId>)
    | GrantIssue(readable: bool, grantee: Persona, scope: string, expires: Time)
    | GrantRevoke(readable: bool, target: Option<OpId>)
    | LifeTransition(readable: bool, to: Lifecycle)
    | Unknown(opType: string)

  datatype Record = Record(id: OpId, author: Persona, parents: seq<OpId>, ts: Time, op: Op)

  datatype SeqRecord = SeqRecord(record: Record, streamSeq: nat)

  datatype Malformation = NoBaseline | NotABaseline | ManifestUnreadable | ManifestCorrupt

  datatype MaterializedTopic = MaterializedTopic(
    path: string, baselineState: Option<string>, baselineTs: Time, baselineId: OpId, lifecycle: Lifecycle,
    contributions: seq<Contribution>, attachments: seq<Attachment>, workItems: seq<WorkItem>, grants: seq<Grant>,
    frontier: seq<OpId>, malformed: Option<Malformation>, warnings: nat)

  // ----- the ids an element answers to

  function StampIds(es: seq<EditStamp>): (ids: seq<OpId>) {
    seq(|es|, i requires 0 <= i < |es| => es[i].opId)
  }

  function ContributionChains(cs: seq<Contribution>): seq<seq<OpId>> {
    seq(|cs|, i requires 0 <= i < |cs| => [cs[i].opId] + StampIds(cs[i].edits))
  }

  function AttachmentChains(xs: seq<Attachment>): seq<seq<OpId>> {
    seq(|xs|, i requires 0 <= i < |xs| => [xs[i].opId])
  }

  function WorkChains(ws: seq<WorkItem>): seq<seq<OpId>> {
    seq(|ws|, i requires 0 <= i < |ws| => [ws[i].id])
  }

  function GrantChains(gs: seq<Grant>): seq<seq<OpId>> {
    seq(|gs|, i requires 0 <= i < |gs| => [gs[i].id])
  }

  function WorkTimelineIds(es: seq<WorkEvent>): set<OpId> {
    set ev | ev in es :: ev.opId
  }

  function GrantTimelineIds(es: seq<GrantEvent>): set<OpId> {
    set ev | ev in es :: ev.opId
  }

  function WorkEventIds(ws: seq<WorkItem>): set<OpId> {
    set w, ev | w in ws && ev in w.timeline :: ev.opId
  }

  function GrantEventIds(gs: seq<Grant>): set<OpId> {
    set g, ev | g in gs && ev in g.timeline :: ev.opId
  }
}
