# Soulstream core: what its shared topics and directory promise

A topic is an append-only log on one subject. Every reader folds the log into contributions, attachments, work items,
grants, a lifecycle and a frontier of leaf operations. Any client may at any time fold the whole log into one new baseline
and publish it under an expected-last-message guard; the server then purges everything before it. The project's central
promise is that nobody can tell whether that happened. This project models the fold, the rollup and the clients that race
each other, and proves that promise over every run; beside it stand the persona directory, artefact lineages, the
curator's cache, topic-id slugs and the wire form of records.

## How the model is laid out

- `topic/Vocabulary`, `topic/Fold`: operations with decoded payloads, and the fold as a function of the log, carrying the
  loop state of `apply` (element lists, seen and referenced ids, the four index maps, the content count). `topic/Apply` is
  the loop itself, in place over those fields, proved equal to that function.
- `topic/Essence`, `topic/Soundness`, `topic/Likeness`, `topic/Compaction`, `topic/Checkpoints`, `topic/Anchors`: the
  simulation between a full log and a compacted one. `topic/Likeness` says what reading the same means, field by field.
  The essence of a state is everything but volatile fields: elements cleaned of sequence numbers and statuses, index
  maps, settled lifecycle, leaf set.
- `topic/LifecycleRules`, `topic/Trails`, `topic/Ledger`, `topic/Effects`, `topic/Permanence`, `topic/Ancestry`,
  `topic/Upkeep`: what a fold means, stated without the fold: closed form of the lifecycle, trails that determine
  items, grants and edits, which operation made which element, edited, worked on or revoked it and which first removed
  or resolved it, what never changes again, the frontier as the maximal operations, the idle rules.
- `topic/Manifests`, `topic/Machine`, `topic/History`, `topic/Safety`, `topic/Steps`, `topic/StepsKept`, `topic/WritesKept`,
  `topic/Runs`: any number of clients as a state machine over atomic steps (post, repost, drain, resolve, put chunk, guarded
  publish, delete, upload, give up, crash), its invariant, one lemma an action, and the theorems over whole runs.
  `History.Plain` is the log nobody ever compacted. `topic/Chronicle` adds what the record's ids and the dangling marks do
  over whole runs; `topic/Shortfalls` holds the concrete inputs on which the code does less than its documentation says.
- `topic/Realm`, `topic/Requests`, `topic/Handles`, `topic/Bake`, `topic/Follow`: the handle as the class it is. Its methods
  make the machine's steps one request at a time; before each request the other clients may do anything they can do.
- `topic/Artefacts`, `topic/Slugs`, `identity/Names`, `registry/*`, `curator/Projection`, `record/Records`: the other
  components.

## What the theorems assume

- Operation ids are new when first posted, and so are baseline ids and object names; sequence numbers increase.
- Handles parent onto ids they have observed. Ordinary posts carry no baseline; an attachment.add is only posted by the
  upload that stored its object.
- A drain is atomic with respect to rollups.
- The server remembers message ids for ever; its duplicate window is not modelled.
- A follower is delivered every message before a rollup purges it (`Follow.FollowerSeesTheTopic`);
  `Shortfalls.MissedExactly` says what it shows otherwise.
- A run starts from one inline baseline whose graph has a leaf and whose attachments, if it bakes any, are stored under
  distinct names; a freshly started topic is such a world (`Runs.BornFounded`). `Runs.ReadersSeeTrails` also needs baked
  content to be consistent with its own trails.
- JSON is lossless (`Manifests.Lossless`); SHA-256 is any function. A signature verifies under its own key
  (`Keys.Honest`); nothing else is assumed of Ed25519 (section 5.1 of RFC 8032).
- Timestamps survive being written (`Records.Faithful`, section 5.6 of RFC 3339); lower-casing leaves lower-case letters,
  digits and hyphens alone (`Slugs.Lowers`).
- Everybody else who writes to the directory makes writes that keep the stored chain valid and growing; the writers modelled
  here are proved to, and a reader's refresh relies on it.
- The curator's signals are lossless and its refreshes do not overlap.

## Where the code falls short of what its documentation says

- A rollup may add dangling marks (spec 007 wants the view preserved exactly). `Anchors.RollupMarksExactly` says where: at
  anchors that are neither baked nor on the frontier; `Chronicle.MarksOverRuns` says it for any number of rollups.
  `Shortfalls.RollupCanMark` is a comment on a topic's opening baseline.
- With an empty frontier a rollup would be visible; `Checkpoints.FaithfulExactlyWithFrontier` is the exact condition, and
  `Checkpoints.FrontierNeverEmpty` and `Runs.NobodyCanTell` show it is always met.
- A follower skips the content of a rollup it meets on the ground that it already shows it. If the rollup purged messages
  the follower was never delivered, it does not: `Shortfalls.RollupCanHide` is such a follower, and
  `Shortfalls.MissedExactly` says when it agrees with a cold reader all the same.
- A later Archive call does not always finish a half-done archival: if an archived log still to be compacted ends in a
  message that does not parse, every rollup names the last operation and never the last message, and loses until a handle
  that has not seen the archival posts. `Handles.Handle.Archive` proves that this is the only case,
  `Shortfalls.StuckHappens` that it is reachable, `Shortfalls.StuckUntilPost` that only a post ends it.
- A rollup is meant to be invisible, but it moves the dormancy clock, whose floor is the baseline's author-claimed time: an
  idle topic can cease to be eligible and, if the compacting client's clock is behind, a busy one become so
  (`Shortfalls.RollupMovesTheClock`). `Upkeep.RollupRestartsTheClock` gives the exact effect. Grants and transitions are
  not among the operations that clock counts.
- A profile published with its own rotations for a persona that has no key yet is stored without checking them;
  `Writers.MergedContinues` says exactly when the stored chain stays valid, and `Writers.PublishUnchained` stores one that
  makes readers distrust the persona.
- A rotation never validates the new key: what it stores validates exactly when that key is well formed
  (`Writers.RotatedValidates`).
- With two profiles under one name a reader can distrust a persona and hold keys for it (`Keys.DuplicateContradicts`);
  `Keys.ContradictedExactly` says exactly when.
- Parsing undoes building exactly when no parent holds a comma or outer white space and the extras are unknown
  Soulstream headers (`Records.ParseUndoesBuild`); validation asks for neither, and extras shadow what the library writes:
  a valid record can parse back under another author (`Records.ExtraImpersonates`).
- The comment on parsing speaks of version 1 only; the code writes version 2 and reads both, and the model follows it.

## Model

| member | source | states |
|---|---|---|
| ApplyLoop.Apply | topic/view.go:112-471 | the loop over records, updating slices and maps in place, returns exactly the view that the recursive fold defines, headed by the log's own baseline, or malformed and empty without one |
| Fold.ViewHeads | topic/view.go:112-130 | a view names its baseline's id, time and state; without a baseline it says which way and shows nothing |
| ApplyLoop.FoldRecords | topic/view.go:144-440 | seeding from the baked content and then applying each record in turn leaves the fold's state |
| ApplyLoop.SortStrings | topic/view.go:462-468 | the frontier comes out strictly sorted and holds the same ids |
| Fold.FoldLogConcat | topic/view.go:210-440 | folding a longer log continues the fold of its beginning |
| Prelude.IndexOfMeans | topic/view.go:137-187 | an id leads to the last element that answers to it, by its own id or an edit's, and to none if no element does |
| Soundness.SoundStep | topic/view.go:210-440 | with new ids the index maps stay those a rollup's seeding would rebuild from the elements, and every id of an element is seen |
| Soundness.LogSound | topic/view.go:137-187 | so along every causal log, whose known ids are those it mentions |
| EssenceOfTopic.EssenceStep | topic/view.go:210-440 | two states no reader can tell apart stay so under every operation with a new id, readable or not |
| Compaction.PayloadFromEssence | topic/rollup.go:73-83 | the baked payload depends on the log only through its essence: whoever compacts bakes the same |
| Likeness.TalksAlike | topic/rollup.go:247-271 | two lists of contributions bake alike if and only if they agree on every field but sequences, statuses and dangling marks, stamps included |
| Likeness.FilesAlike | topic/rollup.go:272-281 | so for attachments |
| Likeness.ItemsAlike | topic/rollup.go:305-324 | so for work items, with every event and its void flag |
| Likeness.GrantsAlike | topic/rollup.go:283-301 | so for grants, with every event and its void flag |
| Compaction.RollupBakes | topic/rollup.go:73-86 | a rollup publishes a baseline that parents onto the frontier and continues from it, and bakes every field of every element the view shows, with nothing volatile |
| Compaction.SeedEssence | topic/view.go:137-198 | the new baseline folds to the essence of the log it replaced, frontier included |
| Compaction.CompactionCongruence | topic/rollup.go:30-43 | for every well-formed log and every tail, the compacted log followed by the tail reads as the full log followed by it, field by field of every element |
| Checkpoints.CheckpointEssence | topic/view.go:422-436 | a rollup met in the middle of a log changes nothing a reader can tell |
| Checkpoints.FollowerAgreesWithColdReader | topic/view.go:422-436 | a follower that kept all history agrees with a cold reader of the new baseline after every later operation |
| Checkpoints.RollupIdempotent | topic/rollup.go:73-83 | rolling up a rolled-up log bakes the same content again |
| Checkpoints.FaithfulExactlyWithFrontier | topic/view.go:189-198 | the rollup reads the same if and only if the frontier was not empty |
| Checkpoints.FrontierNeverEmpty | topic/view.go:189-214 | a causal log whose start has a leaf always has one |
| Anchors.RollupMarksExactly | topic/view.go:447-460 | a rollup never clears a dangling mark and adds one exactly where the anchor was seen but neither baked, nor a leaf, nor brought back by the tail |
| Chronicle.MarksOverRuns | topic/view.go:447-460 | over any run, with any number of rollups and from any baseline, an anchor is marked exactly when it is none of the ids that reader can resolve, and those are ids the log nobody compacted knows or rollups' own |
| Shortfalls.RollupCanMark | topic/view.go:447-460 | a concrete log on which a rollup adds a dangling mark |
| Shortfalls.OpeningIsCausal | topic/view.go:124-198 | that log meets the hypotheses of the compaction theorems |
| LifecycleRules.LifecycleClosedForm | topic/view.go:401-445 | archived if ever archived, else closed if ever closed, else dormant if no content followed the last dormant mark, else active if there was content or it started active, else as it started |
| LifecycleRules.TerminalStates | topic/view.go:401-421 | archived is absorbing and closed only ever becomes archived |
| LifecycleRules.LifecycleStep | topic/view.go:200-209 | one operation moves the settled lifecycle by its mark alone, and counts as content exactly when the fold applies it |
| Trails.TouchedOk | topic/view.go:331-361 | a claim, done or abandon keeps the item told by its timeline |
| Trails.WorkHistory | topic/view.go:336-361 | an item's effective events read (claim abandon)* and then nothing, claim, done, or claim done, and the status says which |
| Trails.WorkRules | topic/view.go:336-361 | an event is void exactly when what took effect before does not allow it: a claim needs an item nobody holds, a done none before it, an abandon a claim; status and owner are told by what took effect, the owner by the claim not abandoned |
| Trails.EffectiveIsLawful | topic/view.go:336-361 | the same at every point of the timeline |
| Trails.ChallengedOk | topic/view.go:388-400 | at most one revocation counts, it is the granter's, and a grant is revoked exactly when there is one |
| Trails.TrailsTell | topic/view.go:237-400 | along any log, status, owner, void flags, grant status and edit authorship stay determined by the trails |
| Trails.ConsistentAlike | topic/rollup.go:247-324 | a rollup bakes the same story: views that read the same are equally consistent |
| Trails.BodyIsNewestEdit | topic/view.go:237-257 | the log holds the edit that last changed a contribution, by its author, and the body and mentions are that edit's |
| Ledger.CountsAgree | topic/view.go:217-375 | a fold holds as many elements of each kind as its start and its log make, malformed operations making none |
| Ledger.EveryTalkStands | topic/view.go:218-236 | every turn, comment and reply is there, at the place its order gives it, with the id, author, time, kind, anchor and authority of its operation, and unless edited its body and mentions |
| Ledger.EveryFileStands | topic/view.go:277-286 | and so is every attachment, with the name, object, digest, size, content type and anchor of its operation |
| Ledger.EveryItemStands | topic/view.go:306-318 | and every item whose title is not blank, with its title, body and mentions |
| Ledger.EveryGrantStands | topic/view.go:362-375 | and every grant whose grantee and scope are not blank, with its granter, grantee, scope and expiry |
| Ledger.RemovedExactly | topic/view.go:287-305 | an attachment is marked removed exactly when it was at the start or some known removal names it, and the mark is the first such removal's |
| Ledger.ResolvedExactly | topic/view.go:258-276 | a comment is marked resolved exactly when it was at the start or a resolution names it or an edit of it, the mark is the first one's, and no turn is ever resolved |
| Ledger.FirstRemovalIsFirst | topic/view.go:293-305 | the first removal is the first operation that removes, with none before it |
| Effects.RevisionsExactly | topic/view.go:237-257 | the stamps of a contribution are those of the well-formed edits by its author that name it or an edit of it, in order, and it reads as the last of them says, else as it did |
| Effects.TimelineExactly | topic/view.go:319-361 | the timeline of an item gains one event for each well-formed claim, done or abandon that names it, in order, and nothing else |
| Effects.ChallengesExactly | topic/view.go:376-400 | and that of a grant one for each well-formed revocation, whoever makes it |
| Effects.EveryTalkReads | topic/view.go:218-257 | from the operation that made it to what it reads now: posted words, or those of the last edit |
| Effects.EveryItemTells | topic/view.go:306-361 | an item the log opens has the timeline the log gives it, and its status and owner follow from that alone |
| Effects.EveryGrantTells | topic/view.go:362-400 | so has a grant the log issues, and at most the granter's first revocation counts |
| Effects.AnswersExactly | topic/view.go:137-187 | in every causal log an id leads to the last contribution that bears it or has an edit bearing it, and to the last attachment, item or grant that bears it; else nowhere |
| Effects.WarningsExactly | topic/view.go:210-440 | a view carries one warning for each operation that is malformed, aimed at nothing, not its author's to make or out of place, and no other |
| Permanence.ElementsArePermanent | topic/view.go:237-400 | along any log no element vanishes, moves or changes author; edits and timelines only append; marks, done and revoked are final |
| Ancestry.FrontierIsMaximal | topic/view.go:462-468 | from birth on the frontier is sorted, not empty, and exactly the operations nobody names as parent |
| Ancestry.EveryOpReachesFrontier | topic/view.go:211-215 | every operation is, or is an ancestor of, some member of the frontier |
| Ancestry.ParentsComeFirst | topic/post.go:26-30 | in a causal log only earlier operations are named as parents |
| Upkeep.NewestOpTs | topic/upkeep.go:77-106 | the latest of all the times the view's contributions, attachments and items carry, with the baseline as floor |
| Upkeep.RollupRestartsTheClock | topic/upkeep.go:77-120 | whatever time a rollup claims, eligibility afterwards is that of the same elements over the new floor, and it agrees with before if and only if an element decides or both floors fall on the same side of the window |
| Shortfalls.RollupMovesTheClock | topic/upkeep.go:77-120 | concrete logs on which a rollup stamped later hides an eligible topic and one stamped earlier makes a busy topic eligible |
| Upkeep.LastActivity | topic/upkeep.go:136-151 | the newest of an item's own times and those of what is anchored to it |
| Upkeep.StaleClaims | topic/upkeep.go:122-157 | in order, the ids of the claimed items about which nothing happened within the window |
| Upkeep.StaleIdsAre | topic/upkeep.go:122-157 | every stale claim is listed |
| Upkeep.StaleIdsOnly | topic/upkeep.go:122-157 | and nothing else is |
| Upkeep.SweepConverges | topic/upkeep.go:122-126 | abandoning the stale claims reopens exactly those items, and repeating the sweep is entirely void, whatever operations but claims came between |
| Upkeep.IndexedTail | topic/view.go:312-318 | distinct ids keep every item reachable under its own id |
| Manifests.ResolveBaseline | topic/rollup.go:192-231 | rewrites the first record to its inline form or says which way it cannot |
| Manifests.ResolveExactly | topic/rollup.go:192-231 | a manifest is unreadable exactly when an object is missing, corrupt exactly when the objects in order do not have the digest or hold no document, and else the first record carries that document and everything else is as it was |
| Manifests.ResolveWireForm | topic/rollup.go:151-231 | a published baseline, inline or manifest, resolves to exactly what an inline publish would have carried, or to an error when an object is gone: never to anything else |
| Runs.BornFounded | topic/start.go:25-69 | a freshly started topic is a world the theorems over runs apply to |
| Runs.BornReachable | topic/start.go:25-69 | it is reachable, and its baseline is one readers may start from |
| Runs.BirthShows | topic/start.go:49-69 | a freshly started topic shows its state, nothing said, proposed, with its baseline to build upon |
| Runs.InvStep | topic/rollup.go:50-142 | every step any client can take, a crash included, keeps the invariant: readers agree, manifests resolve, objects anyone needs are stored |
| Runs.InvRun | topic/rollup.go:50-142 | and so does every run |
| Runs.NobodyCanTell | topic/rollup.go:30-43 | in every reachable world the stored log resolves, its frontier is not empty, and reading it, or having followed from any earlier baseline, shows what the log nobody compacted shows, field by field of every element |
| Runs.GuardExact | topic/rollup.go:119-142 | a rollup lands exactly when its snapshot is still the whole log and the log does not end in garbage; one that loses leaves the log untouched |
| Runs.AttachmentsStored | topic/attachment.go:21-50 | every attachment any reader lists has its object, unless it was removed and the topic archived |
| Runs.DeletionsHitGarbage | topic/rollup.go:91-99 | no deletion hits a chunk the current baseline names, a document about to be published, or the object of a standing attachment |
| Runs.NothingIsTakenBack | topic/rollup.go:30-43 | whatever any clients do next, elements are permanent, archived stays archived and closed never reopens |
| Runs.ReadersSeeTrails | topic/view.go:319-400 | in every reachable world every item, grant and edit trail any reader is shown tells that element's whole state |
| Chronicle.EveryIdOnce | topic/post.go:57-65 | in every reachable world no operation id is in the record twice, whoever retried what and whichever answers were lost |
| History.CoherentPost | topic/post.go:19-32 | an ordinary operation keeps readers of every baseline in agreement |
| History.CoherentRollup | topic/rollup.go:73-90 | so does a rollup, and it leaves what they agree on unchanged |
| StepsKept.ResolveKept | topic/rollup.go:192-231 | folding a snapshot, however old, lets a client believe or plan nothing that is not so |
| WritesKept.PostKept | topic/post.go:19-32 | a post keeps the invariant, attachments included |
| WritesKept.PublishKept | topic/rollup.go:119-190 | a guarded publish keeps it, won or lost, acknowledged or not, inline or manifest |
| WritesKept.DeleteKept | topic/rollup.go:91-99 | so does a best-effort deletion, done or not |
| WritesKept.PutChunkKept | topic/rollup.go:156-172 | so does storing a document nobody names yet |
| WritesKept.UploadKept | topic/attachment.go:36-41 | so does storing an attachment before its operation |
| Steps.SnapshotFacts | topic/replay.go:14-17 | what a snapshot shows stays true: its ids are known, its attachments and removals stand, and archived is archived |
| Realms.TraceArchived | topic/lifecycle.go:66-75 | once archived, archived at every later moment of any trace |
| Realms.HeadBorn | topic/lifecycle.go:106-115 | the head of the log only changes when a rollup makes it the whole log |
| Bake.BakePayload | topic/rollup.go:73-83 | the copying loops yield the payload a rollup publishes: the view's state, frontier, lifecycle and every field of every element, nothing volatile |
| Bake.CleanBakedContributions | topic/rollup.go:247-271 | no sequence, status or dangling mark is left, on stamps neither, and every other field is as it was |
| Bake.CleanBakedAttachments | topic/rollup.go:272-281 | the same of attachments |
| Bake.CleanBakedWorkItems | topic/rollup.go:303-324 | the same of items and their timelines, void flags included |
| Bake.CleanBakedGrants | topic/rollup.go:283-301 | the same of grants and their timelines, keeping every grant |
| Handles.Handle.Materialise | topic/materialise.go:5-40 | adopts exactly the view of the log stored at some moment of the call, or a malformed view, or leaves the handle as it was |
| Handles.Handle.Post | topic/post.go:14-32 | refused exactly when the handle has seen the topic archived; else the record that lands has the observed frontier as parents, the author and the time of the request, and only success advances the handle; undisturbed it succeeds |
| Handles.Handle.PostTurnIdempotent | topic/post.go:57-84 | under any interleaving and any lost answers a known id lands nothing during the call, success means the id is in the record's history and landed in the call if it was unknown, and only success advances the handle; undisturbed it succeeds unless archived, and an unknown id lands exactly this turn |
| Handles.Handle.Transition | topic/lifecycle.go:21-35 | refuses exactly the states the protocol does not define, without a request |
| Handles.Handle.Attach | topic/attachment.go:17-50 | refuses a blank name and an archived topic without a request; on success the operation names an object that is stored and holds the data, with its digest and size; undisturbed it succeeds |
| Handles.Handle.Rollup | topic/rollup.go:44-104 | on success exactly the log as some snapshot saw it was replaced by one baseline that bakes what it showed, inline up to the threshold and as a manifest above it, and the handle adopts what it shows; errors leave the handle alone; undisturbed the outcome is exactly determined by the log, and of the objects exactly the superseded chunks are gone |
| Handles.Handle.PublishBaseline | topic/rollup.go:119-190 | makes at most one guarded attempt; on success the log holds the baseline alone, inline or as a manifest of one stored document with its digest and length; a lost guard is reported as such, with the log unchanged |
| Handles.Handle.DeleteAll | topic/rollup.go:91-99 | undisturbed, exactly the named objects are gone |
| Handles.Handle.Sweep | topic/lifecycle.go:122-144 | undisturbed, no withdrawn attachment's object is left and no other object is gone |
| Handles.Handle.ArchiveCompact | topic/lifecycle.go:146-165 | at most three guarded attempts, and exactly three when it reports lost races |
| Handles.Handle.Archive | topic/lifecycle.go:66-120 | an op-id without error was at some moment of the call the archived topic's whole log; undisturbed the call ends compact, archived and swept, reporting the baseline now alone in the log or, if it was archived and compact before, that it was; the one exception is an archived log still to be compacted that ends in garbage |
| Handles.Handle.Close | topic/lifecycle.go:44-60 | once an op-id is returned, error or not, its transition landed on the observed frontier, and the topic is closed or archived at every moment since; without error one compaction was tried or there was nothing to compact; undisturbed the topic ends compact, or is reported archived if it was |
| Realms.TraceShut | topic/lifecycle.go:44-60 | once closed or archived, closed or archived at every later moment of any trace |
| Handles.QuietGuard | topic/rollup.go:85-90 | undisturbed, the guard holds unless the log ends in a message that does not parse |
| Shortfalls.StuckHappens | topic/lifecycle.go:84-98 | a reachable world whose archived log no rollup can win: the case `Handles.Handle.Archive` excludes |
| Shortfalls.StuckUntilPost | topic/rollup.go:85-90 | of all steps anybody can take exactly the posts end that state |
| Handles.HeadedSince | topic/lifecycle.go:106-115 | the baseline Archive finds at the head was alone in the log when it was seen compact, or since |
| Follow.Follower.Receive | topic/follow.go:45-95 | after each record the follower shows the fold of all it has received, its first baseline resolved once, and skips what does not parse |
| Follow.CheckpointForm | topic/view.go:422-436 | a follower meets a checkpoint the same whether it was published inline or as a manifest |
| Follow.FollowerSeesTheTopic | topic/follow.go:15-19 | a follower that joined at any baseline of a reachable history shows what the log nobody compacted shows |
| Shortfalls.MissedExactly | topic/view.go:422-436 | a follower that meets a rollup of operations it never received shows the topic of the new baseline if and only if they changed no content and left its leaves leaves |
| Shortfalls.RollupCanHide | topic/view.go:422-436 | a concrete follower that never shows a contribution the baseline it skipped holds |
| Artefacts.Artefacts | topic/artefact.go:32-124 | the list is, for the roots the anchor walks determine, each lineage by increasing root with all its revisions in order and its newest standing revision as tip, withdrawn lineages left out |
| Artefacts.SameRootMeansMeeting | topic/artefact.go:60-87 | for any anchor graph, cycles included, two attachments share a root exactly when their walks meet |
| Artefacts.RootIsEnd | topic/artefact.go:60-87 | a walk that reaches an attachment without parent ends there, and that is the root |
| Artefacts.Roots | topic/artefact.go:63-87 | the path-compressing loop ends and roots every attachment; on a cycle the root is the member reached first from the lineage's first attachment |
| Artefacts.RootsDetermined | topic/artefact.go:60-87 | anchors leave no choice of roots, cycles included |
| Artefacts.ParentExactly | topic/artefact.go:46-58 | an attachment revises the last one that bears the id it is anchored to, if that is another, and else none |
| Artefacts.ListedExactly | topic/artefact.go:89-123 | the list holds each lineage of which something stands, by increasing root: under the root's id, all its attachments in stream order, and as tip, with its name, the newest not withdrawn |
| Artefacts.NamedExactly | topic/artefact.go:145-164 | the candidates for a name are all listed artefacts of that name, in order |
| Artefacts.RevisionExtendsOneArtefact | topic/artefact.go:32-39 | when anchors point backwards, a new attachment appends itself to exactly the listed artefact it revises and becomes its tip unless withdrawn, revives a withdrawn one, or is one of its own; every other listed artefact is unchanged |
| Artefacts.LineagesDisjoint | topic/artefact.go:89-92 | no attachment is in two lineages |
| Artefacts.GraphSurvivesCompaction | topic/artefact.go:11-16 | views that read the same have the same anchor graph |
| Artefacts.FindArtefact | topic/artefact.go:126-164 | an op-id of a lineage decides; a name only when one lineage carries it, else none or all candidates |
| Slugs.Slugify | topic/subjects.go:100-119 | the slug is empty or well shaped |
| Slugs.SlugIsWords | topic/subjects.go:100-119 | it is the maximal runs of letters and digits of the lowered name, joined by single hyphens |
| Slugs.SlugIdempotent | topic/subjects.go:100-119 | slugging a slug changes nothing |
| Slugs.SlugKeepsLetters | topic/subjects.go:100-119 | a slug keeps every letter and digit of the lowered name in order and adds only hyphens |
| Slugs.RandomSuffix | topic/subjects.go:121-131 | four characters of the slug alphabet, each the one its random byte selects, or zeros without randomness |
| Slugs.NewTopicID | topic/subjects.go:81-98 | for every display name the id passes the slug grammar within 64 characters, and is the slug, cut to 59 characters if longer, a hyphen and the suffix |
| Names.CheckNameIsGrammar | identity/name.go:21-63 | the scan accepts exactly the words of lower-case letters and digits joined by single hyphens, of at most 64 characters |
| Names.ReasonExactly | identity/name.go:31-63 | the reason given is the first that applies to the whole name, else that of the first character which is neither letter, digit nor hyphen |
| Keys.Chain | registry/chain.go:9-47 | the chain of all keys if every link is contiguous, proved and ends at the current key, else none |
| Keys.ChainVouched | registry/chain.go:9-20 | in a valid chain each key vouched for the next and the last is current |
| Keys.ChainedExactly | registry/chain.go:9-47 | a chain is valid if and only if there is no key, or some sequence of keys has each rotation take one to the next on its word and ends at the current key; and then it is that sequence |
| Keys.Check | registry/profile.go:56-101 | the field checks and the loop over rotations decide validity |
| Keys.ValidExactly | registry/profile.go:56-101 | a profile is valid if and only if both names are slug-grammar words of at most 64 characters, it is not its own operator, every key it mentions is well formed, and attestations and rotations are signed and have what they are about |
| Keys.IsPrefix | registry/chain.go:101-112 | whether the pin is a prefix of the chain |
| Keys.BuildKeyring | registry/chain.go:58-99 | the loop over profiles returns the reconciliation of pins and profiles |
| Keys.PinsOnlyGrow | registry/chain.go:49-59 | whatever the directory holds, a pin is only ever replaced by a chain it is a prefix of |
| Keys.EachOnItsOwn | registry/chain.go:49-59 | with distinct names a persona is trusted and re-pinned exactly when its own chain is valid and extends its pin; otherwise it is distrusted, keyless, and the pin stays |
| Keys.Untouched | registry/chain.go:58-70 | a pinned persona absent from the profiles keeps its pin and stays trusted |
| Keys.DuplicateContradicts | registry/chain.go:71-97 | a concrete directory of two profiles under one name where that happens |
| Keys.ContradictedExactly | registry/chain.go:71-97 | for any profiles and pins, a persona is distrusted and keyed at once if and only if one of its profiles is refused and a later one is accepted with no refusal after that |
| Directories.Directory.Put | registry/kv.go:68-115 | a write lands only if the entry is still the one that was read, and a write that continues it keeps all chains growing |
| Writers.MergedContinues | registry/kv.go:95-107 | an update continues the stored chain exactly when there was a key or the caller's own chain is valid |
| Writers.MergedUpdates | registry/kv.go:95-107 | key, rotations and creation time are the stored ones if there are any, and every other field is the caller's |
| Writers.MergedValidates | registry/kv.go:95-107 | merging a valid profile onto a valid stored one stores a valid one |
| Writers.PublishUnchained | registry/kv.go:49-117 | a concrete first publish that validates, is stored, and makes a reader distrust the persona |
| Writers.RotatedContinues | registry/kv.go:158-168 | a rotation by the holder of the current key extends the chain by the new key and stays valid, whatever the new key is |
| Writers.RotatedValidates | registry/kv.go:158-168 | what a rotation stores validates if and only if the new key is well formed |
| Writers.Writer.Publish | registry/kv.go:49-117 | however other writers interleave, success means no conflicting key was stored and the entry holds exactly the merge onto what was read; another's name, an invalid profile or a different key is refused with nothing written; undisturbed the outcome is determined |
| Writers.Writer.Rotate | registry/kv.go:119-178 | on success exactly the read profile with its chain extended by the new key, well formed or not, is stored; undisturbed the outcome is determined |
| Writers.Writer.EnsureSigningKey | registry/ensure.go:21-50 | however other writers interleave, success means the stored current key is the signer's and no other key was overwritten; undisturbed nothing changes where a key is stored, and a persona without one gets exactly this key added to its profile, or to the minimal one, if that validates |
| Writers.Reader.Refresh | registry/chain.go:49-99 | as long as everybody writes legally no reader ever distrusts anyone, every pin grows, and undisturbed the pins become the chains the directory holds, all others stay, and exactly the entries that do not decode are warned about |
| Writers.ReconciledSafe | registry/chain.go:58-99 | profiles read in any order while the directory grows distrust nobody and leave pins the directory still continues |
| Operators.OperatorChain | registry/attest.go:139-162 | visits each persona once, the last again only on a cycle, follows real links, ends within as many links as profiles, and reports the end the unbounded walk has |
| Operators.OneEnd | registry/attest.go:127-137 | the unbounded walk ends in one way only |
| Operators.StatusExactly | registry/attest.go:22-55 | a claim is attested if and only if an operator that is not distrusted countersigned, with some key of its chain, a statement naming both personas and a key that is none or in the operated chain; and likewise exactly when there is no claim, it is unverified, or it failed |
| Operators.Judge | registry/attest.go:31-55 | the checks in turn and the loop over the operator's keys arrive at that status |
| Operators.VouchSurvivesRotation | registry/attest.go:22-31 | an attested claim stays attested when either chain is extended, unless the operator is distrusted |
| Projection.Curator.Start | curator/projection.go:40-85 | subscribing before reading the board lets nothing slip through |
| Projection.Curator.OnSignal | curator/projection.go:50-58 | the callback keeps the cache coherent |
| Projection.Curator.Refresh | curator/projection.go:104-128 | however signals and publishes fall in between and whichever reads fail, every topic's entry is current, or its path is dirty or owed a signal; undisturbed, every entry is current; no entry is dropped and only dirty paths are rewritten |
| Records.Build | record/record.go:97-125 | the header set of a valid record, or the first field error in the order the fields are checked |
| Records.Check | record/record.go:63-95 | field by field, then the loop over parents: reports the first violation, if any |
| Records.ValidExactly | record/record.go:63-95 | a record is accepted if and only if its id and parents are ids, both names are slug-grammar words of at most 64 characters, and it has a type and a time |
| Records.RecordFirstFault | record/record.go:63-95 | of several faults the one reported is the first in the order id, author, acting identity, type, time, parents |
| Records.BuiltSays | record/record.go:97-125 | each field stands under its own header, in version 2, parents and signature only if there are any, extras as they are and shadowing what they name, and nothing else |
| Records.Parse | record/record.go:127-222 | the record a header set says, or its first violation in the order the fields are checked |
| Records.ParsedExactly | record/record.go:127-222 | a header set parses if and only if its id, version, names, type, time and parents are each acceptable, and then as the record those headers spell, every unknown Soulstream header kept |
| Records.HeaderFirstFault | record/record.go:127-222 | of several faults the one reported is the first in the order id, version, author, acting identity, type, time, parents |
| Records.DigitsExactly | record/record.go:149-156 | a version is read as a decimal number, most significant digit first |
| Records.ParseUndoesBuild | record/record.go:97-130 | for every valid record parsing undoes building exactly when its parents are plain and its extras stand apart from the known headers |
| Records.ExtraImpersonates | record/record.go:120-122 | a valid record whose extras hold the author header parses back as that other author's |
| Records.CanonicalIsPlain | record/record.go:89-93 | 36-character ids (section 4 of RFC 9562) are plain |
| Records.SplitUndoesJoin | record/record.go:114-116 | splitting undoes joining exactly when no part holds a comma |

## Left out

- Connections, contexts, timeouts and stream plumbing: a subject is a sequence of messages and the stores are maps.
- A drain that straddles somebody else's rollup: atomicity is assumed, not proved.
- JSON text and the measure behind the inline threshold: payloads are decoded values, and the size of a document is any number.
- The wording of warnings and errors: warnings are counted, errors are cases.
- The announcement a materialised view is enriched with, signature verdicts and the annotation of views with them.
- The tie between a manifest object's name and the baseline id it is named after: names are just new.
- Sub-topics, discovery, memory, inboxes, mention parsing and delivery: network traffic with thin logic.
- Grant and lifecycle helpers that only build a payload and post it, and StartTopic's own refusals.
- Profile documents with unknown fields are a case of a stored document; their decoding is not part of this model, nor are base64 and key sizes.
- The acceptance of ids by the uuid library, which is not part of this model: it is a parameter.
- Records.Parse: version text is compared as an integer without a bound on its size.
- Curator scoring, suggestion wording, habits and scheduling: floating point and strings with no deep property.
- Curator entries are any function of a topic's content; how the search text and the activity times are derived is not modelled.
- Provisioning, the tool catalogue, command line, server surfaces, configuration, key files and rendering.
- Handles.Handle.Post: closed topics are only warned about in the source, and the warning is not modelled.
- Artefacts.Artefacts: the ids of the member map are enumerated in increasing order instead of being collected and sorted.
