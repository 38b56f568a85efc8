# Verified model of an ActivityPub server

This project models the server as step systems over its database tables, one SQL statement or
transaction per step, and proves what holds over every run: of the job queue and its workers, of the
transactions that store activities, of the follow/accept/reject/undo handlers, and of two instances
talking over an unreliable network. Independent parts of the server follow in modules of their own:
HTTP signatures, delivery fan-out, inbox resolution, collection paging, the OAuth token endpoint and
the ancestors of a status.

Code that changes things step by step is a method on a class or a loop, proved equal to a function on
values; the theorems are lemmas about those functions and about runs of steps.

| Modules | Subject |
|---|---|
| `SqlQueue`, `Delivery`, `Backoff`, `WorkerProtocol`, `JobHistory`, `Progress` | the `queue_jobs` table, what a worker does with a lease, retry delays in int64 nanoseconds, any number of workers with crashes, what the rows say about the runs, and why deliveries come to an end |
| `Vocabulary`, `Tables`, `Inbox`, `Transactions`, `Effects` | documents, tables and their statements, the inbox handlers, the two transactions that store activities, and what all of these leave in the rows |
| `Federation`, `Guarantees`, `Witnesses` | one server as a step machine, its invariant, what follows from it, and runs that reach the failing side of conditional properties |
| `TwoInstances`, `MistakenFollow`, `Admission` | two servers and a network that loses, repeats, reorders and misroutes, a run in which they mean different follows, and why its signatures may be taken as ideal |
| `SignatureHeader`, `SigningString`, `Signing`, `FaithfulSigning`, `SignedText`, `KeyIds`, `Authenticity`, `Ingress` | HTTP signatures from parser to accepted sender |
| `Fanout`, `InboxResolution`, `Routing`, `PublicPosts` | whom a post is addressed to, the deliver jobs it gets, how a reference becomes an inbox |
| `Collections`, `OAuth`, `OAuthProtocol`, `Ancestors` | cursor walks, code exchange under concurrency, the thread above a status |
| `Text`, `Wrappers` | string functions of Go's library (ASCII; what they cut: `Text.TrimSpaceIsExact`, `Text.TrimRightIsExact`, `Text.FieldsAreTheParts`), option and result types |

## Main results

- One lease per job and a bounded number of delivery runs over every interleaving. While a due job waits,
  the jobs dequeued before it are at most those already ahead of it plus those for which a step writes
  an earlier place in the queue order. Every run has boundedly many delivery steps, and from every state that a
  crash-free run reaches, time and workers finish all deliveries, however the runs of the jobs turn out.
  A worker is handed what was enqueued; a row is done exactly if a run of its job succeeded, and failed exactly
  if its delivery was given up.
- Each stored activity has exactly the jobs it should have, in every reachable state and whatever
  statement a transaction is lost after; an accepted or rejected follow has evidence.
- A follow shown as accepted on one instance is stored by the same follower on the other, and its Accept
  was queued there, exactly if what the other stores under the follow's id is by an actor of the first at all;
  it is if no document with that id reaches the other instance from anybody else.
- A request accepted by the shared inbox was signed with a key whose id is the sender's URL but for fragment
  and trailing slashes, and it is the request
  that was signed as far as the signature's header list goes: in every header listed, in the target if
  `(request-target)` is listed, in the body if `digest` is listed. A signed request that arrives unchanged
  is accepted exactly while the clocks agree.
- Codes issued = codes stored + user tokens minted, over all interleavings and rollbacks.

Where a promised property fails, its exact condition is proved:

- The backoff loop overflows int64 on some configurations: it computes the intended delay for every
  failure count exactly if `Backoff.Safe` holds of the configuration.
- The verifier accepts whatever header list a signature names. A list without `digest` leaves the body
  free: the request is then accepted with every other body (`Authenticity.BodyIsBoundIffDigestIsListed`,
  `Authenticity.UnlistedDigestLeavesBodyFree`; for a list that peers use:
  `Authenticity.ShortListLeavesBodyFree`). Likewise a list without `(request-target)` leaves the target
  free, and one without `date` the time (`Authenticity.UnlistedTargetIsFree`,
  `Authenticity.UnlistedDateLeavesTimeFree`).
- Enqueues read the clock and draw their id before they commit, so an enqueue can overtake a waiting job:
  exactly if its time is earlier, or the same and its id smaller
  (`WorkerProtocol.EnqueueOvertakesIffSortedFirst`; runs for both: `WorkerProtocol.LaterCommitIsServedFirst`).
- A retried follow whose Accept to the same inbox is already queued stays pending
  (`Guarantees.FollowIsAcceptedIffAcceptIsNew`; a run: `Witnesses.LostFollowStaysPending`).
- An Undo that embeds the undone activity trusts the embedded type
  (`Guarantees.TypedUndoIsExactIffTypeIsStored`; a run: `Witnesses.MislabelledUndoLeavesTheLike`).
- Update and Delete check the owner in one statement and write in another; a Create can come in between.
  The write spares other actors exactly if none of them owns a live object at its URL by then
  (`Guarantees.UpdateWriteIsSafeIffOwnerStands`, `Guarantees.DeleteWriteIsSafeIffOwnerStands`; runs for
  both: `Witnesses.OwnerCheckIsOvertaken`).
- An activity id is not tied to its actor's host, so another actor's follow under the same id, if it arrives
  first, can earn the Accept that marks a follow as accepted (`TwoInstances.AcceptedFollowsAgreeIffIdIsHomes`;
  a run: `MistakenFollow.AnotherFollowIsAccepted`).
- The signature printer does not escape: the header binds the key id again exactly if it has no quote and no
  backslash (`KeyIds.KeyIdComesBackIffPlain`).

The runs in `Witnesses` are for any URLs that are `Distinct`, as `Witnesses.EXAMPLE` is
(`Witnesses.ExampleIsDistinct`); the one in `MistakenFollow` is for any `Staged` instances, as those of
`MistakenFollow.ExampleIsStaged` are.

## Model

| member | source | states |
|---|---|---|
| SqlQueue.Queue.Enqueue | queue/sqlqueue/sqlqueue.go:26-52 | inserts a pending row due now or at its `run_after`, and fails exactly on a duplicate idempotency key |
| SqlQueue.Queue.Dequeue | queue/sqlqueue/sqlqueue.go:54-87 | claims the due, unlocked job that is first by (run_after, id), handing out that row's id, type, payload and attempts, or nothing if there is none |
| SqlQueue.Queue.Ack | queue/sqlqueue/sqlqueue.go:89-99 | succeeds exactly for a job in process; that job then keeps its identity and attempts and can be claimed at no clock, every other row is untouched, and a failed ack changes nothing |
| SqlQueue.Queue.Nack | queue/sqlqueue/sqlqueue.go:101-111 | a job in process is afterwards claimable from now on with one more attempt, or with requeue false at no clock; every other row and every job not in process is untouched |
| SqlQueue.Queue.NackSchedule | queue/sqlqueue/sqlqueue.go:113-131 | a job in process is afterwards failed and claimable at no clock, or claimable exactly from the given time on with one more attempt, either way with the error clipped to 4096 bytes; every other row and every job not in process is untouched |
| SqlQueue.FirstBelow | queue/sqlqueue/sqlqueue.go:66-73 | the row chosen is due, pending, unlocked and before every other such row; none is chosen only if none exists |
| Backoff.NextDeliveryRunAfter | internal/worker/delivery_fail.go:72-99 | the doubling loop, with int64 wrap-around, equals the recursive delay |
| Backoff.DelayIsClosedFormIffSafe | internal/worker/delivery_fail.go:72-99 | the delay is min(max, initial * 2^min(prior, 20)) for all failure counts if and only if no doubling below the cap overflows |
| Backoff.ClosedFormInNumbers | internal/worker/delivery_fail.go:72-99 | in that closed form the initial delay is 30 seconds by default, the cap at least the initial delay, and the doublings at most 20 |
| Backoff.DelayIsBoundedAndMonotone | internal/worker/delivery_fail.go:72-99 | on safe configurations delays lie between the initial delay and the cap and never shrink with more failures |
| Backoff.SmallCapIsSafe | internal/worker/delivery_fail.go:72-99 | an effective cap of at most 4611686018 seconds never overflows |
| Backoff.WrappedCapRetriesInThePast | internal/worker/delivery_fail.go:80-99 | a concrete cap beyond int64 nanoseconds for which the first retry is scheduled in the past |
| Delivery.HandleDeliveryJobFailure | internal/worker/delivery_fail.go:27-70 | permanent 4xx and the last attempt dead-letter the job, everything else is rescheduled with backoff |
| Delivery.WorkerLoop | cmd/apw/main.go:131-165 | one worker's loop acks successes, backs deliveries off and requeues other failures, with dequeues that fail, acks and nacks that are lost, and jobs arriving meanwhile |
| Delivery.ResolveLease | cmd/apw/main.go:150-162 | an ended run is acked, backed off or requeued by its outcome and job type |
| Delivery.AfterRunResolves | cmd/apw/main.go:150-162 | a job in process whose run succeeds is done; one that fails is due again at once, or, for a delivery, dead-lettered or due after its delay; no other job changes |
| WorkerProtocol.NextKeepsInv | queue/sqlqueue/sqlqueue.go:54-131 | every statement by any worker keeps ids, idempotency keys, claims, leases and attempt budgets consistent |
| WorkerProtocol.LeaseExclusivity | cmd/apw/main.go:140-163 | over every interleaving and crash a job has at most one lease, it is in process, and the lease shows the row's attempts, type and payload |
| WorkerProtocol.DeliveryBudget | internal/worker/delivery_fail.go:50-58 | a delivery's attempts stay below the maximum and it is handed out at most that many times (25 when configured below 1) |
| WorkerProtocol.DeadLetterIsEarned | internal/worker/delivery_fail.go:37-61 | a failed delivery is dead-lettered exactly on a permanent 4xx or on its last allowed run, and otherwise due again after the closed-form delay |
| WorkerProtocol.FinishedIsFinal | queue/sqlqueue/sqlqueue.go:89-131 | done and failed rows never change again, over any run |
| JobHistory.RowsAreTheJobsEnqueued | queue/sqlqueue/sqlqueue.go:26-52 | over every run, a row has the type, payload and key of the one enqueue that inserted it |
| JobHistory.LeasesShowTheJobsEnqueued | queue/sqlqueue/sqlqueue.go:66-86 | over every run, a lease has the type and payload with which its job was enqueued |
| JobHistory.StatusTellsHowRunsEnded | cmd/apw/main.go:150-163 | over every run, a row is done if and only if a run of its job succeeded, and failed if and only if it is a delivery whose run ended in a permanent 4xx or was its last |
| WorkerProtocol.DeliveryTerminates | internal/worker/delivery_fail.go:37-61 | without new deliveries the delivery steps of any run are bounded by a weight that each of them lowers |
| WorkerProtocol.UnclaimableJobsHaveFinished | cmd/apw/main.go:140-163 | after a crash-free run, a job that nobody holds and that can be claimed at no clock is done or failed, whatever the other jobs do |
| Progress.DeliveriesCanFinish | internal/worker/delivery_fail.go:37-61 | from every sound state, for every assignment of outcomes to runs, ticks, dequeues and resolutions alone finish every delivery, past any process jobs that keep failing |
| Progress.EveryDeliveryCanFinish | cmd/apw/main.go:140-163 | the same from every state that a crash-free run reaches |
| WorkerProtocol.NextRemovesRivals | queue/sqlqueue/sqlqueue.go:66-73 | a step adds a job ahead of a waiting one only by writing it an earlier time, and each committed dequeue of another job removes one |
| WorkerProtocol.BoundedOvertaking | queue/sqlqueue/sqlqueue.go:66-73 | over every run during which a due job waits, the dequeues of other jobs are at most its rivals at the start plus the steps that write an earlier time to run_after |
| WorkerProtocol.FreshStampsDoNotOvertake | queue/sqlqueue/sqlqueue.go:27-52 | if every time written comes from a clock reading after the job fell due, there are no such steps, provided the backoff does not overflow |
| WorkerProtocol.WithoutRivalsTheJobIsNext | queue/sqlqueue/sqlqueue.go:66-73 | once every job ahead is claimed, the next claim takes the waiting job |
| WorkerProtocol.EnqueueOvertakesIffSortedFirst | queue/sqlqueue/sqlqueue.go:40-52 | an enqueue that commits with an id drawn earlier joins the jobs ahead of a given one exactly if its (time, id) is before that job's |
| WorkerProtocol.LaterCommitIsServedFirst | queue/sqlqueue/sqlqueue.go:40-52 | runs in which a job that waits first in line sees an enqueue commit later and be claimed before it, by an earlier stamp or by an earlier id |
| WorkerProtocol.WorkerLoopIsARun | cmd/apw/main.go:131-165 | the loop of a lone worker is a run of the interleaved machine |
| Tables.Database.UpsertFollow | store/follows.go:27-41 | fails exactly when the id is blank or carried by another edge; otherwise the pair's edge, and no other, has the new id and state; keeps follow ids unique |
| Tables.Database.SetFollowStateByFollowActivityIDForFollower | store/follows.go:50-62 | no edge appears or disappears; the follower's edge with that follow id gets the state, every other is unchanged; at most one edge changes |
| Tables.Database.DeleteFollowById | store/follows.go:94-98 | reports a deletion exactly if the follower has an edge with that id; exactly the other edges remain |
| Tables.Database.UpsertLike | store/federated_interactions.go:9-22 | fails exactly on a blank object or id, or when another row carries the id; otherwise that actor's like of the object, and no other row, has the new id; keeps ids unique |
| Tables.Database.UpsertAnnounce | store/federated_interactions.go:32-45 | fails exactly on a blank object or id, or when another row carries the id; otherwise that actor's announce of the object, and no other row, has the new id; keeps ids unique |
| Tables.Database.UpsertBlock | store/federated_interactions.go:55-68 | the same for blocks, keyed by the canonical form of the blocked actor |
| Tables.Database.DeleteLikeById | store/federated_interactions.go:24-30 | reports a deletion exactly if the actor has a like with that id; exactly the other rows remain |
| Tables.Database.DeleteAnnounceById | store/federated_interactions.go:47-53 | reports a deletion exactly if the actor has an announce with that id; exactly the other rows remain |
| Tables.Database.DeleteBlockById | store/federated_interactions.go:70-75 | reports a deletion exactly if the actor has a block with that id; exactly the other rows remain |
| Inbox.HandleFollow | internal/inboxproc/follow.go:22-75 | stores the edge as pending, enqueues the Accept and marks the edge, statement by statement; run alone it is that sequence |
| Inbox.HandleAnswer | internal/inboxproc/follow.go:95-135 | an Accept or Reject changes the named follow only when its author is the followee |
| Inbox.HandleUndo | internal/inboxproc/undo.go:15-33 | a bare IRI is tried on all four tables, an embedded activity on the table of its type |
| Inbox.UndoBareActivityIRI | internal/inboxproc/undo.go:35-70 | deletes from the first of the four tables that has the row |
| Inbox.DeleteUndoTarget | internal/inboxproc/undo.go:84-101 | deletes from the table the embedded type names, nothing for other types |
| Inbox.UndoRunsTheCascade | internal/inboxproc/undo.go:35-70 | run undisturbed, the separate statements are the early-exit cascade |
| Inbox.HandleReaction | internal/inboxproc/social.go:15-49 | likes, announces and blocks addressed here are recorded for their actor |
| Inbox.HandleCreate | internal/inboxproc/create_update_delete.go:20-72 | stores an authentic, addressed object attributed to its actor, overwriting its owner |
| Inbox.HandleUpdate | internal/inboxproc/create_update_delete.go:74-114 | writes only after finding no other owner |
| Inbox.HandleDelete | internal/inboxproc/create_update_delete.go:116-150 | tombstones only an object of the activity's actor |
| Fanout.AttributionIsAReference | internal/as2/object_payload.go:71-108 | the attribution check accepts an actor exactly if one of the references in attributedTo, at any depth of lists, is that actor |
| Inbox.ProcessInboxActivity | internal/inboxproc/process.go:36-97 | a missing row fails without effect; otherwise exactly the handler of the stored activity's type runs |
| Effects.CreateStoresIffAttributed | internal/inboxproc/create_update_delete.go:20-72 | an addressed Create stores the object it embeds or points to for its actor if the object's attributedTo, if present, names that actor at some depth; otherwise it fails and changes nothing |
| Effects.CreateWritesOnlyItsObject | internal/inboxproc/create_update_delete.go:20-72 | whatever a Create changes is the object it is about, so attributed |
| Effects.CreateOfNothing | internal/inboxproc/create_update_delete.go:20-72 | a Create without such an object changes nothing, and fails unless its document is a bare IRI, its own |
| Effects.UpdateWritesIffAttributedAndOwned | internal/inboxproc/create_update_delete.go:74-114 | an addressed Update overwrites its object if it is so attributed and no other actor owns it; otherwise it fails and changes nothing |
| Effects.DeleteMarksOwnObject | internal/inboxproc/create_update_delete.go:116-150 | an addressed Delete marks exactly its actor's live object as deleted, ignores a missing one and fails on another's |
| Effects.UnaddressedChangesNothing | internal/inboxproc/audience.go:13-37 | creates, updates, deletes and reactions not addressed to this instance change nothing |
| Effects.NamelessActivitiesFail | internal/as2/object.go:10-28 | an activity without an object fails and changes nothing; an Update of a bare IRI is accepted and changes nothing |
| Effects.ObjectIriNamesTheObject | internal/as2/object.go:10-28 | an activity is about a non-blank IRI exactly if its object is that IRI or has it as id |
| Effects.ReactionIsRecorded | internal/inboxproc/social.go:15-49 | an addressed like, announce or block gets its pair's row in the table of its kind, unless its id is another pair's; no other row changes |
| Effects.FollowWaitsForAnAnswer | internal/inboxproc/follow.go:22-44 | without auto-accept the pair's edge is pending under the follow's id, unless that is another pair's; nothing else changes |
| Effects.FollowQueuesItsAccept | internal/inboxproc/follow.go:52-71 | the Accept queued is by the followee, about that follow, for the follower's inbox |
| Effects.AnswerDecidesTheFollow | internal/inboxproc/follow.go:95-135 | the followee's Accept or Reject sets exactly the edge with the follow id it names to accepted or rejected; anybody else's fails and changes nothing |
| Effects.UnknownAnswerIsIgnored | internal/inboxproc/follow.go:95-135 | an answer to a follow id that no edge has is accepted and changes nothing |
| Effects.UndoRemovesTheActorsRows | internal/inboxproc/undo.go:35-70 | an Undo of a bare IRI removes exactly its actor's rows with that activity id, from all four tables |
| Transactions.SharedInbox | aphttp/handlers.go:303-344 | stores the activity and its process job together or, lost after any statement, not at all |
| Transactions.PersistOutboxAndEnqueue | aphttp/postoutbox.go:179-251 | activity, side effects, one deliver job per inbox and the process job of a local follow are written together or, lost after any statement, not at all |
| Transactions.RecordOutboxFollowEffects | aphttp/postoutbox.go:309-364 | unless the connection is lost between its statements, the effects of the posted type, or an error |
| Transactions.RecordOutboxUndoEffects | aphttp/postoutbox.go:366-405 | the four deletes with early exit, each a point where the connection may be lost, equal the cascade |
| Effects.ReceiveStoresIff | aphttp/handlers.go:286-344 | the shared inbox refuses a document without id or usable actor, accepts a known id unchanged, and stores any other with its process job unless that job's key is taken |
| Effects.PostStoresIff | aphttp/postoutbox.go:179-251 | the outbox refuses a document without id or of another actor, accepts a known id unchanged, and stores any other if and only if its effects succeed and no key of its jobs is taken |
| Effects.OtherPostsHaveNoEffect | aphttp/postoutbox.go:309-364 | posted activities that are no follows, likes, announces or undos touch no other table |
| Effects.PostedUndoRemovesTheUsersRows | aphttp/postoutbox.go:366-405 | a posted Undo must name an id, bare or embedded, and removes exactly the user's rows with it |
| Effects.PostedReactionIsRecorded | aphttp/postoutbox.go:309-364 | a posted Like or Announce gets the user's row for the canonical form of its object |
| Effects.PostedFollowWaits | aphttp/postoutbox.go:309-364 | a posted Follow of somebody else who is local or can be resolved leaves a pending-remote edge, or is left to the local handler |
| Federation.NextKeepsInv | aphttp/handlers.go:303-344 | every transaction, handler statement and queue movement keeps edges, evidence and jobs consistent with the stored activities |
| Federation.ExecKeepsInv | internal/inboxproc/process.go:36-97 | the same over whole runs with any number of interleaved handlers |
| Guarantees.AnswersHaveEvidence | internal/inboxproc/follow.go:66-134 | an accepted edge has a stored Accept of its followee or a queued one for its current follow id; a rejected edge has a stored Reject |
| Guarantees.FollowIsAcceptedIffAcceptIsNew | internal/inboxproc/follow.go:44-75 | handling a follow accepts it exactly when its Accept job is new; otherwise the edge stays pending |
| Witnesses.RetriedFollowStaysPending | internal/inboxproc/follow.go:44-75 | from any consistent state, a worker lost after queueing the Accept leaves a follow that running the handler again for the same inbox fails on and leaves pending |
| Witnesses.LostFollowStaysPending | internal/inboxproc/follow.go:44-75 | such a run from the empty database, for any follower, followee and id |
| Guarantees.FollowIdsAreUnique | store/follows.go:27-41 | in every reachable state no two edges share a follow id, which the lookup of Accept and Reject relies on |
| Guarantees.IdsLiveInOneTable | internal/inboxproc/undo.go:35-70 | an activity id occurs only in the table of the stored activity's kind |
| Guarantees.CascadeDeletesEverywhere | aphttp/postoutbox.go:366-405 | the early-exit cascade equals deleting (id, actor) from all four tables, in inbox and outbox alike |
| Guarantees.DeletingRemovesHeldRows | internal/inboxproc/undo.go:35-70 | deleting (id, actor) from all four tables changes something exactly if one of them has a row of that actor with that id |
| Guarantees.TypedUndoIsExactIffTypeIsStored | internal/inboxproc/undo.go:84-121 | the typed delete equals deleting everywhere exactly if the embedded type is the stored one or the actor has no row with that id |
| Witnesses.MislabelledUndoLeavesTheLike | internal/inboxproc/undo.go:84-101 | for any actor and ids, a run in which a like survives an Undo that calls it a Follow, though a bare IRI would have removed it |
| Guarantees.StatementsKeepToTheFrame | internal/inboxproc/process.go:65-96 | no handler statement changes another actor's rows, except that answers change the state of follows of their author |
| Guarantees.UpdateAndDeleteRespectOwners | internal/inboxproc/create_update_delete.go:74-150 | whatever happens between the two statements, the first changes nothing and the second leaves every live object of another actor unchanged exactly if none of them stands at its URL by then; undisturbed they leave all of them unchanged |
| Guarantees.UpdateWriteIsSafeIffOwnerStands | internal/inboxproc/create_update_delete.go:103-114 | the write of an Update spares other actors' live objects exactly if none of them has its URL by then |
| Guarantees.DeleteWriteIsSafeIffOwnerStands | internal/inboxproc/create_update_delete.go:139-150 | the write of a Delete spares other actors' live objects exactly if none of them has its URL by then |
| Guarantees.CreateCanOvertakeOwnerCheck | internal/inboxproc/create_update_delete.go:103-114 | the object of a Create that comes between owner check and write is overwritten by the Update |
| Guarantees.CreateCanOvertakeDelete | internal/inboxproc/create_update_delete.go:139-150 | the object of a Create that comes between owner check and write is tombstoned by the Delete |
| Witnesses.OwnerCheckIsOvertaken | store/federated_objects.go:16-34 | for any two actors and URLs, runs from the empty database in which an Update overwrites, and a Delete tombstones, another actor's live object |
| Guarantees.JobsMatchActivities | aphttp/postoutbox.go:204-251 | in every reachable state an activity has one process job if and only if it is inbound or a local follow, and one deliver job for exactly its resolved inboxes |
| Guarantees.RepeatsChangeNothing | store/federation.go:106-126 | receiving or posting a stored id changes nothing, any other success adds the activity |
| TwoInstances.AcceptedFollowsWereHandled | internal/inboxproc/follow.go:22-114 | an accepted remote edge means the followee's server stored a follow of that followee under that id, whoever its author, and queued its Accept, over every run of both servers and the network |
| TwoInstances.AcceptedFollowsAgreeIffIdIsHomes | internal/inboxproc/follow.go:22-114 | over every such run, the activity stored there is the follow shown as accepted, by the same follower, if and only if it is by an actor of the follower's instance |
| TwoInstances.AcceptedFollowsAgree | aphttp/handlers.go:267-311 | it is that follow, and its Accept was queued, if documents with its id reach the followee's server only from actors of the follower's instance and nobody there posts one |
| TwoInstances.SignedFollowIsPosted | aphttp/postoutbox.go:204-251 | a Follow that an instance ever signed is one of its own outbox activities |
| MistakenFollow.AnotherFollowIsAccepted | internal/inboxproc/follow.go:52-71 | for any three actors set up so, a run that ends with the follow accepted at home while away holds only a third party's follow under its id |
| TwoInstances.SignedAcceptWasEarned | internal/inboxproc/follow.go:60-75 | a signed Accept that nobody posted by hand came out of the follow handler |
| Admission.AcceptedDocumentsAreAdmissible | aphttp/handlers.go:236-285 | what the shared inbox accepts satisfies the network's assumption on signatures, if the keys of the other instance's actors sign only what its server sends |
| SignatureHeader.ParseSignatureHeader | internal/httpsig/parse.go:9-68 | the index-driven parser, without out-of-range access, equals the grammar on the remaining text |
| SignatureHeader.ParseUndoesPrint | internal/httpsig/parse.go:9-68 | any list of well-formed keys with quoted, escaped or bare values and any separators is read back in full, last binding winning |
| SignatureHeader.UnescapedReadsBackIffPlain | internal/httpsig/sign.go:48-52 | a value printed between quotes without escaping comes back if and only if it has no quote and no backslash |
| KeyIds.KeyIdComesBackIffPlain | internal/httpsig/sign.go:48-52 | parsing the printed header, whatever its key id makes of the parameters behind it, binds the key id again if and only if it has no quote and no backslash |
| SigningString.BuildSigningString | internal/httpsig/signing_string.go:11-39 | joins one line per listed name and fails exactly when a name covers nothing |
| SignedText.NamesCover | internal/httpsig/signing_string.go:11-39 | a listed name stands for the request target, for its header's values joined, for the host if that header was moved, or for nothing |
| SigningString.SigningStringIsInjective | internal/httpsig/signing_string.go:11-39 | lists whose names have no colon or newline and whose values no newline never give the same string unless equal |
| SigningString.TargetDetermines | internal/httpsig/signing_string.go:16-27 | the request-target line determines method (up to case), path and query |
| Signing.VerifyDigest | internal/httpsig/digest.go:18-44 | the accumulated byte difference is zero exactly if the decoded digest is that of the body |
| Signing.VerifyRequest | internal/httpsig/verify.go:18-58 | accepts exactly if digest, signature and date check out |
| Signing.VerifyGet | internal/httpsig/verify.go:60-103 | accepts exactly if signature and date check out and the digest is not covered |
| Signing.HttpRequest.SignPost | internal/httpsig/sign.go:24-55 | sets Host, a default content type, Digest, Date and Signature on the request, or reports failure |
| Signing.HttpRequest.SignGet | internal/httpsig/sign.go:77-107 | sets Host, a default Accept, Date and Signature on the request, or reports failure |
| SignedText.PostIsSignedIff | internal/httpsig/sign.go:24-55 | signing a POST succeeds if and only if its URL has a host and the key signs the five lines spelled out; the request sent then has those headers and the signature, and its other headers as before |
| SignedText.GetIsSignedIff | internal/httpsig/sign.go:77-107 | the same for a GET and its four lines |
| SignedText.PostVerifiesIff | internal/httpsig/verify.go:18-58 | a POST verifies if and only if its Digest is that of the body, its Signature header names rsa-sha256 or hs2019 and a list every name of which covers something, the signature is one of those lines, and the Date is within five minutes |
| SignedText.GetVerifiesIff | internal/httpsig/verify.go:60-103 | the same for a GET, without a body and with no digest in the list |
| FaithfulSigning.SignatureValueReadsBack | internal/httpsig/sign.go:48-52 | the printed Signature header parses to exactly its four parameters for every plain key id |
| FaithfulSigning.SignedPostIsAccepted | internal/httpsig/verify.go:18-58 | a signed POST that arrives unchanged is accepted if and only if the receiver's clock is within five minutes of the printed second, and names its key |
| FaithfulSigning.SignedGetIsAccepted | internal/httpsig/verify.go:60-103 | the same for signed GETs |
| FaithfulSigning.SignedPostArrives | internal/httpsig/sign.go:24-55 | moving the Host header to the request's host, as Go's server does, leaves the request unchanged in that sense |
| Authenticity.AcceptedPostWasSigned | internal/httpsig/verify.go:18-58 | for keys that sign any header lists: an accepted POST was signed with the same list, and agrees with what was signed in every listed header, in the target if listed, and in the body if the digest is listed |
| Authenticity.BodyIsBoundIffDigestIsListed | internal/httpsig/verify.go:18-58 | the digest is listed if and only if every body with which the request is accepted, under the Digest header for it, is one that was signed |
| Authenticity.UnlistedDigestLeavesBodyFree | internal/httpsig/verify.go:39-46 | without the digest in the list the request is accepted with every other body |
| Authenticity.UnlistedTargetIsFree | internal/httpsig/verify.go:39-46 | without (request-target) in the list the request is accepted with every method, path and query |
| Authenticity.UnlistedDateLeavesTimeFree | internal/httpsig/verify.go:54-57 | without the date in the list the request is accepted at every later time, redated |
| Authenticity.ListedDateBindsTime | internal/httpsig/verify.go:105-118 | with the date in the list it is accepted only within five minutes of the second it was signed |
| Authenticity.ShortListLeavesBodyFree | internal/httpsig/parse_test.go:7-9 | every request signed with the list "(request-target) host date" is accepted with any body |
| Authenticity.AcceptedPostIsTheServers | internal/httpsig/sign.go:18-22 | under a key that signs only with this server's two lists, an accepted POST is one it signed: same target, headers and body |
| Authenticity.AcceptedGetWasSigned | internal/httpsig/verify.go:60-103 | an accepted GET was signed with the same list, which covers no digest, and agrees with what was signed as far as the list goes |
| Ingress.AuthenticateInbound | aphttp/handlers.go:236-285 | the sender is the activity's actor if the signature verifies under the named key and the key id is that actor's |
| Ingress.AcceptedIffKeyIsTheActors | aphttp/handlers.go:450-461 | a request is accepted from an actor if and only if it verifies under the key it names, its activity is by that actor, and key id and actor are the same URL but for fragments and trailing slashes |
| Ingress.SenderSigned | aphttp/handlers.go:450-461 | a request accepted from an actor was signed with a key whose id is the actor's URL but for fragment and trailing slashes, and is the signed request in every listed header, in the target if listed, and in the body if the digest is listed |
| Ingress.UnlistedDigestLeavesActivityFree | aphttp/handlers.go:236-285 | without the digest in the list the shared inbox accepts any other activity of that actor under the same signature |
| Ingress.SignedPostsComeThrough | aphttp/handlers.go:236-285 | a POST signed with the actor's key is accepted from that actor exactly within the clock skew |
| Fanout.Document.MergeStringIRIsIntoJSONField | aphttp/postoutbox.go:141-177 | the field becomes its own references followed by the new ones, or stays as it is when there is nothing to add |
| Fanout.Document.AppendFollowerCCForPublicPosts | aphttp/postoutbox.go:120-139 | followers are merged into cc exactly when the public collection is addressed |
| Fanout.AudienceEntries | aphttp/postoutbox.go:468-489 | the five audience fields flattened, trimmed, without blanks and repetitions, in order |
| Fanout.ResolveDeliveryInboxes | aphttp/postoutbox.go:528-556 | the deduplicated inboxes of the entries that resolve, or an error |
| Fanout.MergeIsAUnion | aphttp/postoutbox.go:141-177 | through JSON rewrite and flatten, merging is an order-preserving, idempotent union that touches no other field |
| Fanout.MergingWritesIffThereIsSomething | aphttp/postoutbox.go:141-177 | with nothing to merge the field stays as it was written, else it becomes an array |
| Fanout.AudienceIsExact | aphttp/postoutbox.go:468-511 | the audience lists exactly what the fields name at any depth, once each |
| Fanout.DeliveryIsExact | aphttp/postoutbox.go:528-556 | delivery fails if and only if an addressee that needs one has no inbox; otherwise its inboxes are, once each, exactly those of the addressees without the instance's own |
| Fanout.FollowersAreAddressed | aphttp/postoutbox.go:120-139 | a public activity is addressed to exactly its former addressees and the followers, any other to its former addressees |
| PublicPosts.PublicPostsReachFollowers | aphttp/postoutbox.go:98-139 | in every reachable state a public outbox activity has a deliver job for exactly the inboxes, other than the instance's own, of its addressees and of the actors whose follows of its author were accepted in the table when the list was read |
| PublicPosts.EveryFollowerGetsAJob | aphttp/postoutbox.go:204-251 | every such actor whose reference resolves has a deliver job for its inbox, unless that is the instance's own |
| InboxResolution.Resolver.InboxURLFromReference | internal/fetch/inboxurl.go:30-65 | the mutual recursion over the shared seen set equals the recursive specification, checks and fetches included |
| InboxResolution.Resolver.FetchActorInbox | internal/fetch/inboxurl.go:73-105 | fetches the document and goes on with its inbox reference, or fails |
| InboxResolution.ResolvesToTheEndOfTheChain | internal/fetch/inboxurl.go:30-105 | a result is returned if and only if an acyclic, allowed chain of at most five fetches leads to it, and it is that chain's first inbox-shaped URL |
| InboxResolution.ResolutionIsBounded | internal/fetch/inboxurl.go:30-105 | for any documents, at most five fetches of pairwise distinct URLs, each right after its policy check |
| InboxResolution.ResolutionFetchesTheChain | internal/fetch/inboxurl.go:30-105 | when it succeeds, exactly the URLs before the inbox are fetched, in order |
| Routing.DeliveryFollowsChains | aphttp/postoutbox.go:528-556 | with references resolved by that recursion, delivery fails exactly if some addressee has no followable chain, and otherwise its inboxes are exactly the ends of the addressees' chains |
| Collections.FollowersPage | store/collections.go:11-80 | the newest accepted followers inside the cursor window, with a next cursor exactly after a full page |
| Collections.FollowingPage | store/collections.go:82-150 | the same for followed actors |
| Collections.OutboxPage | store/federation.go:128-191 | the same for activities of the actor |
| Collections.WalkListsTheWindow | aphttp/collections_handlers.go:175-194 | from any cursor, following next lists the window once, newest first |
| Collections.FirstLinkListsEverything | aphttp/collections_handlers.go:142-194 | from the first link, following next lists every row of the first page's table exactly once in descending order, in floor(n/L)+1 pages, even if newer rows are added meanwhile |
| Collections.StorePageIsTheTop | store/collections.go:11-80 | a page of the store has the top rows of its window, 50 by default and 200 at most, the number of all rows, and a cursor exactly after a full page |
| Collections.ResponseIsThePage | aphttp/collections_handlers.go:142-194 | without a cursor the count and the first link; with one the top rows of its window, 50 by default and 200 at most, and a next link exactly after a full page |
| Collections.FollowersAreListed | store/collections.go:11-80 | the walk names an IRI if and only if an accepted follow of the actor by it was in the table |
| Collections.FollowedAreListed | store/collections.go:82-150 | the walk names an IRI if and only if the actor's accepted follow of it was in the table |
| Collections.ActivitiesAreListed | store/federation.go:128-191 | the walk names an IRI if and only if an activity of the actor with that id was in the table |
| OAuth.OauthScopesSubset | mastodonapi/oauth.go:314-330 | true exactly if every requested scope is among the allowed ones |
| OAuth.ScopesAreTheParts | mastodonapi/oauth.go:314-330 | the scopes of a text are its longest parts without white space and plus signs |
| OAuth.RedirectURIAllowed | store/oauth.go:81-96 | true exactly if the candidate is one of the registered URIs |
| OAuth.RedirectAllowedIffRegistered | store/oauth.go:81-96 | allowed if and only if, trimmed, it is one of the longest parts of the registered text without space, newline or tab |
| OAuth.Store.PostOAuthTokenAuthorizationCode | mastodonapi/oauth.go:357-408 | succeeds if every check passes and then swaps the code for its token; otherwise, or when the connection is lost, nothing changes |
| OAuth.Store.PostOAuthTokenClientCredentials | mastodonapi/oauth.go:410-456 | adds an application token within the registered scopes, or changes nothing |
| OAuth.RedeemableIff | mastodonapi/oauth.go:357-408 | the checks of a redemption spelled out: the application's secret, its code, the redirect URI, the expiry, and a verifier whose S256 hash, or which itself for the plain method, is the challenge |
| OAuth.GrantableIff | mastodonapi/oauth.go:410-456 | the checks of client credentials spelled out |
| OAuthProtocol.NextKeepsInv | store/oauth.go:98-188 | every statement of concurrent exchanges keeps codes, tokens, locks and history consistent |
| OAuthProtocol.CodesAreConserved | store/oauth.go:98-158 | over all interleavings and rollbacks, codes issued = codes stored + user tokens minted |
| OAuthProtocol.TokensWereEarned | mastodonapi/oauth.go:357-408 | a user token has the application, actor and scopes of one issued code, was earned with that application's secret, the code's redirect URI and the verifier behind its challenge before expiry, and no other token shares the code |
| OAuthProtocol.CodesLeaveOnlyForTokens | store/oauth.go:121-130 | a code disappears only in the step that stores its token |
| OAuthProtocol.UndisturbedExchange | mastodonapi/oauth.go:357-408 | with no other transaction on the same code or token hash, the statements redeem the code exactly when every check passes and otherwise change nothing |
| OAuthProtocol.UndisturbedGrant | mastodonapi/oauth.go:410-456 | with no other transaction on the same token hash, client credentials get a token exactly when every check passes and otherwise change nothing |
| OAuthProtocol.IssuedCodesLiveTenMinutes | store/oauth.go:98-111 | an issued code carries what it was issued for and expires after ten minutes |
| OAuthProtocol.OpenTransactionsStay | store/oauth.go:113-188 | no other request changes a transaction that is open |
| Ancestors.AncestorCreateChain | mastodonapi/v1_handlers.go:209-238 | the prepending loop equals the recursive ancestor list |
| Ancestors.ChainIsTheThread | mastodonapi/v1_handlers.go:209-238 | root-first, linked, distinct ids, at most 64; it reaches the root if and only if an acyclic thread of at most 64 ancestors does, and is then the full list |
| Ancestors.ShortChainEndsOrCycles | mastodonapi/v1_handlers.go:209-238 | a list shorter than 64 ends at the root or at an ancestor already listed |

## Left out

- HTTP serving, routing, HTML and JSON responses, WebFinger, NodeInfo, filters, lists and media: they add only easy members.
- The Redis queue and the branches of inbox and outbox that do not use the SQL queue: persisting and enqueueing are not atomic there.
- RSA, SHA-256, base64 and HTTP dates are functions whose laws are the hypotheses `Signing.Ideal`, `Authenticity.CollisionFree`, `Authenticity.Unforgeable` and `Authenticity.DatesStayWhole`; the modelled repository only calls Go's library for them.
- `NewSignedPost` and the dispatch on `grant_type`: they only build a request for, or pass one to, the modelled functions.
- PublicPosts.PublicPostsReachFollowers: the list of accepted followers is read before the transaction that stores the post; the property holds of the table as it was in any state it was read in, and a follower accepted in between is not covered.
- URL parsing is a function of the environment (`InboxResolution.Web`, `Ingress.Directory`, `Inbox.Instance`).
- Case folding, trimming and white space are ASCII only, and strings are byte strings.
- JSON is a tree that keeps what the code reads (strings, arrays, ids); activity documents are reduced to `Vocabulary.Activity`, with `type` normalised to a kind.
- Local followee resolution and local user names do not change during a run.
- The database and the workers read one clock; only the reading at which an enqueue or a failed delivery is stamped may lag.
- In `Federation` and `Delivery.WorkerLoop` a job gets the next id when its transaction commits, and ids of failed inserts are not skipped. In `WorkerProtocol` an enqueue may commit with any unused id.
- Leases lost in a crash are never recovered, as in the code: nothing reads `locked_at`. Finishing deliveries is therefore stated for crash-free runs.
- Jobs of type process_inbox have no retry bound in the code, so only deliveries are shown to finish. Progress.DeliveriesCanFinish gives a continuation; that the operating system schedules one is not modelled.
- Delivery.WorkerLoop: ends after a list of passes instead of at cancellation, and does not sleep between them.
- Federation.NextKeepsInv: queue movements are any change of status and timing of existing jobs; which ones happen is the subject of `WorkerProtocol`.
- TwoInstances.AcceptedFollowsWereHandled: here and in the theorems on agreement a hand-posted Accept is excluded, since the code lets a user post one for a follow that never arrived.
- TwoInstances.AcceptedFollowsAgreeIffIdIsHomes: no actor is local to both instances, and local actor URLs have no trailing slash.
- Create is not restricted to an object's owner in the code, so no ownership is claimed for it.
- Deleting expired codes, applications or actors, and revoking tokens: the code has no statement for the first and the last.
- OAuthProtocol.UndisturbedExchange: a waiting DELETE is a step that changes nothing until the lock is gone.
- Collections.FirstLinkListsEverything: a row with id 9223372036854775807 is never listed, because the first link's bound is exclusive; rows that leave the table or enter it late with a smaller id are not covered.
- The start of a thread is not in `seen`, so in a cycle it can be listed among its own ancestors; `Ancestors.ChainIsTheThread` claims distinctness of the listed ids only.
- The content of actor and object documents beyond the fields named above, key caching and the storage of remote keys.
