# A verified model of the ChatOps deployment service

The service takes deploy and rollback requests from a web console and from chat platforms, collects
approvals, lets workers execute each operation against Kubernetes, and announces the result through a
notification outbox. This project models that logic in Dafny and proves what holds over whole runs of it.

Every transaction the program sends to its database appears once as a pure function in `Database`, and the runs are
made of these. The classes in `Persistence`, `Workers` and `Api` are the methods as the program writes them, update by
update; their contracts say when they succeed and what changes, and tie each method to its transaction.

| file | contents |
|---|---|
| `Domain.dfy`, `Database.dfy` | statuses, permissions, tables and constraints; every transaction as one atomic step |
| `Evolution.dfy`, `History.dfy` | what one step may change; approvals, status history and the bound on status changes in every reachable state |
| `Interleaving.dfy` | statements with row locks, SKIP LOCKED and private writes; refinement of the atomic steps, no deadlock |
| `Execution.dfy`, `Fleet.dfy`, `Worker.dfy` | many workers, crashes and lost answers, over atomic and over interleaved transactions; at most one Kubernetes call an operation; the outbox bijection |
| `Queue.dfy`, `Lease.dfy` | progress of the queue; the outbox lease in real time |
| `Store.dfy`, `Api.dfy` | the store, service, registry and handler methods |
| `Handlers.dfy`, `Races.dfy` | which transaction a handler runs; overlapping handlers: authorization, idempotency, the active provider |
| `Kubernetes.dfy`, `Rollouts.dfy` | Deploy and Rollback against a versioned object other clients write to, with the shared maps on the heap; at most one accepted write an operation |
| `EventStream.dfy`, `Migrations.dfy` | the event cursor; the migration runner |
| `Vault.dfy`, `Clients.dfy`, `Identity.dfy` | sealing over an abstract cipher; the client cache; the identity table |
| `Text.dfy`, `Commands.dfy` | the string functions relied on; the chat command parsers against the printed instructions |

Modelling choices. Rows are never deleted, so an identifier is a position in its table. Time is one clock.
The outcome of every call outside (Send, Decode, Check, the Kubernetes API, the random source, failing
statements) is an argument, so the results hold for every outcome. `writes` records each status write, so that
claims about writes no committed state shows can be stated. `next_attempt_at` of a new row is Go's zero time, which the
program never sets, so a new row is due at once. An empty event identifier is an event like any other, so callbacks
without one share a single idempotency key; a web request's own key is arbitrary and may equal a callback's.

## Where the code does less than its description

Each of these is a lemma or a contract below, with the exact condition or a concrete run.

- The outbox lease does not make delivery exclusive by itself: batch size times time per row must be less than the lease.
  The worker asks for 20 rows and 30 seconds, which needs less than 1.5 seconds a row, and the providers' HTTP clients wait up to 10.
- The active provider can differ from the provider of an unfinished operation in two ways: a switch writes between a
  webhook's check and its commit, or the webhook commits between the switch's count and its write. Exactly such steps break it.
- An approve or reject line pasted whole, label included, is not a command. The instruction after the label is.
- The Feishu parser reads a text as the other two do exactly when the text does not decode as JSON; `null` does.
- An event that commits after a higher identifier was delivered is never sent, and neither is one that ages
  past 24 hours before its turn. Nothing else is lost.
- A worker that dies after its claim leaves the operation `running` for ever: execution is at most once, not at least once.
- Pointing the development admin's web identity at another subject lets a second admin be created; the account of
  creations, releases and seizures is exact.
- Deploy and Rollback can report an error after their write was accepted, exactly when the answer to it was lost or the
  rollout wait failed. Rollback waits for the replica count of its first read, which is the replaced object's when nobody
  else scales the object meanwhile.

## Model

| member | source | states |
|---|---|---|
| `Interleaving.InterleavingsAreSerializable` | internal/store/postgres/store.go:388-462 | Refinement: any interleaving of the statements of `Approve`, `ClaimOperation` and `TransitionOperationWithNotification` (row locks, SKIP LOCKED, private writes, commit, abort), with any number of sessions and single-statement transactions between them, commits exactly the state that its ended transactions give when run one at a time in the order they ended, and each caller got the reply it gets there |
| `Interleaving.InterleavingsAreSound` | internal/store/postgres/store.go:417-462 | So the approval table is exact and no `approved` status is committed under any interleaving |
| `Interleaving.EachOperationIsClaimedOnce` | internal/store/postgres/store.go:446-462 | Two claims that return an operation never return the same one, over any interleaving |
| `Interleaving.WaitingEndsAtARunner` | internal/store/postgres/store.go:417-462 | No deadlock: a waiting transaction is at its first statement and waits for a session whose next statement runs |
| `Interleaving.InsertNeverWaits` | internal/store/postgres/store.go:417-437 | The row lock already keeps two decisions on one operation apart; the unique index on approvals never makes one wait |
| `Interleaving.CommitIsExecute` | internal/store/postgres/store.go:403-462 | What a session has written privately by its last statement is what its whole transaction does in one step on the state at commit |
| `Interleaving.StopIsExecute` | internal/store/postgres/store.go:388-462 | A session that stops with an error stops with the same error, and no change, as one step |
| `Interleaving.PublishKeepsOthers` | internal/store/postgres/store.go:417-462 | A commit leaves valid everything every other open session has read and checked |
| `History.RunsAreSound` | internal/store/postgres/store.go:347-462 | Every state any run of transactions reaches satisfies the joint invariant of environments, requests, approvals and status writes |
| `History.ApprovalTableIsExact` | internal/store/postgres/store.go:417-445 | In every reachable state an operation has an approval row exactly when its environment requires approval and it is no longer pending; then it has exactly one, by another person than the requester, `rejected` exactly when the status is `rejected` |
| `History.EveryWriteIsLegal` | internal/domain/models.go:156-162 | Every status write of any run, the unguarded ones of `ClaimOperation` and `Approve` included, is an edge of `legalTransitions`; no committed row is `approved` or `expired` |
| `History.WalkNeedsEveryEdge` | internal/domain/models.go:156-162 | A history that walks from the initial status uses legal edges only |
| `History.ChangesPaidByPotential` | internal/store/postgres/store.go:388-462 | Committed status changes over any run are paid for by a potential that each one lowers |
| `History.AtMostThreeChangesEach` | internal/store/postgres/store.go:388-462 | A run with N operations has at most 3N committed status changes |
| `History.RequestSucceedsIff` | internal/application/service.go:52-68 | A request is accepted exactly when the environment exists, a deploy image has its prefix, the kind and requester are known and the key is new; the row is as asked, and a refusal changes nothing |
| `History.DecisionSucceedsIff` | internal/store/postgres/store.go:417-445 | In every sound state a decision is accepted exactly when it is one of the two, on a pending operation, by a known user other than the requester; a refusal changes nothing |
| `History.DecidedRowIsSound` | internal/store/postgres/store.go:417-445 | A decision adds the one approval row and one or two legal writes, and leaves the row queued or rejected |
| `Evolution.StepEvolves` | internal/store/postgres/store.go:347-525 | Whatever the transaction, existing operation rows change only in status, error columns and claimant, and only forwards |
| `Evolution.DecisionEffect` | internal/store/postgres/store.go:417-445 | A decision takes effect on a pending row, or leaves no trace |
| `Evolution.FinishEffect` | internal/store/postgres/store.go:403-416 | A finish takes effect on a running row together with its event and outbox row, or leaves no trace |
| `Execution.EachOperationExecutesAtMostOnce` | internal/worker/worker.go:42-62 | Over every run with any number of workers, lost answers and crashes, an operation reaches Kubernetes at most once, with its own kind, image, revision and environment |
| `Execution.StatusTellsOutcome` | internal/worker/worker.go:48-62 | Over every run a row is `succeeded` only if the call logged for it succeeded, without error columns, and `failed` only if none did, with `kubernetes_failed` |
| `Execution.CallsAreAlreadyAuthorized` | internal/application/service.go:39-74 | At the moment of a call the operation is running, its image starts with the registered prefix if it is a deploy, and where the environment requires approval (always for production) it already has exactly one approval, `approved`, by someone other than the requester |
| `Execution.OutboxMatchesFinishedOperations` | internal/store/postgres/store.go:403-416 | In every reachable state outbox rows and finished operations with a conversation outside the web correspond one to one, each row with its operation's own provider and conversation, whatever provider switches happened |
| `Execution.AbandonedStaysRunning` | internal/worker/worker.go:42-62 | An operation whose worker crashed stays `running` in every later state |
| `Workers.Worker.RunOne` | internal/worker/worker.go:42-73 | The oldest claimable unlocked row, if there is one, is called for exactly when its environment is read and known; it ends `succeeded` without error exactly after a good call and otherwise `failed` with `kubernetes_failed` and the message, with the matching notification for a chat; a refused report leaves it running. The turn is the take, perform and report of the system model |
| `Workers.Worker.DispatchNotifications` | internal/worker/worker.go:75-100 | One dispatch claims a batch and settles its rows in order, each at its own time |
| `Workers.Worker.SendAll` | internal/worker/worker.go:80-99 | The loop over the batch marks exactly the claimed rows, in order |
| `Fleet.FleetIsSimulated` | internal/worker/worker.go:29-62 | Workers whose claims and reports are interleaved sessions, with lost answers, aborted sessions and crashes, only reach states of the atomic system model |
| `Fleet.FleetExecutesAtMostOnce` | internal/worker/worker.go:42-62 | So at most one Kubernetes call an operation, as requested, and an exact outbox, under every interleaving of statements, the writes of provider switches included |
| `Fleet.FleetStatusTellsOutcome` | internal/worker/worker.go:48-62 | And a final status tells how the call ended: succeeded only after a good one, failed only without one |
| `Fleet.FleetCallsAreAuthorized` | internal/application/service.go:39-74 | And each call is authorized by what is committed when it is made |
| `Workers.DispatchSettlesEachRowOnce` | internal/worker/worker.go:75-100 | Each claimed row is settled once, by its own outcome; no other row changes |
| `Workers.DispatchIsLeaseRun` | internal/worker/worker.go:75-100 | A dispatch that keeps to the budget on each row is a run of the timed lease model, with the same table and clock after each row |
| `Workers.PromptDispatchIsExclusive` | internal/worker/worker.go:75-100 | So the worker's own dispatch, of 20 rows for 30 seconds, keeps every message to one holder and one send when each row takes less than 1500 ms |
| `Queue.ClaimedWithinQueueLength` | internal/store/postgres/store.go:446-462 | With increasing creation times a queued operation is claimed once more than m serial claims have run, m counting the older queued or pending operations, whatever else commits |
| `Queue.StepNeverDelays` | internal/store/postgres/store.go:347-462 | No transaction, approvals and new requests included, raises m |
| `Queue.InterleavedClaimWithinQueueLength` | internal/store/postgres/store.go:446-462 | The same bound for interleaved statements: a queued operation is claimed once more than m claims have run whose sessions overlap no other, whatever other sessions do in between |
| `Queue.QuietClaimIsSerial` | internal/store/postgres/store.go:446-462 | A claim whose session overlaps no other passes over no row |
| `Interleaving.ClaimsPassOverLockedRows` | internal/store/postgres/store.go:446-456 | Whenever it commits, a claim has passed over an older claimable row only if that row was locked when it selected, or was not there or not claimable then |
| `Queue.SerialClaimAdvances` | internal/store/postgres/store.go:446-462 | A serial claim takes the operation itself or lowers m |
| `Lease.ExclusiveIffBatchFits` | internal/store/postgres/store.go:485-507 | All runs keep every unsent row to one holder and send every row marked sent exactly once, if and only if batch size times time per row is less than the lease |
| `Lease.LeaseIsExclusive` | internal/store/postgres/store.go:485-516 | The safe direction, over any number of workers and any run within the budget |
| `Lease.LeaseCanBeShared` | internal/store/postgres/store.go:485-507 | Otherwise there is a run, built for every such timing, in which two workers hold one row |
| `Lease.WorkerTiming` | internal/worker/worker.go:75-80 | With the 20 rows and 30 seconds the worker asks for, exclusivity holds exactly below 1500 ms a row, and not at the 10 seconds its HTTP clients allow |
| `Lease.HeldRowsAreNotDue` | internal/store/postgres/store.go:485-507 | A held row is not due, so no claim can select it |
| `Lease.OldestDueMeans` | internal/store/postgres/store.go:485-500 | The claim selects a due row created no later than any other due row that is not locked |
| `Lease.SelectDueIsOldestFirst` | internal/store/postgres/store.go:485-500 | A batch is in creation order, and leaves out a due, unlocked row only when it is full of rows created no later |
| `Database.SelectDueMeans` | internal/store/postgres/store.go:485-500 | A claim returns due, unlocked rows, each once, at most the limit |
| `Database.OldestClaimable` | internal/store/postgres/store.go:446-456 | The claimed operation is queued, due, unlocked and the oldest such; none is returned only when there is none |
| `Persistence.Store.CreateOperation` | internal/store/postgres/store.go:347-361 | Accepted exactly for a known kind, a known requester and a new key; the row is the given one on the default provider, keys stay unique, and a refusal changes nothing |
| `Persistence.Store.TransitionOperation` | internal/store/postgres/store.go:388-401 | Succeeds exactly on one of the seven legal edges from the status the row has; then only that row and the event log change, and repeating it would conflict; a miss changes nothing |
| `Persistence.Store.EnqueueNotification` | internal/store/postgres/store.go:468-474 | The new outbox row is due at once, unattempted, on the given provider, and addressed to the conversation |
| `Persistence.Store.TransitionOperationWithNotification` | internal/store/postgres/store.go:403-416 | Status change and outbox row commit together, exactly on a legal edge whose insert is not refused, and nothing changes otherwise |
| `Persistence.Store.Approve` | internal/store/postgres/store.go:417-445 | Succeeds exactly for a valid decision of a known other person on a pending row without approval; then that row is queued or rejected, one approval is added, every status write is a legal edge, and no other row changes |
| `Persistence.Store.ClaimOperation` | internal/store/postgres/store.go:446-462 | Takes a queued, due, unlocked row that no other such row is older than, marks it running for the owner and changes no other; it returns nothing only when there is none |
| `Persistence.Store.ClaimOutbox` | internal/store/postgres/store.go:485-507 | Selects due unlocked rows, up to the limit (50 outside 1 to 100), returns them as they were, leaves out only rows not older than a full batch, and postpones exactly the selected ones by the lease, 30 seconds by default |
| `Persistence.Store.MarkOutboxSent` | internal/store/postgres/store.go:509-512 | A marked row is never due again, the first mark stands, and no other row changes |
| `Persistence.Store.MarkOutboxFailed` | internal/store/postgres/store.go:514-516 | An unsent row is due again exactly from five seconds on, with one attempt more; a sent row and every other row stay as they are |
| `Persistence.Store.GetActiveMessageProvider` | internal/store/postgres/store.go:260-273 | The stored provider, the web without one, an error for an unknown one |
| `Persistence.Store.HasUnfinishedMessageOperations` | internal/store/postgres/store.go:275-284 | Whether a pending, approved, queued or running operation with a conversation is on the provider |
| `Persistence.Store.SetActiveMessageProvider` | internal/store/postgres/store.go:286-308 | Run as one step it succeeds exactly between known providers without a pending, approved, queued or running chat operation on the current one; finished, rejected and expired ones never block; then the provider is active and only the setting has changed |
| `Persistence.Store.InitializeActiveMessageProvider` | internal/store/postgres/store.go:310-315 | The first provider set stays; only the setting can change |
| `Persistence.Service.CreateEnvironment` | internal/application/service.go:39-47 | Accepted exactly for a legal name that the application does not have yet; the row requires approval if it is production, has 600 seconds for timeout zero, and is otherwise as given; the joint invariant is kept |
| `Persistence.Service.RequestOperationWithOrigin` | internal/application/service.go:52-68 | Accepted exactly when environment, prefix, kind, requester and key allow it; the row is as asked, a refusal changes nothing, and the joint invariant is kept |
| `Persistence.Service.Decide` | internal/application/service.go:69-74 | In a sound state it succeeds exactly for one of the two decisions, on a pending row, by a known user other than the requester; the effect is that one row and one approval, and the joint invariant is kept |
| `Races.AlwaysOnActiveIff` | internal/store/postgres/store.go:286-308 | With request handlers split into read, choose and commit, and provider switches into read, count and write, over any interleaving: every unfinished operation is on the active provider throughout exactly when no step commits a conversation's operation on a provider that is not active, or writes another provider while the active one has unfinished operations |
| `Races.StepBreaksIff` | internal/store/postgres/store.go:286-308 | The same for one step, in every reachable state |
| `Races.LateCallbackBreaks` | internal/transport/http/handler/api.go:26-37 | The first race: the switch writes between a callback's check and its commit; a concrete run |
| `Races.LateSwitchBreaks` | internal/store/postgres/store.go:299-306 | The second race: the callback commits, on the active provider, between a switch's count and its write; a concrete run |
| `Races.RacesCreateOnePerEvent` | internal/transport/http/handler/api.go:112-178 | However deliveries overlap, no two operations stem from one event of one provider |
| `Races.SecondDeliveryChangesNothing` | internal/transport/http/handler/api.go:92-178 | Once a delivery has committed, committing another delivery of the same event, decided on whatever state, changes nothing |
| `Races.EveryRowIsAuthorized` | internal/transport/http/handler/api.go:92-178 | However handlers overlap, every operation was created by the commit of a transaction that a call chose, on behalf of its requester and with the permission for its application, and carries that transaction's kind, environment, image, revision, key and origin; every approval was given by the commit of a decision that a call with the permission to approve chose on behalf of its approver |
| `Races.RacesKeepInv` | internal/transport/http/handler/api.go:26-178 | The joint invariant, the origins of all operations and the account of every row hold in every interleaved state |
| `Handlers.OneOperationPerEvent` | migrations/000001_core.up.sql:12-12 | For every run of transactions in which requests from a provider carry their event's key, no two operations share provider and event |
| `Handlers.HandlersChooseKeyed` | internal/transport/http/handler/api.go:112-178 | Every transaction a handler chooses, on however old a state, carries its event's key |
| `Handlers.RedeliveryChangesNothing` | internal/transport/http/handler/api.go:92-178 | Once a delivery has committed, a second delivery of the event changes nothing, where each was chosen on one database and committed on another |
| `Handlers.EventKeyIsInjective` | internal/transport/http/handler/api.go:114-114 | Different (provider, event) pairs have different idempotency keys |
| `Handlers.ServingKeepsProvider` | internal/transport/http/handler/api.go:26-37 | With handlers as serial steps every unfinished operation with a conversation is on the active provider |
| `Handlers.DecidedOperationStaysDecided` | internal/store/postgres/store.go:417-445 | After a decision no later one on the same operation has an effect |
| `Api.Registry.Active` | internal/messaging/registry.go:32-42 | The active provider, only if valid and registered |
| `Api.Registry.Check` | internal/messaging/registry.go:64-81 | Checking records for a known provider whether it is configured and healthy, and why not, and nothing for an unknown one |
| `Api.Registry.Select` | internal/messaging/registry.go:49-62 | Selection is the switch transaction; it succeeds exactly for a registered, configured provider whose check passes while no chat operation on the current one is unfinished, and the setting changes only then |
| `Api.API.RequestOperation` | internal/transport/http/handler/api.go:363-405 | Accepted exactly when some permission is an admin's or is for the very action and the very application, with a known acting user, the prefix and a new key; the row is as asked, from the web, by the session's user or else the named one; without such a permission it is forbidden, always so for a caller with neither admin nor that action; a refusal changes nothing |
| `Api.API.Approve` | internal/transport/http/handler/api.go:406-441 | In a sound state it succeeds exactly for a known user other than the requester with an admin or a matching approve permission, on a pending row; the row becomes rejected or queued as decided, one approval with that decision and comment is added, and nothing else changes; a caller with neither admin nor approve permission is always forbidden |
| `Api.API.Webhook` | internal/transport/http/handler/api.go:26-110 | A callback changes something only if it comes decoded, without challenge, from the active provider and a known sender; a card then makes the very decision of its payload, a command the one thing it names; in a sound state exactly the callbacks whose sender may make that decision or request take effect |
| `Api.API.HandleIncomingCommand` | internal/transport/http/handler/api.go:112-178 | A chat command creates the one operation it names, under the event's key, or makes the one decision it names; in a sound state exactly when it is well-formed, permitted and, for a request, the first of its event |
| `Kubernetes.Deploy` | internal/adapter/kubernetes/manager.go:77-110 | No lost update, whoever else writes: the accepted writes are exactly those of the retry specification, at most one, replacing the server's object at that moment; every other container and field is as before, and the containers with the name have the requested image. Success is such a write, and awaited the count that object asked for, 1 if none; the error is exactly that of the retries or of the rollout wait, and any error but a failed request or a failed rollout leaves no write |
| `Kubernetes.Rollback` | internal/adapter/kubernetes/manager.go:112-156 | The accepted writes are exactly those of the retry specification, at most one, the server's object at that moment with the template of the first listed ReplicaSet whose revision annotation is the revision in decimal, minus `pod-template-hash` and `deployment.kubernetes.io/revision`; the revision is not found exactly when no listed one has it; success awaited the count of the first read, 1 if none |
| `Kubernetes.ErrorLeavesWriteIff` | internal/adapter/kubernetes/manager.go:77-179 | An error of Deploy or Rollback leaves an accepted write behind exactly when the answer to that write was lost, or the retries succeeded and the rollout wait failed |
| `Kubernetes.SlowRolloutLeavesWrite` | internal/adapter/kubernetes/manager.go:158-179 | A run of Deploy that reports a failed rollout and has deployed |
| `Kubernetes.UnscaledRollbackAwaitsItsCount` | internal/adapter/kubernetes/manager.go:137-151 | When nobody else scales the object during a Rollback, the count it awaits is the replaced object's |
| `Rollouts.AtMostOneWriteEach` | internal/worker/worker.go:42-62 | End to end: over any interleaving of workers and handlers and whatever the clusters do, an operation causes at most one accepted Kubernetes write, and that is what its own call asks for: only its image in its own container, or the template of its revision minus the two keys |
| `Rollouts.SucceededWroteOnce` | internal/worker/worker.go:48-62 | When every call ends as its cluster lets it, an operation that ends `succeeded` has caused exactly one accepted write |
| `Rollouts.Perform` | internal/worker/worker.go:48-55 | A deploy call writes only its image into its own container, any other call only the template of its revision; it reports success exactly when the client is built, the revision is listed, one attempt is undisturbed after contended ones only and the rollout becomes ready, and then after one write |
| `Kubernetes.RetryDeploy` | internal/adapter/kubernetes/manager.go:87-108 | The retried loop: at most one write, of nothing but the image, and its outcome, awaited count and pauses |
| `Kubernetes.RetriesWriteIff` | internal/adapter/kubernetes/manager.go:187-204 | A write replacing a given object is accepted exactly when one of the first five attempts reads that object undisturbed, is not refused, and only contended attempts precede it |
| `Kubernetes.ErrorHidesWriteIff` | internal/adapter/kubernetes/manager.go:187-204 | An error hides an accepted write exactly when the answer to that update is lost; the error is then a failed request, and success always is a write |
| `Kubernetes.AwaitsReplacedCountIff` | internal/adapter/kubernetes/manager.go:137-151 | The count Rollback awaits is the replaced object's exactly when the last write by others before its own, if any, kept the count |
| `Kubernetes.LostAnswerHidesWrite` | internal/adapter/kubernetes/manager.go:103-107 | A run of Deploy that reports an error and has deployed |
| `Kubernetes.ScaledDuringRollback` | internal/adapter/kubernetes/manager.go:121-156 | A run of Rollback that awaits one replica of an object scaled to three |
| `Kubernetes.RetryRollback` | internal/adapter/kubernetes/manager.go:141-151 | In-place deletes on maps shared between attempts do not change what is written |
| `Kubernetes.TryRollback` | internal/adapter/kubernetes/manager.go:142-151 | One attempt with shared maps writes the cleaned template, and leaves the target as it was or cleaned |
| `Kubernetes.TryDeploy` | internal/adapter/kubernetes/manager.go:87-105 | One attempt writes the fetched object with the requested image in the containers with the name and everything else as it was, or nothing |
| `Kubernetes.SetImage` | internal/adapter/kubernetes/manager.go:93-99 | The in-place loop gives every container with the name the requested image and leaves its other fields and all other containers alone, and reports whether there was one |
| `Kubernetes.FindRevision` | internal/adapter/kubernetes/manager.go:130-139 | It finds a ReplicaSet exactly when one is listed whose annotation is the revision in decimal, and then the first such one |
| `Kubernetes.RetriesSucceedIff` | internal/adapter/kubernetes/manager.go:187-204 | The retries succeed exactly when one of the first five attempts is undisturbed and all before it met only a conflict |
| `Kubernetes.RetriesFailIff` | internal/adapter/kubernetes/manager.go:87-108 | Which error the retries end with: a conflict exactly after five contended attempts, a missing container or a cancelled pause exactly when the first uncontended attempt meets it, and a failed request otherwise |
| `Kubernetes.ConflictsMeans` | internal/adapter/kubernetes/manager.go:187-204 | The counted conflicts are the first attempts; the next one, if any is left, decides the outcome and the write, and five conflicts are the only way to fail with a conflict |
| `Kubernetes.BackoffIsQuadratic` | internal/adapter/kubernetes/manager.go:187-204 | k conflicts cost 100 k (k + 1) ms, at most 3000 ms |
| `Kubernetes.CleanedTwice` | internal/adapter/kubernetes/manager.go:147-148 | Removing the two controller keys again changes nothing |
| `Kubernetes.ApiServer.Update` | internal/adapter/kubernetes/manager.go:103-103 | The server accepts an update only on the version it was read at |
| `EventStream.NothingSkippedIff` | internal/transport/http/handler/api.go:880-903 | Over any run of allocations, commits, polls, broken connections and reconnects, a client has every committed event up to its position if and only if no step lost one: a commit behind the client's position, or an event that aged out before a later one was delivered |
| `EventStream.OrderlyRunsDeliverExactly` | internal/transport/http/handler/api.go:880-903 | When identifiers commit in order and nothing ages out between polls, the client has received exactly the log entries after its start, in order |
| `EventStream.DeliveredInOrderOnce` | internal/transport/http/handler/api.go:880-903 | In every run whatsoever, delivered identifiers strictly ascend: none is repeated |
| `EventStream.ShortBatchCatchesUp` | internal/store/postgres/store.go:518-525 | A batch that is not full leaves no recent event behind |
| `EventStream.EveryBatchAdvances` | internal/store/postgres/store.go:518-525 | While a recent event waits, each batch delivers it or one hundred others |
| `EventStream.LateCommitIsSkipped` | internal/transport/http/handler/api.go:888-896 | A late commit is skipped: a concrete run |
| `EventStream.RecentEventsMeans` | internal/store/postgres/store.go:518-525 | The query returns committed rows of the last 86400 seconds behind the cursor, ascending, up to the limit (100 outside 1 to 500), leaving out none before its end |
| `EventStream.Connection.Events` | internal/transport/http/handler/api.go:880-903 | The polling loop sends the batches of each poll behind its cursor, until a query fails or the client leaves |
| `EventStream.SentAppends` | internal/transport/http/handler/api.go:880-903 | Each further poll of a live connection sends what is recent behind the last event sent, at most 100; after a failed query or a departure nothing more is sent |
| `EventStream.Connection.Deliver` | internal/transport/http/handler/api.go:892-895 | The loop over a batch sends it whole and moves the cursor to its end |
| `Migrations.EveryBodyOnce` | internal/store/postgres/migrate.go:14-60 | Over any calls with failures anywhere, exactly the files of the calls that succeeded took effect, whole and once each, and exactly those are recorded |
| `Migrations.CallMeans` | internal/store/postgres/migrate.go:37-58 | A call appends bodies in strictly ascending name order or nothing at all, and after success every `.up.sql` file is recorded |
| `Migrations.SecondCallChangesNothing` | internal/store/postgres/migrate.go:38-45 | After a success, calling again with the same files changes nothing, even if it fails |
| `Migrations.Runner.Migrate` | internal/store/postgres/migrate.go:14-21 | The outer transaction: it succeeds exactly when no statement it reaches fails, and otherwise restores the schema |
| `Migrations.Runner.ApplyAll` | internal/store/postgres/migrate.go:38-58 | The loop applies the pending files, and stops exactly at the first failure |
| `Migrations.Runner.Apply` | internal/store/postgres/migrate.go:50-56 | The savepoint: body and version row together, or neither |
| `Migrations.PendingMeans` | internal/store/postgres/migrate.go:37-45 | From a sorted list the pending files are the unrecorded ones, each preceding the later ones |
| `Migrations.SortSorts` | internal/store/postgres/migrate.go:37-37 | Sorting gives a permutation in which each name equals or precedes every later one: it is a proper prefix, or smaller at the first character that differs |
| `Migrations.AtMostMeans` | internal/store/postgres/migrate.go:37-37 | The order is that of the common prefix and the first differing character, and never holds both ways |
| `Migrations.NamesMeans` | internal/store/postgres/migrate.go:30-37 | The list holds exactly the entries that end in `.up.sql` |
| `Clients.ClientIsAlwaysTheClustersOwn` | internal/adapter/kubernetes/manager.go:29-50 | After any sequence of cluster creations and client calls, asking for a cluster's client gives the one built from the kubeconfig that cluster was created with, cached or not, and a failed call leaves no trace |
| `Clients.KeyIsInjective` | internal/adapter/kubernetes/manager.go:32-32 | Different (cluster, version) pairs have different cache keys |
| `Clients.CachedIsFresh` | internal/adapter/kubernetes/manager.go:32-35 | A cached client is the one that would be built now |
| `Clients.Manager.Client` | internal/adapter/kubernetes/manager.go:29-50 | The call returns the freshly built client or the error of building it, and caches successes only |
| `Clients.Manager.CreateCluster` | internal/application/service.go:27-35 | Created exactly when the nonce is drawn and neither identifier nor trimmed name is taken; the row has the trimmed name and server, version 1, and the kubeconfig sealed under the identifier and `:1`, which opens again; the cache stays valid |
| `Clients.Store.Insert` | internal/store/postgres/store.go:46-52 | Insert with its primary key and unique name |
| `Vault.OpenMeans` | internal/security/secretbox.go:36-58 | A payload opens to a plaintext exactly when some nonce seals that plaintext to it under the same associated data |
| `Vault.SealOpens` | internal/security/secretbox.go:36-58 | What was sealed opens to the same plaintext under the same associated data |
| `Vault.OpenFailsAlike` | internal/security/secretbox.go:48-58 | Opening fails, always with the same error, exactly when nothing seals to the payload |
| `Identity.AlwaysInverse` | migrations/000002_message_platforms.up.sql:15-16 | In every run, subject of a (user, provider) and user of a (provider, subject) are inverse partial maps |
| `Identity.InsertOrUpdateEffect` | internal/store/postgres/store.go:210-214 | After a successful upsert the user's subject at that provider is the new one, and every other pair is what it was |
| `Identity.UpsertSucceedsIff` | internal/store/postgres/store.go:203-215 | An upsert succeeds exactly for a known provider, an existing user and a subject that is not blank and not another user's; otherwise it changes nothing |
| `Identity.UpsertedSubjectResolves` | internal/store/postgres/store.go:186-215 | Looking up any padded form of the new subject finds the user if enabled |
| `Identity.UpsertTouchesNothingElse` | internal/store/postgres/store.go:186-215 | The old subject no longer resolves and every other lookup is unchanged |
| `Identity.EnsureCreatesIff` | internal/store/postgres/store.go:227-258 | A development admin is created exactly when nobody holds the subject and the admin role exists; success means the subject resolves to the returned user, who has the role |
| `Identity.Directory.FindUserByIdentity` | internal/store/postgres/store.go:186-201 | The lookup by trimmed subject among enabled users |
| `Identity.Directory.EnsureDevelopmentAdmin` | internal/store/postgres/store.go:227-258 | The transaction finds the user of `local-development-admin` or creates it with its row, and grants the admin role, all or nothing |
| `Identity.AdminHeldIff` | internal/store/postgres/store.go:203-258 | After a move somebody holds the admin's subject exactly when the holder was not moved to another subject by a successful upsert, or the subject was taken by one, or the admin was created |
| `Identity.AdminsCreated` | internal/store/postgres/store.go:227-258 | The exact account over any run: creations plus seizures of the free subject plus an admin at the start equal releases plus an admin at the end |
| `Identity.AtMostOneAdminIff` | internal/store/postgres/store.go:227-258 | Over any run, calls of `EnsureDevelopmentAdmin` add at most one user if and only if releases plus a final holder exceed seizures by at most one; without a release always |
| `Identity.ReleaseAllowsSecondAdmin` | internal/store/postgres/store.go:227-258 | A run with one release and two admins |
| `Identity.Directory.UpsertExternalIdentity` | internal/store/postgres/store.go:203-215 | Succeeds exactly for a known provider, an existing user and a subject that is not blank and not another user's; then that user's subject is the new one and every other pair is what it was; a failure changes nothing |
| `Commands.ParsersAgreeIff` | internal/adapter/feishu/webhook.go:97-109 | For every JSON decoder that shows fewer characters than it reads, the Feishu parser reads a text as the other two do exactly when it does not decode |
| `Commands.ParsersDifferOnNull` | internal/adapter/feishu/webhook.go:97-109 | `null` is a text they differ on, for every such decoder |
| `Commands.ExplicitCommandWins` | internal/adapter/wecom/provider.go:98-101 | An explicit command wins over the text and keeps its arguments; it is lower-cased and loses one leading slash |
| `Commands.SmallDecoderIsLawful` | internal/adapter/feishu/webhook.go:98-103 | There is such a decoder |
| `Commands.PastedLinesAreNotCommands` | internal/adapter/wecom/provider.go:149-152 | Neither printed line, pasted whole with its label, parses back |
| `Commands.InstructionRoundTrip` | internal/adapter/wecom/provider.go:98-107 | An approve instruction for any whitespace-free operation id, with any padding and any repeated whitespace, parses back to the same command, id and decision in all three parsers, bare or inside JSON |
| `Commands.OnlyWhitespaceMayPrecede` | internal/adapter/dingtalk/provider.go:99-108 | Text ending in the instruction parses back if and only if only whitespace precedes it, so a printed line with its label does not |
| `Commands.PrintedInstructionRoundTrip` | internal/adapter/wecom/provider.go:149-152 | The instruction as printed parses back |
| `Commands.ApprovalTextLines` | internal/adapter/dingtalk/provider.go:152-155 | The notification is its own text and two lines, each a label and an instruction |
| `Commands.InstructionDecides` | internal/transport/http/handler/api.go:163-178 | Sending the printed instruction back makes that decision on that operation, subject to the approver's permission |
| `Text.FieldsOfLayout` | internal/adapter/wecom/provider.go:102-106 | Splitting words laid out with any gaps gives the words back |
| `Text.TextIsLayout` | internal/adapter/wecom/provider.go:102-106 | Every text is such a layout of its fields |
| `Text.InkIsFields` | internal/adapter/feishu/webhook.go:104-108 | Splitting loses only whitespace |
| `Text.ShowMeans` | internal/adapter/kubernetes/manager.go:130-139 | A printed integer is its decimal numeral, without leading zeros |
| `Text.TrimSpaceOfPadded` | internal/store/postgres/store.go:207-210 | Trimming a padded text gives the trimmed text |

## Left out

- The web console, HTTP and JSON decoding, cookies, sessions, tokens, Argon2id, CSRF, health and metrics.
- Signature checks and payload decoding of the chat adapters, and their access-token caches: a callback starts from its decoded payload.
- Catalog listings, role, permission and user creation: plain reads and inserts. Environments' foreign keys to applications and clusters.
- The unrouted Feishu callback path, and the handler's answer when no provider registry is configured.
- The rollout wait loop's polling and readiness test: only how the wait ends is modelled; its time bound depends on Go's choice between ready timers.
- Per-environment leases, fencing tokens, approval expiry, operation retries and maximum attempts: nothing in the code enforces them.
- Rebuilding a status from the event log: approvals and claims append no event.
- The columns claimed_at and updated_at.
- Cryptographic strength: the cipher is any function pair that opens exactly what it sealed.
- Interleaving.InterleavingsAreSerializable: of a provider switch only the write appears, as a statement that may come at any time; its reads, which lock nothing, are in Races.
- Lease.LeaseIsExclusive: the claim transaction is one instant and all workers read one clock; a worker that crashes or loses a mark is not modelled, and could send a message twice.
- Handlers.ServingKeepsProvider: handlers are serial steps; overlapping ones keep it exactly as Races.AlwaysOnActiveIff says.
- Clients.ClientIsAlwaysTheClustersOwn: a client is the value built from a configuration, not a pointer; the mutex makes calls serial.
- Identity.AtMostOneAdminIff: calls are serial, as the advisory lock makes the calls of `EnsureDevelopmentAdmin`.
- Migrations.EveryBodyOnce: calls are serial under the advisory lock, and a body's effect is a token, whole or partial.
- Commands.ParsersAgreeIff: JSON decoding is any function that obeys the stated law, not the decoder of Go's library.
- Commands.InstructionRoundTrip: lower-casing covers ASCII letters; other letters are left as they are.
- EventStream.DeliveredInOrderOnce: a client reconnects from the last event it received; the frames themselves carry no event id field.
- Kubernetes.Rollback: the listing is whatever the server returns for the label selector; ownership of the ReplicaSets is not checked by the code either.
