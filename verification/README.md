# Workflow orchestrator: a verified model

The orchestrator executes tenant workflows. A definition is a graph of nodes (retrieval, model call, condition, HTTP
tool, approval, audit log). The executor walks it with a worklist, can park a run at an approval node and take it up
again, and can run it in the background: workers take jobs from a queue, claim the run, execute it, and retry it with
backoff or give it up. Runs, steps, pending approvals and audit events are kept in repositories; executions are
rate-limited per tenant and replayed by idempotency key; uploaded text is cut into chunks for retrieval.

## How the model is organised

| files | content |
|---|---|
| `Text`, `Values` | ASCII versions of the string functions used, option and result types, dynamic values |
| `Workflow`, `Graph`, `Forest`, `Conditions` | the validator, the graph built from a definition, the shape validation guarantees, condition nodes |
| `Engine`, `StepBodies`, `Once`, `Resume`, `BreadthFirst`, `Outputs`, `Resumed`, `Repeats` | the worklist loop as a total function of the node bodies, and what it does over a whole run |
| `Runs`, `Backoff`, `Protocol`, `Tokens`, `Safety`, `Guarantees`, `Crowd`, `Race` | the run protocol as interleaved steps of any number of workers and clients, its invariant, and what follows in every reachable state |
| `Solo`, `Interleaving`, `Stories` | one run by itself; every run of every history is what its own part of that history makes of it, and every such story is part of some history |
| `AuditTrail`, `RunErrors`, `StaleError`, `Tidiness`, `Progress`, `Ledger`, `Courses` | what that carries over to interleaved runs: the log tells the stored steps, when an error is stored, no node has two steps, no run goes on for ever, the results of its nodes are those of functions, and the stored record is that of the uninterrupted run |
| `Singles` | definitions of one node, for the concrete histories of `Race`, `Crowd` and `StaleError` |
| `Observed`, `Stores`, `Executor`, `Sequential`, `Objects`, `EndToEnd` | what a call leaves to be read, in plain values; the repositories, the queue and the services as classes, method by method, proved to take exactly the protocol's steps and to store what the loop computes |
| `Promotion`, `Resp` | the Redis queue: promotion of delayed jobs by several workers, and the wire codec |
| `Quota`, `Idempotency`, `Controls` | the fixed-window quota, idempotent requests, and the classes that implement them |
| `Chunking`, `WorkPool`, `Latency` | greedy chunking, the claim-counter worker pool, nearest-rank percentiles |

Node bodies are an uninterpreted function `Body` from node, input and earlier outputs to a value or an error (in the
protocol, where other agents interleave, every result is possible at every step). Identifiers, clock readings and the
outcome of HTTP-tool configuration checks are parameters.

Concurrency is modelled as small steps: one repository write, one audit append, one queue operation, one loop
iteration or one Redis command at a time, interleaved arbitrarily. `Executor.Service` has the same code as methods
that modify objects; their contracts (`Along`, `Done`) say that from the record the method found it reaches the record
it leaves by those same small steps, that what it returns is what it stored, and that no other run changes. They say the
same again in the vocabulary of `Observed` and `StepBodies`, which none of the modelled code uses: what is stored,
logged, scheduled and left pending, written out value by value.
`Sequential` shows that such a call, last step included, is one of the interleavings the safety theorems quantify
over, and `Objects` that between calls the service's objects always represent a reachable state.

Where the code does not have a property for all inputs, the exact condition is proved, with a concrete failure:

- Pausing is transparent for an approval node exactly when the node is not its own successor
  (`Resume.ThawedStateExact`, `Resume.SelfApprovalRunsTwice`), and on a graph without dead ends no resumed run repeats
  a node exactly when the roots lead to no approval that is its own successor (`Repeats.RunsOnceIff`); the validator
  rules self-edges out.
- An approval may be resolved as soon as the pending record is stored, before `run_waiting_approval` is recorded; the
  log of that run then leaves the protocol's language (`Race.EarlyResumeBreaksLog`). `Guarantees.ResolutionLegalIff`
  says exactly when a resolution is in order. All other protocol theorems assume serial resumes.
- When every node error has a message, a run is stored with an error exactly when one of its attempts has failed and
  no approval was resolved since (`RunErrors.ErrorStoredIff`); so a retry that succeeds leaves the run completed with
  the old error, and for every message there is a history that does (`StaleError.SucceededRetryKeepsError`).
- A delayed payload that is scheduled again while still delayed merges with the first
  (`Promotion.SchedulingConservesIff`).
- A bulk string reads back exactly when its length plus two still fits the length type (`Resp.BulkRoundTripIff`).
- Backoff is the intended doubling exactly up to attempt 38 (`Backoff.DelayExact`); runs never get past attempt 3.
- The quota's sliding bound, `(k + 1) * limit - 1` over k windows, is reached; a clock that never goes back keeps to it
  over all histories exactly when it never reads Go's zero time (`Quota.SlidingBoundIff`, `Quota.BurstBoundIff`).
- A tenant's key is replayed over all histories exactly when no other tenant has a key with the same record
  (`Idempotency.ReplayedIffUnshared`), which two tenants have exactly when one name extends the other's past a colon
  (`Idempotency.SharedRecordIff`).

## Model

| member | source | states |
|---|---|---|
| Workflow.ValidateDefinition | internal/workflow/service.go:181-282 | A definition is reported valid exactly when it is named and versioned, each node has an identifier of its own, one of the six types and a configuration that passes, each edge joins two different nodes that exist, no two edges enter the same node, some node is entered by none, and each condition's edges are labelled true or false in any case, with both labels; the error list is empty in just that case |
| Workflow.BranchesMakeTwo | internal/workflow/service.go:241-243 | The rule that a condition has two outgoing edges follows from the rule that both its labels occur |
| Workflow.ValidateNodes | internal/workflow/service.go:197-213 | No node error exactly when every trimmed identifier is present and unique, every trimmed type is one of the six and every tool configuration passes; then the index holds each node once |
| Workflow.ValidateEdges | internal/workflow/service.go:215-234 | No edge error exactly when every edge joins two different known nodes; then both counters are the numbers of edges into and out of each trimmed identifier |
| Workflow.ValidateDegrees | internal/workflow/service.go:236-250 | No degree error exactly when no node is entered twice, conditions have two exits, and some node is not entered, whatever order the map is walked in |
| Workflow.ValidateBranches | internal/workflow/service.go:252-276 | No branch error exactly when every condition's edges are all labelled true or false and both labels occur |
| Text.TrimSpaceMeans | internal/workflow/service.go:198 | Trimming takes the white space off both ends and nothing else |
| Text.FoldMeans | internal/executor/graph.go:71 | Folding compares letters without regard to case and all else as it is |
| Graphs.BuildGraph | internal/executor/graph.go:16-45 | Building fails exactly when every node is entered; otherwise each identifier stands for the last node that has it, leaves by all its edges in the order they are defined, and is a root exactly when no edge enters it, roots in the order of the nodes |
| Graphs.NextNodes | internal/executor/graph.go:47-77 | An ordinary node is followed by all targets of its edges in order, a condition by the targets, in order, of just the edges whose trimmed label is its reported boolean in any case; anything but a true boolean counts as false |
| Graphs.AcceptedBuilds | internal/executor/graph.go:24-38 | Every accepted definition has a root as the engine counts them, even with untrimmed identifiers |
| Graphs.AcceptedNodesKept | internal/executor/graph.go:17-22 | No accepted node is shadowed by another in the graph |
| Graphs.AcceptedRootsDistinct | internal/executor/graph.go:28-34 | The roots of an accepted definition are listed once each |
| Graphs.RawCountBelowTrimmed | internal/workflow/service.go:232-247 | An identifier is entered at most as often as its trimmed form, which is what the validator counts |
| Graphs.AcceptedConditionContinues | internal/executor/graph.go:57-76 | A condition node of an accepted definition has a successor for either result |
| Graphs.TrimmedTargetsKnown | internal/executor/engine.go:105-111 | With trimmed identifiers every successor of every node is a node of the graph |
| Conditions.ConditionReports | internal/executor/nodes.go:156-181 | A condition fails exactly for an unknown operator; otherwise its output carries the truth of the comparison as a boolean |
| Conditions.ConditionMeans | internal/executor/nodes.go:156-181 | What a condition compares: an earlier step's rendered output if its setting names one, or else an input, with its own target or value; equal but for case and outer white space, or containing it but for case; an operator that is neither is an error |
| Conditions.ConditionRoutes | internal/executor/graph.go:57-76 | A successful condition takes all edges labelled with the outcome of its comparison, no others, and at least one |
| Forest.AcceptedSingleEntry | internal/workflow/service.go:244-246 | In an accepted definition with trimmed identifiers no two edges enter the same node |
| Forest.ValidatedIsForest | internal/workflow/service.go:215-250 | Two paths from roots to the same node are the same path: the reachable part is a forest |
| Engine.TurnDecreases | internal/executor/engine.go:62-112 | Every iteration of the loop comes closer to its end, for any graph, cyclic or not |
| StepBodies.WalkRan | internal/executor/service.go:524-580 | From any state of the loop, on any graph without a blank node and whatever the decisions: each step names its node, type and configuration; its output is what the node's body returned for the input and the outputs before it, or the next decision; a failed step has its body's error, or tells that its type has no body; a waiting one asks with its configured message or the default; and nothing follows the last two |
| Once.NodesRunOnce | internal/executor/engine.go:56-115 | In the uninterrupted run, on any graph, cyclic or not, and whatever the decisions in hand, no node has two steps |
| Once.ExecutedIsLeastClosed | internal/executor/engine.go:62-114 | A finished uninterrupted run executed the least set that holds the roots and is closed under the edges its outputs selected |
| Once.WalkIsClosed | internal/executor/engine.go:103-111 | The executed set of a finished run is closed under the edges taken, and exactly its nodes have outputs |
| Once.WalkStaysWithin | internal/executor/engine.go:105-111 | The walk never leaves any closed set that holds its worklist |
| Resume.PauseIsATurn | internal/executor/engine.go:68-88 | Freezing at an approval and thawing with a decision gives the state an ordinary node returning that decision would leave |
| Resume.ThawedStateExact | internal/executor/helpers.go:168-187 | That equality holds exactly when the approval is not its own successor |
| Resume.PiecesAreOneRun | internal/executor/service.go:470-514 | From any state of the loop, a run cut at its approvals ends like the uninterrupted run in which approvals return their decisions |
| Resume.PiecesAreOneRunWithin | internal/executor/service.go:470-514 | The same of a run that stays within a set of nodes without self-approvals, on any graph |
| Resume.PauseResumeTransparent | internal/executor/service.go:504-514 | For every accepted definition and every list of decisions, the run in pieces and the uninterrupted run have the same ending, steps, outputs, executed set, last node and queue |
| Resume.AcceptedNoSelfApproval | internal/workflow/service.go:222-224 | The validator rules out approvals that are their own successor, untrimmed identifiers included |
| Resume.SelfApprovalRunsTwice | internal/executor/engine.go:79-87 | Without that rule one approval leaves the run waiting at the same node and the node gets two steps |
| BreadthFirst.NothingSkipped | internal/executor/engine.go:105-111 | On a forest the skip of executed or queued successors is never taken |
| BreadthFirst.HeadKnown | internal/executor/engine.go:63-67 | The worklist of a validated definition holds only known nodes that have not run |
| BreadthFirst.WalkIsPlain | internal/executor/engine.go:56-115 | The loop with its books refines a walk that keeps none, and ends within one turn per node |
| BreadthFirst.WalkBreadthFirst | internal/executor/engine.go:62-112 | Steps come in breadth-first order and no node runs before its parent, however the run ends |
| BreadthFirst.DepthsNeverDecrease | internal/executor/engine.go:105-111 | Of two steps the later one is never closer to its root |
| BreadthFirst.AcceptedRunIsBreadthFirst | internal/executor/engine.go:56-115 | Both hold of every uninterrupted run of every accepted definition with trimmed identifiers, whatever the decisions |
| Outputs.WalkTold | internal/executor/engine.go:90-104 | From any state in order, each step's output is the one kept for its node, and the ending names the node, status, error or request of its last step |
| Outputs.RunReportsLastStep | internal/executor/graph.go:79-88 | However an uninterrupted run of an accepted definition ends, the outcome reports its last step; a finished run's output is that step's node and output |
| Resumed.AcceptedRunRan | internal/executor/service.go:524-580 | So of every uninterrupted run of an accepted definition; with trimmed identifiers and types it fails only where a body fails, with that body's error |
| Resumed.ResumedRunsOnce | internal/executor/engine.go:38-115 | No node of a run cut at its approvals and resumed has two steps, on any graph without self-approvals |
| Repeats.RunsOnceIff | internal/executor/engine.go:79-111 | On a graph without dead ends, over all node bodies and decisions, no resumed run repeats a node exactly when the roots lead to no approval that is its own successor |
| Resumed.ResumedExecutedLeastClosed | internal/executor/engine.go:38-115 | A finished resumed run executed the least set that holds the roots and is closed under the edges its outputs selected |
| Resumed.AcceptedResumedRun | internal/executor/service.go:470-514 | A resumed run of any accepted definition, untrimmed identifiers included, names no node twice and reports its last step |
| Resumed.AcceptedResumedBreadthFirst | internal/executor/service.go:470-514 | With trimmed identifiers a resumed run's steps are in breadth-first order, parents before children |
| Resumed.AcceptedPiecesRan | internal/executor/service.go:470-514 | The same of the run in pieces |
| Backoff.DelayExact | internal/worker/service.go:121-127 | In 64-bit nanoseconds the default backoff is the intended doubling exactly while the attempt is at most 38 |
| Runs.LegalPrefix | internal/executor/async.go:164-234 | The language of audit logs is closed under prefixes |
| Runs.NothingAfterTerminal | internal/executor/async.go:171-184 | No legal log goes on after run_completed or run_dead_lettered |
| Runs.RetriesBounded | internal/worker/service.go:68-86 | A legal log schedules fewer than three retries, the k-th with the k-th backoff |
| Runs.BackoffTotal | internal/worker/service.go:121-127 | The first n backoffs add up to base times 2^n - 1 |
| Tokens.LocalStepFits | internal/executor/async.go:86-236 | Every step an agent can take, for every node result, keeps what is promised of its run's record and of where the run goes next |
| Safety.ActionSafe | internal/worker/memory_queue.go:24-61 | Every action of any worker, client or timer keeps the token invariant: each run is in the channel, in one timer, in one agent's hands or at rest, and its record fits that place |
| Safety.ReachableSafe | internal/executor/async.go:16-184 | The invariant holds in every reachable state |
| Guarantees.OneLiveJob | internal/executor/async.go:94-140 | A run has at most one live job over channel, timers and hands, and a queued run exactly one, although checking the status and writing running are separate steps |
| Guarantees.NoTwoCallsOnOneRun | internal/executor/async.go:99-140 | No two agents work on the same run at once |
| Crowd.AnyNumberOfWorkers | internal/worker/service.go:42-96 | These are not theorems about one worker at a time: for every number there is a reachable state in which that many workers each hold the job of another run |
| Guarantees.WaitingJobAgrees | internal/worker/service.go:69-77 | A waiting job names its run, and its attempt count is the one stored |
| Guarantees.DelayedJobIsNew | internal/worker/service.go:71-83 | When a job is about to be delayed no timer holds a job of its run, which is what the Redis queue needs of its callers to lose none |
| Guarantees.AlwaysResolvable | internal/executor/async.go:104-137 | A held job always claims its run, raising the stored attempt by exactly one and never beyond the maximum; the branches for a lost workflow or a graph that does not build are unreachable |
| Guarantees.AttemptsBounded | internal/worker/service.go:68-95 | Attempts never exceed the maximum, which is at most three, and a queued run has one left |
| Guarantees.RecordsConsistent | internal/executor/service.go:205-248 | A pending record exists exactly for waiting runs and names their last step, which waits; earlier steps of waiting, failed and dead runs and all steps of completed runs are completed; the audit log is legal |
| Guarantees.StatusRecorded | internal/executor/async.go:164-234 | What the log of a run that no call is working on recorded last is the status the run is stored with |
| Guarantees.ChannelWithinCapacity | internal/worker/memory_queue.go:11-31 | The channel never holds more jobs than it has room for |
| Guarantees.BackoffsOfRun | internal/worker/service.go:71-77 | The delays scheduled for a run are the first of 50 ms and 100 ms in order and total base times 2^n - 1 |
| Guarantees.FinalIsAbsorbing | internal/executor/async.go:171-184 | No action of anyone changes a completed or dead-lettered run, its steps or its pending record; its log can only grow |
| Guarantees.ResolutionLegalIff | internal/executor/service.go:473-481 | Recording a resolution keeps a waiting run's log legal exactly when no call on it has still something to record |
| Race.EarlyResumeBreaksLog | internal/executor/async.go:215-219 | A reachable history in which a resume between the two writes makes the log illegal |
| Interleaving.EveryRunIsOwnDoing | internal/executor/async.go:86-236 | After every history, whatever the interleaving, every run is stored and stands where its own part of that history would have left it if nothing else had ever run: its first call, then in order the results its nodes returned, the jobs taken for it and the approvals that reached it |
| Stories.EveryStoryHappens | internal/executor/async.go:16-150 | Every story a new run can have by itself is exactly its part of some history, continued from any history that leaves the channel empty and with room; no other run changes |
| Solo.DoAllFits | internal/executor/async.go:86-236 | A run by itself keeps its record fitting the place it is in |
| AuditTrail.LogTellsSteps | internal/executor/engine.go:74-104 | In every reachable state the audit log of a run at rest tells its stored steps, in order and with their outcomes, and every approval_resolved names the node the run was parked at |
| RunErrors.ErrorStoredIff | internal/executor/async.go:130-136 | When every node error has a message, a run at rest is stored with an error exactly when one of its attempts has failed and no approval was resolved since |
| StaleError.SucceededRetryKeepsError | internal/executor/async.go:225-228 | Whatever message, not empty, a run's first attempt fails with, some history leaves the run at rest completed with that error, its retry having succeeded |
| Tidiness.StoredStepsOnce | internal/executor/engine.go:38-115 | Under every interleaving the stored steps of a run at rest name each node once, whatever its nodes return each time and however often it is paused, resumed and retried |
| Progress.EveryRunEnds | internal/worker/service.go:42-96 | Under every interleaving, whatever its nodes return and however often it is resumed and retried, a run takes at most 39 steps for each node of its workflow and 38 more in its whole life |
| Progress.StopsAtRest | internal/executor/service.go:233-248 | And it stops nowhere else: something can still be done to it exactly unless it is at rest with no approval pending |
| Courses.InterleavedRunIsOneRun | internal/executor/async.go:186-236 | Under every interleaving, when the nodes of each attempt are functions and approvals bring no input they look at, the record of a run at rest shows the uninterrupted run of its last attempt in which its approvals return just the decisions the history gave: its steps, outputs, error and pending state, whether completed, parked, failed, marked for retry or dead; a rejected one, told by its log and by the history's last decision, shows the parked run with its last step resolved |
| Ledger.StoryHasBodies | internal/executor/engine.go:56-115 | Whatever the nodes of a run return at their calls, over all its attempts and pauses, some functions return just that |
| Courses.AnyRunIsOneRun | internal/executor/async.go:186-236 | So the record of a run at rest shows the uninterrupted run after every history whatever, with bodies that return what its nodes returned |
| Courses.InterleavedStepsInOrder | internal/executor/engine.go:56-115 | After every history the stored steps of a run at rest are, with trimmed identifiers, in breadth-first order, each node once |
| Courses.InterleavedStepsRan | internal/executor/service.go:524-580 | After every history allowed by the bodies, each stored step of a run at rest is what the body of its node made of the run's input and the outputs before it, or the decision the history gave on it |
| Stores.MemoryRepository.CompleteRun | internal/executor/service.go:205-213 | Stores the run and its steps, drops its pending record, and touches no other run |
| Stores.MemoryRepository.SavePending | internal/executor/service.go:223-231 | Stores the run, its steps and the pending record, and touches no other run |
| Stores.MemoryRepository.GetRun | internal/executor/service.go:250-260 | Finds a run only for its own tenant |
| Stores.MemoryRepository.LoadPending | internal/executor/service.go:233-248 | Succeeds exactly for a run of the tenant that has a pending record, and returns what was saved |
| Stores.AuditRepository.Create | internal/audit/service.go:78-84 | Appends to the run's log and to no other |
| Stores.MemoryQueue.EnqueueAfter | internal/worker/memory_queue.go:33-47 | Starts one new timer that carries the job, and sends nothing yet |
| Stores.MemoryQueue.Dequeue | internal/worker/memory_queue.go:49-61 | Takes the oldest job sent, or nothing from an empty channel |
| Executor.Service.CreateWorkflow | internal/workflow/service.go:128-162 | Stores a definition exactly when its tenant is named and the validator accepts it, so that only accepted definitions are ever stored |
| Executor.Service.StoredResolvesFor | internal/executor/graph.go:36-38 | A stored workflow always resolves to a graph for its own tenant and for no other |
| Executor.EnqueueNext | internal/executor/engine.go:105-111 | The loop appends exactly the successors neither executed nor queued, once each, in the order in which they first occur, and keeps the index of queued nodes exact |
| Executor.AppendQueue | internal/executor/helpers.go:168-187 | The frozen queue is the old one followed by the successors neither executed nor queued, once each, in the order in which they first occur |
| Executor.Service.ExecuteHead | internal/executor/engine.go:63-111 | One iteration is one turn of the interpreter and appends its one audit event to this run's log |
| Executor.Service.ContinueExecution | internal/executor/engine.go:56-115 | The loop ends with the outcome of the interpreter and has taken the protocol's steps; each step it adds is what its node's body returned for the input and the outputs before it, a failure is the body's own unless the node's type has none, and the log has grown by one event for each of these steps |
| Executor.Service.ExecuteRun | internal/executor/async.go:186-236 | From the started event to the stored ending and its event, an execution takes the protocol's steps; the log has grown by the start, one event a step and the ending, the stored run tells how its last step ended, and no other run changes |
| Executor.Service.ProcessAsyncJob | internal/executor/async.go:86-150 | A job is refused exactly when its tenant is blank or has no such run, and then nothing changes; a run that is not queued is left alone, one without its workflow fails without steps, any other has one attempt more, the job's input laid over its own key by key, and its steps, status, error and log as its pass over the workflow's graph made them |
| Executor.Service.Settle | internal/worker/service.go:64-95 | A failed run with an attempt left is stored as queued with its retry told, and exactly one new timer carries its job, after 50 ms at first and twice as long each time; without one it is dead; any other run is left alone |
| Executor.Service.ProcessNext | internal/worker/service.go:42-96 | One worker turn takes the oldest job, leaves its run as the call and then the retry decision make it, step by step by the protocol, and touches nothing else |
| Executor.Service.ExecuteAsync | internal/executor/async.go:16-84 | Succeeds exactly for a workflow of the tenant; the run is stored as queued with no attempt made of three, run_queued is its only event, and only then is its job sent |
| Executor.Service.ExecuteSync | internal/executor/service.go:307-362 | Succeeds exactly when the tenant has the workflow and it builds; the stored run, its steps and its log are what its pass from the roots made them |
| Executor.Service.ResumeApproval | internal/executor/service.go:429-522 | Nothing changes when the run, its pending record or its workflow is missing; otherwise each key of the input given has its value there and every other key keeps its own; a refused run is stored as failed with its waiting step resolved and nothing pending, and an approved one has the decision as output of that step and goes on from what was frozen, each further step being what its body made of it |
| Sequential.UndisturbedCallIsReachable | internal/executor/async.go:86-150 | What an undisturbed call reaches before its last step is reachable in the protocol, with every other run as it was |
| Sequential.CallEndIsReachable | internal/worker/service.go:42-96 | The state the last step of an undisturbed call leaves, with its job sent to the channel or to a new timer, is reachable |
| Objects.WorkerTurn | internal/worker/service.go:42-96 | A worker's turn takes objects that represent a reachable state to objects that represent a reachable state |
| Objects.AsyncStart | internal/executor/async.go:16-84 | So does an asynchronous start, with room in the channel |
| Objects.SyncRun | internal/executor/service.go:307-362 | So does a synchronous run |
| Objects.ApprovalDecided | internal/executor/service.go:429-522 | So does the resolution of an approval, whether or not the run can be resumed |
| Objects.TimerFires | internal/worker/memory_queue.go:38-44 | So does a timer that runs out, with room in the channel |
| Objects.NewWorkflow | internal/workflow/service.go:128-162 | So does the creation of a workflow, accepted or not |
| EndToEnd.RecordsShowPieces | internal/executor/service.go:441-514 | However often the stored record of a run is parked and approved, it shows the ending of the run in pieces |
| EndToEnd.ApprovedRunIsOneRun | internal/executor/service.go:307-522 | For an accepted definition the record stored last shows the ending of the uninterrupted run in which approvals are ordinary nodes |
| EndToEnd.RunApproving | internal/executor/service.go:307-522 | The calls of a client that runs a workflow and approves whatever it waits for all succeed, and the record they leave shows the uninterrupted run in which the approvals return its decisions, its steps being what the bodies and the decisions made of the outputs before them |
| Promotion.SchedulingConservesIff | internal/worker/redis_queue.go:58-79 | Scheduling keeps every job in exactly one place exactly when the payload is not already delayed; the payload is due from its score on |
| Promotion.CommandConserves | internal/worker/redis_queue.go:117-152 | Any command of any worker or client keeps every job sent in exactly one of delayed set, hand, list and delivered, and counts each promotion once |
| Promotion.HistoryConserves | internal/worker/redis_queue.go:36-152 | So does every history, whatever the interleaving |
| Promotion.DeliveredInOrder | internal/worker/redis_queue.go:36-115 | First in, first out: over every history, however clients and workers interleave, the jobs delivered so far followed by those in the list, oldest first, are the jobs pushed, in the order they were pushed |
| Promotion.EarliestFirst | internal/worker/redis_queue.go:117-152 | A worker that promotes undisturbed pushes the due jobs in the order in which they fall due, over any number of pages |
| Promotion.OthersKeepRank | internal/worker/redis_queue.go:131-150 | Other workers never take a promoting worker further from its end |
| Promotion.PromotionEnds | internal/worker/redis_queue.go:117-152 | With no new entry due at its clock reading, a worker's promotion ends within a bound fixed at its start |
| Promotion.EndsWhenNothingDue | internal/worker/redis_queue.go:117-152 | A worker's promotion ends exactly when nothing is due at its clock reading any more; a page holds at most 32 entries, and fewer only when it holds all that is due |
| Promotion.DueJobsTakenOnce | internal/worker/redis_queue.go:117-152 | By then, whatever the interleaving, every job that was due and was not scheduled again has been taken off the delayed set exactly once, to be pushed |
| Promotion.DequeueTakesAllDue | internal/worker/redis_queue.go:81-152 | So of every Dequeue: whatever comes between its reading of the clock and its finding no page left, each job due at that reading has been taken off exactly once by then |
| Resp.DecimalRoundTrip | internal/worker/redis_queue.go:164-178 | A 64-bit number printed in decimal reads back as itself and holds no line feed |
| Resp.DecimalMeans | internal/worker/redis_queue.go:164-178 | Numbers are written in decimal digits without leading zeros, negative ones after a minus sign |
| Resp.AtoiMeans | internal/worker/redis_queue.go:194-199 | What is read as a number: one sign or none, then digits and nothing else, of a value that fits 64 bits |
| Resp.BulkRoundTrip | internal/worker/redis_queue.go:239-267 | A bulk string, line endings and all, reads back as itself and leaves the following bytes |
| Resp.BulkRoundTripIff | internal/worker/redis_queue.go:256-266 | A bulk string reads back exactly when its length plus two fits the length type |
| Resp.IntegerRoundTrip | internal/worker/redis_queue.go:180-200 | An integer reply reads back as itself and leaves the following bytes |
| Resp.ArrayRoundTrip | internal/worker/redis_queue.go:202-237 | Reading what the writer wrote returns the same values and leaves exactly the following bytes |
| Resp.StreamRoundTrip | internal/worker/redis_queue.go:164-237 | Arrays written back to back are read in order |
| Resp.NilReplies | internal/worker/redis_queue.go:211-216 | A nil reply is no value, and a line may end in a line feed alone |
| Resp.ShortBulk | internal/worker/redis_queue.go:261-266 | When less than the payload has come, the reader does not wait and fills up with zero bytes |
| Resp.Writer.WriteArray | internal/worker/redis_queue.go:164-178 | The writer's loop appends an asterisk, the number of strings and each string after a dollar sign and its length, every line ended by CR LF: the encoding the round trips are about |
| Resp.Reader.ReadArray | internal/worker/redis_queue.go:202-237 | The reader's loop consumes and returns what the decoding the round trips are about does, with the same errors for malformed input; a reply that does not begin with an asterisk costs one byte and an error |
| Resp.Reader.ReadBulkString | internal/worker/redis_queue.go:239-267 | The same for one bulk string |
| Resp.Reader.ReadInteger | internal/worker/redis_queue.go:180-200 | The same for an integer reply |
| Chunking.LineEndsAreSpace | internal/documents/service.go:264 | Replacing line ends before splitting changes no word |
| Chunking.WordsMean | internal/documents/service.go:264 | White space separates words wherever it stands, and a text without any is one word |
| Chunking.WordsOfJoin | internal/documents/service.go:282-285 | Words joined by single spaces split into the same words |
| Chunking.AheadSameChunk | internal/documents/service.go:277-285 | Putting a word into the open chunk keeps the greedy loop ahead of every other split |
| Chunking.AheadNextChunk | internal/documents/service.go:277-285 | So does opening a new chunk when the word does not fit |
| Chunking.ChunkText | internal/documents/service.go:263-294 | No word is lost or moved, a chunk holds no white space but blanks and none at all if it is over the limit, each is packed as full as the next word allows, and no other split within the limit has fewer chunks |
| Chunking.BuildChunks | internal/documents/service.go:236-261 | Chunks of at most 800 characters, or of one word, are numbered from 0 in order, carry fresh identifiers, are as few as possible, and their token estimates add up to the words of the text; only text is chunked, and the only failure is that of the identifier source |
| Controls.TriggerControl.constructor | internal/tenant/controls.go:41-56 | A negative limit means unlimited and a window that is not positive means a minute |
| Controls.TriggerControl.Allow | internal/tenant/controls.go:66-97 | Refuses exactly when the tenant's open window holds the limit, charges one call to that window or to a new one, and reports what is left and when it ends; what it reports is what the tenant may still do before the reset time, and that all is open from then on |
| Controls.TriggerControl.Lookup | internal/tenant/controls.go:99-117 | Finds the record of the trimmed key, or a conflict, or nothing for a blank key |
| Controls.TriggerControl.Store | internal/tenant/controls.go:119-134 | Stores unless the key belongs to another fingerprint, in which case nothing changes |
| Controls.Server.HandleExecuteWorkflow | internal/api/server.go:284-338 | A readable record answers at once with its run or a conflict; then a blank tenant, a full window, in order; then one call is charged, and a mode other than sync or async is refused, or the run is executed in its mode and, once started, kept under its key; nothing else changes: which is the effect the request theorems are about |
| Quota.SlidingBound | internal/tenant/controls.go:66-97 | In any half-open interval of k windows a tenant is admitted at most (k + 1) * limit - 1 times, for any clock that never goes back or reads the zero time |
| Quota.SlidingBoundReached | internal/tenant/controls.go:75-90 | For every limit, every k and every window of at least two nanoseconds some tenant is admitted exactly that often |
| Quota.RefusedOnlyWhenFull | internal/tenant/controls.go:81-87 | A call is refused only after limit admissions less than a window before it |
| Quota.SlidingBoundIff | internal/tenant/controls.go:75-78 | A clock that never goes back keeps every tenant within the bound, over all histories and all intervals, exactly when it never reads the zero time |
| Quota.BurstBoundIff | internal/tenant/controls.go:75-78 | No burst at one time exceeds the bound for one window exactly when that time is not the zero time |
| Quota.ZeroClockAdmitsAll | internal/tenant/controls.go:76-78 | While the clock reads the zero time no call of a tenant is refused, however many there are |
| Quota.OthersDoNotCount | internal/tenant/controls.go:75-90 | A tenant is admitted exactly as if it were alone |
| Idempotency.SharedRecordIff | internal/tenant/controls.go:136-138 | Exactly when two tenants' keys share a record |
| Idempotency.ColonFreeApart | internal/tenant/controls.go:136-138 | Tenants without a colon never do |
| Idempotency.FingerprintKept | internal/tenant/controls.go:128-132 | Once stored, a key's fingerprint never changes, whatever requests follow |
| Idempotency.ConflictChangesNothing | internal/api/server.go:331-334 | A conflict is always found before anything is done; storing the record of a new run never fails |
| Idempotency.ReplayedForever | internal/executor/service.go:399-427 | After a keyed request started a run, the same request always returns that run and another one under that key is always refused, with no run created and no quota used |
| Idempotency.ReplayedIffUnshared | internal/tenant/controls.go:99-138 | A tenant's key is replayed, whatever the given tenants ask for, exactly when none of the others has a key with the same record |
| Idempotency.SharedRecordBreaksReplay | internal/tenant/controls.go:128-138 | Whenever two tenants' keys share a record, a request of the one makes the repeated request of the other start a second run, whatever the quota |
| Idempotency.ColonFreeReplayed | internal/tenant/controls.go:136-138 | Every key of tenants without a colon in their names is replayed |
| Idempotency.ColonBreaksReplay | internal/tenant/controls.go:136-138 | Tenants named a:b and a break each other's replays |
| Idempotency.RepliesApart | internal/api/server.go:284-338 | With fresh run identifiers, what a request is answered does not depend on the requests of tenants none of whose keys shares a record with one of its tenant's |
| Idempotency.ColonFreeNoneShares | internal/tenant/controls.go:136-138 | Which is so of tenants without a colon in their names |
| Idempotency.StartedBound | internal/api/server.go:289-338 | No tenant starts more runs in k windows than the quota's sliding bound |
| WorkPool.NoIndexTwice | cmd/bench/main.go:705-726 | Under every interleaving the indices run are a prefix of 0 .. total - 1, each once |
| WorkPool.NilMeansAllRan | cmd/bench/main.go:729-730 | When the pool has stopped, no error means exactly that every index ran and succeeded |
| WorkPool.ErrorIsReturned | cmd/bench/main.go:697-703 | An error returned is one that some call gave |
| WorkPool.ErrorStopsPool | cmd/bench/main.go:697-715 | The first error recorded is the one returned, and after it no worker starts another call but those that had already looked for an error, one each |
| WorkPool.PoolStops | cmd/bench/main.go:709-727 | Every schedule is bounded, and until all workers have stopped one of them can move |
| Latency.PercentileMeans | internal/benchmark/stats.go:168-182 | The percentile is a sample with at least p% of the samples at most it and fewer than p% below it |
| Latency.PercentileGrows | internal/benchmark/stats.go:168-182 | Percentiles grow with p and lie between the least and the greatest sample |
| Latency.PercentileOutside | internal/benchmark/stats.go:168-182 | Outside 0 to 100 the percentile is the least or the greatest sample, and 0 of no samples |
| Latency.SummarizeLatencies | internal/benchmark/stats.go:67-88 | Minimum and maximum bound all samples, P50 and P95 are the percentiles of the samples, the mean is their total divided by their number without its fraction; minimum, P50, P95 and maximum, and minimum, mean and maximum, are in order despite integer division |

## Left out

- Concurrent resumes of one run: the code does not order them, so the protocol theorems have seriality as a hypothesis; `Race` shows what happens without it.
- Crashes, cancelled contexts, failing repository or queue calls, failing identifier generation (except in `BuildChunks`): every such call succeeds in the model.
- Executor.Service.ExecuteAsync: requires room in the channel and has no branch for a failed send, which stores the run as failed; a send fails only when its context is cancelled.
- A full channel: `Stores.MemoryQueue.Enqueue` and `Fire` require room, because a blocked sender waits; in the protocol the send step is simply not enabled until then.
- Extra input on resume: it is merged and stored as the code does, but `Resume` and `EndToEnd` are about resumes without it, as a body that looks at its input may then do anything else; `Courses.AnyRunIsOneRun` includes it.
- Node bodies other than conditions: the model call, retrieval, HTTP tool and audit-log bodies are any function. A condition's body is in `Conditions`; the engine theorems hold for every body.
- `Stores.AuditRepository` keeps append order; sorting by time on reading is not modelled, nor is the sorting of ListRuns.
- Defensive copies of maps, slices, jobs and pending records: the model's values cannot be shared, so the aliasing these copies prevent is not represented.
- Error texts leave out the quoted node type, operator or prefix that the source puts into them.
- Timestamps, step identifiers, trace spans, log lines and audit messages. Step attempt numbers are constant in the source.
- Approval messages from configuration values that are not strings, which the source renders as JSON.
- The PostgreSQL repositories, object stores, document upload, HTTP routing and JSON encoding, API keys, configuration. A request's fingerprint is a parameter of `Idempotency.Request`; so is what the executor does when asked (start a run, or fail with or without having stored one).
- Workflow.ValidateDefinition: the verdict is specified for every definition, not the order and wording of the error list. HTTP-tool configuration checks are a parameter of the validator.
- Redis itself: each command is atomic, a score range reply is any lowest-first page of at most 32 due members, connections do not fail, and a worker that has removed an entry goes on to push it.
- Resp.Reader.ReadBulkString: a read returns everything that is there, up to the size asked for; a socket may return less. A length that overflows or is negative ends in a panic as in the source, but the model has memory for every other length, where the Go runtime refuses to allocate very large ones.
- Resp.Reader.ReadArray: likewise goes on reading for any count that is not negative.
- Unicode: white space, case folding and trimming are ASCII; text lengths are in bytes, as the source counts them.
- Latency.PercentileMeans: over exact reals instead of floating point, and sums that overflow 64 bits are not modelled.
- SummarizeExecution and the rendering of benchmark results: totals and formatting of samples that the benchmark command has already taken; the orchestrator itself does not use them.
- Liveness: a run takes boundedly many steps and stops only at rest, but that a worker eventually takes its job depends on scheduling.
