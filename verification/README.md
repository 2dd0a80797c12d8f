# The kbrain operator: slots, lifecycles and merge requests

kbrain runs coding agents on Kubernetes. An `AgentTask` is carried by one controller from a request, through an
agent pod, to a merge request; an `AgentPool` is served by another controller that lets at most `maxConcurrency`
tasks be active at once. The two controllers never talk to each other. They share one versioned object store and
one annotation, `kbrain.io/pool-slot-granted`.

The central guarantee is local to neither file: the pool hands out `maxConcurrency - active` slots and does not count
slots it granted earlier to tasks that have not started. The bound holds only because every pass grants to the same
first tasks in line, so what has to be proved is an invariant over all interleavings of pool passes, task
reconciles, authors, refused and lost writes, stale caches and crashes.

## How the model is built

Transition systems are given as `Enabled` (what a step needs), `Apply` (what it does), `Valid` (a sequence of steps is a
run) and `After` (where the run leads); every main theorem speaks of all runs.

- `AgentTypes`, `PodBuilder`, `GitOps`, `Handlers`: the data and the pure parts. `Handlers.Decide` is what a reconcile
  decides as a function of the object it read and of the answers it got: an effect and the status it wants to write.
- `HandlerLaws`, `LifecycleCauses`: for every outcome of every handler, exactly when it is the outcome, in terms of the
  object's own fields and the answers; and over runs, which answers a stored status goes back to.
- `PoolView`, `PoolSystem`: the tasks a pool lists and a pool controller beside everyone else who writes them. The
  history of the store is kept; a cache shows any state no older than the last one it showed; a grant may be accepted,
  refused, never arrive, or be accepted with its answer lost; a pass may die anywhere; the limit may change between
  passes; the sort leaves ties in any order.
- `PoolSafety`, `PoolTheorems`: what every run keeps (`Core`), what gated tasks with distinct stamps keep besides (`Inv`),
  and the consequences of each.
- `PoolListing`, `PoolController`: the pool's reconcile as written - list, categorise in a loop, sort an array in place,
  grant in a loop that goes on after errors, report - proved to be a run of the pool system. The contracts of the store
  only say what a call itself does, so that other steps may happen before and after it.
- `Lifecycle`, `LifecycleHistory`, `LifecycleLedger`, `LifecyclePods`, `LifecycleTheorems`: one task, its pod and its
  reconciles. A reconcile reads some stored version, acts on the outside world, and then writes; the write is accepted
  only if its base version is current; the controller may stop between effect and write. A ledger records merge
  requests, pods and lost outcomes; every verdict says when the next reconcile is due.
- `LifecycleTimeouts`: runs in real time, whose due reconciles begin within a slack and end within a length.
- `LifecycleRuns`, `LifecycleSuccess`: runs built from whole reconciles, and which tasks can succeed.
- `TaskController`: the task's reconcile as written - handlers that assign the fields of the object and send it - proved
  to make exactly the lookups, calls, field changes and verdict that `Handlers.Decide` and the deletion path call for.
- `TaskRuns`: those calls, carried out one by one by the store and the cluster, are steps of the lifecycle.
- `Operator`: any number of tasks and the pool together. Every run of it is, for the pool, a run of the pool system and,
  for each task, a run of its lifecycle, so the theorems about the parts hold of the whole.
- `Exactness`: exactly when the concurrency bound and the pool's wakeups hold, with operator runs that break them.

## Assumptions

What the code relies on and does not check:

- Task names are not reused, tasks arrive without a phase and without the annotation, and only the pool sets the annotation.
- `spec.poolRef`, `spec.git` and `spec.timeout` are not edited after creation; the rest of a spec may be.
- A new task is created no earlier than any existing one. One pool lists a task, one pass of it runs at a time, and one
  reconcile per task runs at a time. The cache shows a past state of the whole list and never goes back.
- Nobody else creates pods under an agent pod's name. Time does not run backwards. Stored times keep whole seconds.
- A requeue and a retry are due at once; whatever the work queue's back-off adds counts as slack in `LifecycleTimeouts`.
- Some more are not assumed but shown to be needed, and required only where they are: that every listed task names the
  pool and that creation stamps are distinct (`Exactness.BoundExactly`, `Exactness.AwakeExactly`), and that reconciles
  read the current version of their task (`LifecyclePods.PodsExactly`).

## What does not hold

- The concurrency bound fails when two tasks carry the same creation stamp. Stamps have one-second granularity and the
  sort compares nothing else, so two passes may order a tie differently and grant different tasks: under every limit some
  run has one active task too many (`Exactness.TiedRun`).
- It fails likewise for a pool with a selector that lists tasks without `poolRef`: they are counted but skip the gate
  (`Exactness.UngatedRun`). Such tasks do not wake the pool either (`Exactness.AsleepRun`).
- A reconcile that reads an old version of its task can create a second pod after the first was deleted while the
  task was already running (`LifecyclePods.StaleRun`).
- A task whose controller stops after creating the pod adopts that pod without a start time, and then never times out
  (`LifecyclePods.RunningWithoutStart`, `LifecycleTimeouts.TimesOutExactly`).
- `platform: bitbucket` is accepted by the resource definition but can never succeed; the tasks that can are exactly those
  with a base branch and an address for merge requests (`LifecycleSuccess.SucceedsExactly`).
- A project path that already holds a percent triplet is not what the server gets to see, because only `/` is encoded
  (`GitOps.EncodingRoundTrip`); an HTTPS GitHub URL whose owner begins like an SSH address loses its beginning
  (`GitOps.GitHubRoundTrip`).

## Model

| member | source | states |
|---|---|---|
| PoolSafety.StepKeepsCore | internal/controller/agentpool_controller.go:60-124 | Every step of anyone, with or without ties and gate, keeps the core: tasks only evolve and newcomers are not older, a grant loop has settled every task it passed, and with the gate no queued task is forgotten |
| PoolSafety.StepKeepsInv | internal/controller/agentpool_controller.go:77-101 | With gate and distinct stamps every step also keeps: since the last listing, whoever is active or holds an unused slot was active in that listing or next in line there, and these fit in the largest limit read |
| PoolSafety.ConcurrencyBound | internal/controller/agentpool_controller.go:60-101 | In every run, active tasks plus tasks that hold an unused slot never exceed the largest limit any pass has read |
| PoolSafety.FixedLimitBound | internal/controller/agentpool_controller.go:77-87 | If no pass reads a limit above `max`, they never exceed `max` |
| Exactness.BoundExactly | internal/controller/agentpool_controller.go:80-82 | For every limit: active tasks stay within it in every run of the whole operator whose passes all read it, if and only if every listed task waits at the gate and creation stamps are distinct |
| Exactness.TiedRun | internal/controller/agentpool_controller.go:80-100 | With equal stamps, for every `max` some operator run whose passes all read `max` has `max + 1` active tasks, because two passes order the tie differently |
| Exactness.UngatedRun | internal/controller/agentpool_controller.go:149-155 | Without the gate, likewise, and the next pass under `max` lists `max + 1` active tasks |
| Exactness.AwakeExactly | internal/controller/agentpool_controller.go:161-179 | A queued task in the pool's cache means, in every run, that the pool is running or will run again, if and only if every listed task names the pool |
| Exactness.AsleepRun | internal/controller/agentpool_controller.go:167-169 | A listed task without `poolRef` waits in the cache while nothing will wake the pool |
| PoolView.Resnapshot | internal/controller/agentpool_controller.go:76-94 | Going over to a newer, possibly stale, listing loses nobody: whoever is busy now and had room in the old listing has room in the new one |
| PoolView.TurnStays | internal/controller/agentpool_controller.go:76-94 | If only tasks that had room became active since, a task whose turn it was and which still waits still has its turn |
| PoolView.RoomFits | internal/controller/agentpool_controller.go:77-87 | With distinct stamps, active tasks and the next in line together fit in the limit, unless nobody is next in line |
| PoolSafety.HeadHasTurn | internal/controller/agentpool_controller.go:80-90 | What stands within the free slots at the head of the sorted queue has its turn: active tasks and everyone created earlier leave room for it |
| PoolTheorems.SlotsAreInTurn | internal/controller/agentpool_controller.go:76-94 | At every moment of every run, a waiting task that holds a slot has its turn under the largest limit read |
| PoolTheorems.TurnIsKept | internal/controller/agentpool_controller.go:76-94 | A waiting task that has its turn under the largest limit read keeps it over every run until it leaves the queue |
| PoolTheorems.NoOvertaking | internal/controller/agentpool_controller.go:79-100 | In every run, ties or not: when a grant is accepted, every task with an earlier stamp has left the queue, holds a slot, or had its own grant refused in the same pass |
| PoolTheorems.NoIdleSlots | internal/controller/agentpool_controller.go:76-101 | In every run, under any limit: a finished pass that leaves someone without a slot has active plus granted at least the limit, and every grant of it holds unless it was refused |
| PoolTheorems.NoSlotTooMany | internal/controller/agentpool_controller.go:76-101 | With gate and distinct stamps, at the largest limit read and with no more active tasks than that, active plus granted is exactly the limit |
| PoolTheorems.SlotsAreKept | internal/controller/agentpool_controller.go:77-87 | No run takes a granted slot away, whatever limits are read |
| PoolTheorems.PoolStaysAwake | internal/controller/agentpool_controller.go:119-123 | With the gate, while a task is queued, the pool is running, will run again, or has an event still to be delivered |
| PoolSafety.DeliveryWakes | internal/controller/agentpool_controller.go:161-179 | A cache update that first shows queued tasks brings an event mapped to the pool |
| PoolSystem.MapTaskToPool | internal/controller/agentpool_controller.go:161-179 | A task event wakes the pool it names, and none if it names none |
| PoolSystem.Quota | internal/controller/agentpool_controller.go:77-87 | Slots handed out never pass the limit or the queue, and stop short of the queue only when the limit is reached |
| PoolListing.KindsAddUp | internal/controller/agentpool_controller.go:60-74 | The four lists by phase partition the listing |
| PoolListing.KindsOfView | internal/controller/agentpool_controller.go:62-73 | Which stored phases make up each of the four kinds: Succeeded alone is completed, Failed alone failed |
| PoolListing.SelectCounts | internal/controller/agentpool_controller.go:60-74 | The length of each list is the number of live tasks of that kind in the view it was listed from |
| PoolListing.SortedIsQueue | internal/controller/agentpool_controller.go:78-82 | Any sorted rearrangement of the pending list is a queue: all waiting tasks, each once, oldest first |
| PoolController.Categorize | internal/controller/agentpool_controller.go:60-74 | The loop puts every task in the list of its kind, in order |
| PoolController.SortByCreation | internal/controller/agentpool_controller.go:80-82 | In place: sorted by creation and a permutation of what was there |
| PoolController.ListPoolTasks | internal/controller/agentpool_controller.go:127-158 | The filtered list is still a complete listing; without a selector every task on it names the pool |
| PoolController.GrantHead | internal/controller/agentpool_controller.go:89-100 | Asks exactly for the head of the queue, in order, each with its slot set, whatever was refused on the way; a run of the pool system |
| PoolController.GrantIfFree | internal/controller/agentpool_controller.go:77-101 | Grants only if slots are free and tasks wait, and else asks for nothing |
| PoolController.GrantSlots | internal/controller/agentpool_controller.go:77-101 | From an unsorted pending list to a finished pass over its queue |
| PoolController.Report | internal/controller/agentpool_controller.go:103-123 | Sends exactly the counts of the listing to the store; retries exactly if the store does not acknowledge them, else comes back in ten seconds exactly if tasks wait |
| PoolController.Reconcile | internal/controller/agentpool_controller.go:46-124 | The whole pass, as written, is a run of the pool system that asks for exactly the grants its listing calls for, for none when its active tasks are at the limit, reports on that listing to the store and comes back while anyone waits |
| PoolController.ReportCountsView | internal/controller/agentpool_controller.go:103-113 | The reported counts are the numbers of live tasks in the view listed whose phase is active, waiting, Succeeded and Failed; they sum to all live tasks, and the names are those of the active ones |
| PoolController.UpdateIsGrant | internal/controller/agentpool_controller.go:94-98 | The store's own rule for an update (current version, silent when nothing changes) is the grant step of the pool system |
| PoolController.Cluster.List | internal/controller/agentpool_controller.go:145-147 | Every live task of the cache once, in no promised order |
| PoolController.Cluster.Update | internal/controller/agentpool_controller.go:95-98 | One grant tried; success means it was stored and acknowledged |
| PoolController.Cluster.UpdateStatus | internal/controller/agentpool_controller.go:115-117 | Records the status sent and ends the pass; nobody waiting is left without a wakeup |
| LifecycleTheorems.StepKeepsInv | internal/controller/agenttask_controller.go:57-94 | Every step of controller, pool, author and outside world keeps the invariant of a task |
| LifecycleHistory.DecideSound | internal/controller/agenttask_controller.go:78-94 | Whatever a reconcile decides to write is a consistent status one phase or more ahead of the object it read |
| HandlerLaws.PendingLaw | internal/controller/agenttask_controller.go:96-136 | Each outcome of a waiting task and exactly when: which field is missing first, the closed gate, the key missing, unreadable or found |
| HandlerLaws.InitializingLaw | internal/controller/agenttask_controller.go:138-181 | Exactly when a pod is created, adopted, or created with a start time, and when the reconcile is only tried again |
| HandlerLaws.RunningLaw | internal/controller/agenttask_controller.go:190-227 | Exactly when a running task moves on, fails with its pod and exit code, fails without its pod, is polled again, or is timed out with its pod deleted |
| HandlerLaws.PodlessLaw | internal/controller/agenttask_controller.go:186-188 | A running task without a recorded pod fails |
| HandlerLaws.CreatingMRLaw | internal/controller/agenttask_controller.go:230-285 | Exactly when credentials fail the task, when a request goes out and with which options, and that its answer is stored |
| HandlerLaws.FinishedLaw | internal/controller/agenttask_controller.go:88-92 | Finished and unknown phases call for nothing |
| HandlerLaws.WriteLaw | internal/controller/agenttask_controller.go:308-315 | A failed write is retried; a stored one calls for the next reconcile unless the task is finished |
| LifecycleCauses.StatusWasDecided | internal/controller/agenttask_controller.go:78-94 | In every run each change of the stored status was decided by an act of that run on the version before it |
| LifecycleCauses.LifecycleGraph | internal/controller/agenttask_controller.go:78-94 | Consecutive stored statuses follow the edges waiting - Initializing - Running - CreatingMR - Succeeded, and to Failed from all but Initializing |
| LifecycleCauses.WaitingFailure | internal/controller/agenttask_controller.go:126-129 | A complete waiting task fails only because a reconcile was told that the secret with its key does not exist |
| LifecycleCauses.StartFoundKey | internal/controller/agenttask_controller.go:110-135 | A task starts only when complete and past the gate, and if it needs a key only after a reconcile found it |
| LifecycleCauses.UnreadableKeyWaits | internal/controller/agenttask_controller.go:130 | An unreadable key stores nothing and the reconcile is tried again |
| LifecycleCauses.StartHasPod | internal/controller/agenttask_controller.go:141-180 | A task that starts running has a start time exactly if a reconcile created its pod, and then that of the creation; else a reconcile found the pod or ran into it |
| LifecycleCauses.RunningFailure | internal/controller/agenttask_controller.go:190-226 | A running task fails only because its pod failed, with its exit code, was gone, or was at work when its time was up |
| LifecycleCauses.FailedPodFailsTask | internal/controller/agenttask_controller.go:204-211 | A reconcile that sees the pod of a running task failed goes on to fail the task with its exit code |
| LifecycleCauses.SuccessHasAnswer | internal/controller/agenttask_controller.go:234-284 | A task that succeeds stores the URL a platform answered, under a resolved, non-empty credential |
| LifecycleTheorems.PhasesMoveForward | internal/controller/agenttask_controller.go:78-94 | Over every run, with stale reads, stored phases only advance, a finished status never changes, PushingBranch is never reached, and at most four status writes are accepted |
| LifecycleTheorems.StatusIsConsistent | internal/controller/agenttask_controller.go:176-180 | In every stored version: an end time exactly in terminal phases; a start time only with pod and branch and not after the end; Running, CreatingMR and Succeeded carry the task's pod name |
| LifecycleTheorems.StartedMeansGranted | internal/controller/agenttask_controller.go:110-117 | No pooled task is ever active or successful without its slot |
| LifecycleTheorems.MergeRequestsAccounted | internal/controller/agenttask_controller.go:274-284 | Merge requests asked for equal those recorded (at most one) plus those whose status write was refused or lost plus the one in flight; none before a reconcile saw the pod succeed |
| LifecycleTheorems.BranchesAgree | internal/controller/agenttask_controller.go:243-251 | Every merge request's branches are the GIT_BRANCH, TARGET_BRANCH and checked-out branch of every pod of the task, stored branch name or not |
| LifecycleTheorems.RequestsAsWritten | internal/controller/agenttask_controller.go:243-267 | In every run each merge request asks for the repository, branches and platform its author wrote, with the base branch, the derived branch and GitHub as defaults, under a non-empty credential and at the address of those options |
| LifecycleTheorems.DefaultsToGitHub | internal/controller/agenttask_controller.go:253-256 | A task without a platform and with an ordinary GitHub URL is posted to that repository on GitHub |
| LifecycleTheorems.PodsAreOwned | internal/controller/agenttask_controller.go:161-164 | Every pod ever created is owned by its task and bears its name |
| LifecyclePods.PodsExactly | internal/controller/agenttask_controller.go:141-180 | At most one pod plus those others deleted during initialization, in every run, if and only if reconciles read current versions |
| LifecyclePods.StaleRun | internal/controller/agenttask_controller.go:141-167 | A reconcile with a stale read creates a second pod after the first was deleted |
| LifecyclePods.RunningWithoutStart | internal/controller/agenttask_controller.go:145-149 | A crash between pod creation and status write leads to a running task without a start time |
| LifecycleTheorems.NeverEarly | internal/controller/agenttask_controller.go:213-226 | No task is reported as timed out before start plus its author's timeout, or thirty minutes if its text gives none |
| LifecycleTimeouts.LeavesRunningInTime | internal/controller/agenttask_controller.go:213-226 | In every run whose due reconciles begin within `slack` and end within `length`, with reads and writes of a running task succeeding, a started task has left Running by start plus its author's timeout (or thirty minutes) plus 15s plus slack plus two lengths |
| LifecycleTimeouts.StepKeepsTime | internal/controller/agenttask_controller.go:213-226 | Every step of such a run keeps the next poll of a started task due, or under way, in time |
| LifecycleTimeouts.TimesOutExactly | internal/controller/agenttask_controller.go:215-226 | While its pod goes on working, a running task served beyond that time is ended by its timeout if and only if it has a start time; without one it stays Running |
| LifecycleTheorems.AdoptedNeverTimesOut | internal/controller/agenttask_controller.go:215-226 | In every run, served or not, a task that adopted its pod without a start time is never reported as timed out |
| LifecycleTheorems.NobodyIsStranded | internal/controller/agenttask_controller.go:304-315 | In every reachable state, an undeleted unfinished task is being reconciled or has a wakeup |
| LifecycleTheorems.DeletionFreezesStatus | internal/controller/agenttask_controller.go:65-68 | Once a deletion mark is stored the status never changes again, not even by reconciles that read an older version |
| LifecycleTheorems.DeletionIsOrderly | internal/controller/agenttask_controller.go:287-302 | A reconcile that read the mark decides and writes nothing; the finalizer goes only with an account of the recorded pod, whose deletion was asked for if and only if a pod was recorded and found |
| LifecycleTheorems.FoundPodIsDeleted | internal/controller/agenttask_controller.go:290-298 | A deletion removes the recorded pod if it finds it and its request arrives, and leaves the pod alone otherwise |
| LifecycleSuccess.SucceedsExactly | internal/controller/agenttask_controller.go:96-285 | Some run takes a new task to Succeeded if and only if it has a base branch and its platform and URL give an address; nothing else an author writes decides it |
| LifecycleTheorems.UnaddressableNeverSucceeds | internal/gitops/gitops.go:61-70 | No stored version of a task without an address has ever succeeded; `bitbucket` gives none |
| TaskController.SetPhase | internal/controller/agenttask_controller.go:305-316 | Sets phase and message, sends the object once; retry on error, requeue unless terminal |
| TaskController.SetFailed | internal/controller/agenttask_controller.go:319-325 | Fails the task, keeping an end time it already has |
| TaskController.HandlePending | internal/controller/agenttask_controller.go:96-136 | Validation, gate and secret check in this order, with exactly the lookups and the one status call they lead to |
| TaskController.HandleInitializing | internal/controller/agenttask_controller.go:138-181 | Adopts a pod that is there or appears, else creates the owned pod and records start and branch; errors are retried without a write |
| TaskController.HandleRunning | internal/controller/agenttask_controller.go:183-228 | Acts on the recorded pod's phase; deletes it and fails the task past its timeout |
| TaskController.HandleCreatingMR | internal/controller/agenttask_controller.go:230-285 | Resolves the token, then makes at most one request and records its outcome |
| TaskController.RequestOptions | internal/controller/agenttask_controller.go:243-267 | Stored or derived source branch, target or base branch, default platform |
| TaskController.CreatePullRequest | internal/gitops/gitops.go:61-70 | Posts once if platform and URL give an address, and otherwise fails without a call |
| TaskController.HandleDeletion | internal/controller/agenttask_controller.go:287-302 | Deletes the recorded pod if it is found, then always drops the finalizer |
| TaskController.ResolveSecretValue | internal/controller/agenttask_controller.go:328-353 | No reference resolves to the empty value without a lookup; otherwise the one secret named is read and the key, or the first entry met, looked up |
| Handlers.ResolvesExactly | internal/controller/agenttask_controller.go:338-352 | Without a key a secret resolves exactly when it has an entry, to the first one met; with a key exactly when there is an entry under it |
| Handlers.ValueIsStored | internal/controller/agenttask_controller.go:347-352 | In a secret with one value for each key, the value found is the one stored under that key |
| TaskController.QueriesLaw | internal/controller/agenttask_controller.go:120-125 | Which object each lookup asks for, phase by phase |
| TaskRuns.DecisionIsCarried | internal/controller/agenttask_controller.go:94-285 | The calls of a decision, carried out by store and cluster, leave task, pod and work queue as the lifecycle's act and write do |
| TaskRuns.FinalizerIsCarried | internal/controller/agenttask_controller.go:70-76 | The finalizer update is the lifecycle's step, and the reconcile goes on with the object it stored |
| TaskRuns.CleanupIsCarried | internal/controller/agenttask_controller.go:287-302 | The calls of a deletion are the lifecycle's clean-up and release, the object going with its last finalizer |
| TaskController.Reconcile | internal/controller/agenttask_controller.go:57-94 | Deletion first, then the finalizer, then the decision for the phase: exactly those lookups, calls, field changes and verdict |
| PodBuilder.AgentSeesBranches | internal/podbuilder/podbuilder.go:58-132 | Whatever the provider's builder adds, the agent sees the branch that was checked out for it and the target branch |
| PodBuilder.AgentSeesTask | internal/podbuilder/podbuilder.go:122-132 | The agent sees description, model, repository, agent type and workspace as written, whatever the builder adds |
| PodBuilder.AgentSeesProvider | internal/podbuilder/cloud.go:60-93 | An ollama agent sees its model server, another its key from the secret its author named, under the name its agent type reads, and neither sees the other |
| PodBuilder.NamesAreApart | internal/podbuilder/podbuilder.go:64-83 | Different tasks get different pods, and different branches unless the author names them |
| PodBuilder.EnvValueAt | internal/podbuilder/cloud.go:27-29 | A variable keeps its value when no later one has its name |
| Operator.StepIsWrite | internal/controller/agenttask_controller.go:57-94 | Any step of a task is, for the pool, a write that grants nothing and starts nobody except through the gate |
| Operator.GrantOnCell | internal/controller/agentpool_controller.go:94-98 | A grant does to the stored task what the pool believes it does |
| AgentTypes.SlotOpensGate | internal/controller/agentpool_controller.go:91-95 | A grant sets one annotation and nothing else, and that opens the gate |
| Operator.PoolSeesRun | ARCHITECTURE.md:242 | Every run of the whole operator is, for the pool, a run of the pool system |
| Operator.TasksSeeRuns | ARCHITECTURE.md:242 | Every run of the whole operator is, for each task, a run of its lifecycle |
| Operator.ActiveWithinLimit | internal/controller/agentpool_controller.go:76-101 | In every run of both controllers over any number of tasks, the tasks in an active phase never exceed the largest limit read |
| Operator.StatusWritesBounded | internal/controller/agenttask_controller.go:78-94 | n tasks together see at most 4n accepted status writes in any run |
| GitOps.GitHubRoundTrip | internal/gitops/gitops.go:72-85 | HTTPS or SSH, with or without `.git`, for all strings: the printed URL parses back to owner and repository if and only if the separator conditions hold |
| GitOps.GitLabRoundTrip | internal/gitops/gitops.go:138-161 | The same for GitLab host and path |
| GitOps.PrintedFormsAgree | internal/gitops/gitops.go:72-85 | All four printed forms of an ordinary repository give the same pair, for both platforms |
| GitOps.GitHubParsed | internal/gitops/gitops.go:72-85 | For every string: the pair found, put together, is what is left of the URL between known ends, and parsing fails exactly if no slash is left there |
| GitOps.GitLabParsed | internal/gitops/gitops.go:138-161 | Likewise, cut at the first slash after `https://` and at the first colon otherwise |
| GitOps.KnownPlatforms | internal/gitops/gitops.go:61-70 | A request has an address exactly if its platform is `github` or `gitlab` and its URL can be read for it |
| GitOps.GitHubAddressed | internal/gitops/gitops.go:105 | Every printed form of an ordinary GitHub repository is posted to that owner and repository |
| GitOps.GitLabAddressed | internal/gitops/gitops.go:163-185 | Every printed form of a GitLab project is posted to its host, under one segment that decodes to the project path |
| GitOps.GitHubAddressesApart | internal/gitops/gitops.go:105 | Two repositories never share an address |
| GitOps.SplitOnce | internal/gitops/gitops.go:80-84 | Splits at the first separator, and fails exactly when there is none |
| GitOps.EncodePath | internal/gitops/gitops.go:169-170 | The encoded path has no slash and two more characters for each slash replaced |
| GitOps.EncodingRoundTrip | internal/gitops/gitops.go:169-170 | Percent-decoding (section 2.1 of RFC 3986) the encoded path gives the path back if and only if the path holds no percent triplet |
| GitOps.EncodingInjective | internal/gitops/gitops.go:169-170 | Two paths without triplets never share an encoding |

## Left out

- HTTP requests, JSON payloads, headers and response parsing: creating a merge request is a call that succeeds with a URL or fails.
- Titles, descriptions and auto-merge of merge requests: declared, with no merge behaviour behind auto-merge.
- Pod specifications apart from name, owner, environment and the branches cloned; images, volumes, probes, GPU quantities, labels.
- The order in which a secret's map is gone through: any order of its entries may be met.
- Duration text: a timeout is a duration or unparsable, which means thirty minutes (the code also falls back for text it cannot parse; the documentation only speaks of a default).
- Message texts: a status message is kept as what it says, not as a formatted string.
- `truncate` and `getExitCode`: small and without consequences for the properties here.
- Finalizers other than the operator's own, and fields of the status that nothing writes (`outputSummary`, `conditions`).
- The error path of the pod builders (internal/controller/agenttask_controller.go:157-159): no builder ever fails.
- Failed reads of a pool or task and failed list calls: they end the reconcile before anything happens.
- The field index behind `spec.poolRef` (internal/controller/agentpool_controller.go:142): listing by it is modelled as working, although the setup registers no such index.
- Label selectors: which tasks a selector matches is not modelled, only that a complete set of the pool's tasks is listed.
- `queueStrategy: priority` and the pool's defaults for timeout and resources: declared, with no behaviour behind them.
- Live pods: the bound is about task phases; a pod may still be terminating when its task has failed or is gone.
- Fairness: nothing says that a scheduled wakeup is served; `LifecycleTimeouts` takes prompt service as a condition on the run.
- Several pools sharing one task, and clocks shared between tasks: each task of `Operator` tells its own time.
- Wiring, logging, generated code, manifests, images, entrypoint scripts and end-to-end utilities.
