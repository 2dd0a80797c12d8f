/** The task's reconcile as it is written: handlers that assign the fields of the object they read,
    step by step, and send what they changed. */
module TaskController {
  import opened AgentTypes
  import opened PodBuilder
  import opened GitOps
  import opened Handlers
  import opened HandlerLaws

  /** A task object in the controller's memory. */
  class AgentTask {
    const name: string
    const created: Time
    const spec: TaskSpec
    const annotations: map<string, string>
    const deleting: bool
    var version: nat
    var finalizer: bool
    var phase: Phase
    var podName: string
    var branchName: string
    var mergeRequestURL: string
    var message: Message
    var startTime: Option<Time>
    var endTime: Option<Time>
    var exitCode: Option<int>

    constructor (t: Task)
      ensures Value() == t
    {
      name, created, spec, annotations, deleting := t.name, t.created, t.spec, t.annotations, t.deleting;
      version, finalizer := t.version, t.finalizer;
      phase, podName, branchName := t.status.phase, t.status.podName, t.status.branchName;
      mergeRequestURL, message := t.status.mergeRequestURL, t.status.message;
      startTime, endTime, exitCode := t.status.startTime, t.status.endTime, t.status.exitCode;
    }

    function Status(): TaskStatus
      reads this
    {
      TaskStatus(phase, podName, branchName, mergeRequestURL, message, startTime, endTime, exitCode)
    }

    function Value(): Task
      reads this
    {
      Task(name, created, version, annotations, finalizer, deleting, spec, Status())
    }
  }

  /** A request that changes something outside the controller. */
  datatype Call =
    | CreateCall(pod: Pod)
    | DeleteCall(name: string)
    | PostCall(request: Request)
    | StatusCall(task: Task)
    | UpdateCall(task: Task)

  /** A request that only reads. */
  datatype Query = SecretQuery(name: string) | PodQuery(name: string)

  /** The clients of one reconcile: the answers they will give, the times they will tell, and the
      queries and calls made so far. */
  class Client {
    const ans: Answers
    const t1: Time
    const t2: Time
    const statusOk: bool
    const updateOk: bool
    ghost var queries: seq<Query>
    ghost var calls: seq<Call>

    constructor (ans: Answers, t1: Time, t2: Time, statusOk: bool, updateOk: bool)
      ensures this.ans == ans && this.t1 == t1 && this.t2 == t2
      ensures this.statusOk == statusOk && this.updateOk == updateOk
      ensures queries == [] && calls == []
    {
      this.ans, this.t1, this.t2, this.statusOk, this.updateOk := ans, t1, t2, statusOk, updateOk;
      queries, calls := [], [];
    }

    method GetSecret(ref: SecretKeyRef) returns (answer: Lookup)
      modifies this`queries
      ensures answer == ans.secret && queries == old(queries) + [SecretQuery(ref.name)]
    {
      queries := queries + [SecretQuery(ref.name)];
      answer := ans.secret;
    }

    method GetPod(name: string) returns (answer: PodAnswer)
      modifies this`queries
      ensures answer == ans.pod && queries == old(queries) + [PodQuery(name)]
    {
      queries := queries + [PodQuery(name)];
      answer := ans.pod;
    }

    method SetOwner(pod: Pod, owner: string) returns (ok: bool, owned: Pod)
      ensures ok == ans.ownerSet && (ok ==> owned == WithOwner(pod, owner))
    {
      ok, owned := ans.ownerSet, WithOwner(pod, owner);
    }

    method Create(pod: Pod) returns (answer: CreateAnswer)
      modifies this`calls
      ensures answer == ans.create && calls == old(calls) + [CreateCall(pod)]
    {
      answer := ans.create;
      calls := calls + [CreateCall(pod)];
    }

    method Delete(name: string)
      modifies this`calls
      ensures calls == old(calls) + [DeleteCall(name)]
    {
      calls := calls + [DeleteCall(name)];
    }

    method ReadSecret(name: string) returns (data: Result<SecretData>)
      modifies this`queries
      ensures data == ans.credentials && queries == old(queries) + [SecretQuery(name)]
    {
      queries := queries + [SecretQuery(name)];
      data := ans.credentials;
    }

    method Post(address: string, opts: PROptions) returns (url: Result<string>)
      modifies this`calls
      ensures url == ans.post && calls == old(calls) + [PostCall(Request(address, opts))]
    {
      url := ans.post;
      calls := calls + [PostCall(Request(address, opts))];
    }

    method UpdateStatus(task: AgentTask) returns (ok: bool)
      modifies this`calls
      ensures ok == statusOk && calls == old(calls) + [StatusCall(task.Value())]
    {
      ok := statusOk;
      calls := calls + [StatusCall(task.Value())];
    }

    /** An update of anything but the status; an accepted one leaves the object at its new version. */
    method Update(task: AgentTask) returns (ok: bool)
      modifies this`calls, task`version
      ensures ok == updateOk && calls == old(calls) + [UpdateCall(old(task.Value()))]
      ensures task.version == if ok then old(task.version) + 1 else old(task.version)
    {
      calls := calls + [UpdateCall(task.Value())];
      ok := updateOk;
      if ok {
        task.version := task.version + 1;
      }
    }
  }

  // ----- what a decision comes to

  /** The calls that carry out a decision on `t`. */
  function CallsFor(t: Task, d: Decision): seq<Call> {
    (match d.effect
     case NoEffect => []
     case CreatePod(pod) => [CreateCall(pod)]
     case DeletePod(name) => [DeleteCall(name)]
     case PostMR(request) => [PostCall(request)])
    + if d.next.Persist? then [StatusCall(t.(status := d.next.status))] else []
  }

  function VerdictFor(d: Decision, statusOk: bool): Verdict {
    match d.next
    case Stop(verdict) => verdict
    case Persist(status) => VerdictOf(status, statusOk)
  }

  /** The object in memory afterwards. */
  function TaskAfter(t: Task, d: Decision): Task {
    if d.next.Persist? then t.(status := d.next.status) else t
  }

  /** The reconcile of `t` did what was decided, no more and no less. */
  ghost predicate CarriesOut(t: Task, d: Decision, after: Task, before: seq<Call>, calls: seq<Call>,
                             verdict: Verdict, statusOk: bool) {
    calls == before + CallsFor(t, d) && after == TaskAfter(t, d) && verdict == VerdictFor(d, statusOk)
  }

  // ----- what is looked up

  /** A waiting task looks for its key only once it is valid and may start. */
  function PendingQueries(t: Task): seq<Query> {
    if t.spec.description != "" && t.spec.git.repoURL != "" && t.spec.git.baseBranch != "" && MayStart(t)
       && t.spec.modelProvider == "cloud" && t.spec.apiKeySecretRef.Some?
    then [SecretQuery(t.spec.apiKeySecretRef.value.name)] else []
  }

  function CredentialQueries(spec: TaskSpec): seq<Query> {
    if spec.gitCredentialsSecretRef == None then [] else [SecretQuery(spec.gitCredentialsSecretRef.value.name)]
  }

  function RecordedPodQuery(t: Task): seq<Query> {
    if t.status.podName == "" then [] else [PodQuery(t.status.podName)]
  }

  /** The lookups of a reconcile: each answer it uses is about the object it asked for. */
  function QueriesFor(t: Task): seq<Query> {
    match t.status.phase
    case Unset | Pending => PendingQueries(t)
    case Initializing => [PodQuery(PodNameFor(t.name))]
    case Running => RecordedPodQuery(t)
    case CreatingMR => CredentialQueries(t.spec)
    case PushingBranch | Succeeded | Failed => []
  }

  /** Which lookups these are, phase by phase: the key of a task that may start, the task's own pod, the pod
      that is recorded, the credentials. */
  lemma QueriesLaw(t: Task)
    ensures t.status.phase in {Unset, Pending} ==>
              QueriesFor(t) == if IsComplete(t.spec) && GateOpen(t) && NeedsKey(t.spec)
                               then [SecretQuery(t.spec.apiKeySecretRef.value.name)] else []
    ensures t.status.phase == Initializing ==> QueriesFor(t) == [PodQuery("agent-" + t.name)]
    ensures t.status.phase == Running && t.status.podName != "" ==> QueriesFor(t) == [PodQuery(t.status.podName)]
    ensures t.status.phase == CreatingMR ==>
              QueriesFor(t) == if t.spec.gitCredentialsSecretRef.Some?
                               then [SecretQuery(t.spec.gitCredentialsSecretRef.value.name)] else []
    ensures t.status.phase in {Succeeded, Failed, PushingBranch} ==> QueriesFor(t) == []
    ensures t.status.podName != "" ==> RecordedPodQuery(t) == [PodQuery(t.status.podName)]
  {
  }

  // ----- handlers

  method SetPhase(client: Client, task: AgentTask, phase: Phase, message: Message) returns (verdict: Verdict)
    modifies client`calls, task
    ensures task.Value() == old(task.Value()).(status := Advance(old(task.Status()), phase, message))
    ensures client.calls == old(client.calls) + [StatusCall(task.Value())]
    ensures verdict == VerdictOf(task.Status(), client.statusOk)
  {
    task.phase := phase;
    task.message := message;
    var ok := client.UpdateStatus(task);
    if !ok {
      return Retry;
    }
    if phase != Succeeded && phase != Failed {
      return RequeueNow;
    }
    return Done;
  }

  method SetFailed(client: Client, task: AgentTask, message: Message) returns (verdict: Verdict)
    modifies client`calls, task
    ensures task.Value() == old(task.Value()).(status := Fail(old(task.Status()), message, client.t2))
    ensures client.calls == old(client.calls) + [StatusCall(task.Value())]
    ensures verdict == VerdictOf(task.Status(), client.statusOk)
  {
    if task.endTime == None {
      task.endTime := Some(Truncate(client.t2));
    }
    verdict := SetPhase(client, task, Failed, message);
  }

  method HandlePending(client: Client, task: AgentTask) returns (verdict: Verdict)
    modifies client, task
    ensures var t := old(task.Value());
            CarriesOut(t, Just(DecidePending(t, client.ans.secret, client.t2)), task.Value(), old(client.calls),
                       client.calls, verdict, client.statusOk)
    ensures client.queries == old(client.queries) + PendingQueries(old(task.Value()))
  {
    if task.spec.description == "" {
      verdict := SetFailed(client, task, DescriptionRequired);
      return;
    }
    if task.spec.git.repoURL == "" {
      verdict := SetFailed(client, task, RepoURLRequired);
      return;
    }
    if task.spec.git.baseBranch == "" {
      verdict := SetFailed(client, task, BaseBranchRequired);
      return;
    }
    if task.spec.poolRef != "" {
      var granted := if SLOT_GRANTED in task.annotations then task.annotations[SLOT_GRANTED] else "";
      if granted != "true" {
        return RequeueAfter(POLL_INTERVAL);
      }
    }
    if task.spec.modelProvider == "cloud" && task.spec.apiKeySecretRef.Some? {
      var answer := client.GetSecret(task.spec.apiKeySecretRef.value);
      if answer == NotFound {
        verdict := SetFailed(client, task, APIKeySecretMissing);
        return;
      }
      if answer == Unreadable {
        return Retry;
      }
    }
    verdict := SetPhase(client, task, Initializing, Validated);
  }

  method HandleInitializing(client: Client, task: AgentTask) returns (verdict: Verdict)
    modifies client, task
    ensures var t := old(task.Value());
            CarriesOut(t, DecideInitializing(t, client.ans, client.t2), task.Value(), old(client.calls),
                       client.calls, verdict, client.statusOk)
    ensures client.queries == old(client.queries) + [PodQuery(PodNameFor(task.name))]
  {
    var podName := PodNameFor(task.name);
    var existing := client.GetPod(podName);
    if existing.PodFound? {
      task.podName := podName;
      verdict := SetPhase(client, task, Running, PodIsRunning);
      return;
    }
    if existing != PodNotFound {
      return Retry;
    }
    var pod := Build(task.Value());
    var ok, owned := client.SetOwner(pod, task.name);
    if !ok {
      return Retry;
    }
    var answer := client.Create(owned);
    if answer == AlreadyExists {
      task.podName := podName;
      verdict := SetPhase(client, task, Running, PodIsRunning);
      return;
    }
    if answer == CreateFailed {
      return Retry;
    }
    task.podName := owned.name;
    task.startTime := Some(Truncate(client.t2));
    task.branchName := WorkBranchFor(task.name, task.spec.git);
    verdict := SetPhase(client, task, Running, PodWasCreated);
  }

  method HandleRunning(client: Client, task: AgentTask) returns (verdict: Verdict)
    modifies client, task
    ensures var t := old(task.Value());
            CarriesOut(t, DecideRunning(t, client.ans.pod, client.t1, client.t2), task.Value(), old(client.calls),
                       client.calls, verdict, client.statusOk)
    ensures client.queries == old(client.queries) + RecordedPodQuery(old(task.Value()))
  {
    if task.podName == "" {
      verdict := SetFailed(client, task, PodNameNotSet);
      return;
    }
    var pod := client.GetPod(task.podName);
    if pod == PodNotFound {
      verdict := SetFailed(client, task, PodWasDeleted);
      return;
    }
    if pod == PodUnreadable {
      return Retry;
    }
    match pod.phase {
      case PodSucceeded =>
        verdict := SetPhase(client, task, CreatingMR, AgentCompleted);
      case PodFailed =>
        task.exitCode := pod.exitCode;
        verdict := SetFailed(client, task, PodFailedWith(pod.exitCode));
      case _ =>
        verdict := CheckTimeout(client, task);
    }
  }

  /** A pod still at work: past its timeout it is deleted and the task fails, else it is polled again. */
  method CheckTimeout(client: Client, task: AgentTask) returns (verdict: Verdict)
    modifies client`calls, task
    ensures var t := old(task.Value());
            CarriesOut(t, DecideTimeout(t, client.t1, client.t2), task.Value(), old(client.calls),
                       client.calls, verdict, client.statusOk)
  {
    if task.startTime.Some? {
      var timeout := match task.spec.timeout case Some(d) => d case None => DEFAULT_TIMEOUT;
      if client.t1 - task.startTime.value > timeout {
        client.Delete(task.podName);
        verdict := SetFailed(client, task, TimedOut(timeout));
        return;
      }
    }
    return RequeueAfter(POLL_INTERVAL);
  }

  method ResolveSecretValue(client: Client, ref: Option<SecretKeyRef>) returns (value: Result<string>)
    modifies client`queries
    ensures value == ResolveSecret(ref, client.ans.credentials)
    ensures client.queries == old(client.queries) + if ref == None then [] else [SecretQuery(ref.value.name)]
  {
    if ref == None {
      return Success("");
    }
    var secret := client.ReadSecret(ref.value.name);
    if secret.Failure? {
      return Failure;
    }
    var key := ref.value.key;
    if key == "" {
      for i := 0 to |secret.value|
        invariant i == 0 && key == ""
      {
        key := secret.value[i].0;
        break;
      }
    }
    var found := ValueOf(secret.value, key);
    if found == None {
      return Failure;
    }
    return Success(found.value);
  }

  method HandleCreatingMR(client: Client, task: AgentTask) returns (verdict: Verdict)
    modifies client, task
    ensures var t := old(task.Value());
            CarriesOut(t, DecideCreatingMR(t, client.ans, client.t2), task.Value(), old(client.calls),
                       client.calls, verdict, client.statusOk)
    ensures client.queries == old(client.queries) + CredentialQueries(task.spec)
  {
    var token := ResolveSecretValue(client, task.spec.gitCredentialsSecretRef);
    if token.Failure? {
      verdict := SetFailed(client, task, CredentialsUnresolved);
      return;
    }
    if token.value == "" {
      verdict := SetFailed(client, task, CredentialsNotConfigured);
      return;
    }
    var opts := RequestOptions(task, token.value);
    verdict := RequestMR(client, task, opts);
  }

  method RequestOptions(task: AgentTask, token: string) returns (opts: PROptions)
    ensures opts == MROptions(task.Value(), token)
  {
    var branchName := task.branchName;
    if branchName == "" {
      branchName := WorkBranchFor(task.name, task.spec.git);
    }
    var targetBranch := task.spec.git.targetBranch;
    if targetBranch == "" {
      targetBranch := task.spec.git.baseBranch;
    }
    var platform := task.spec.git.platform;
    if platform == "" {
      platform := "github";
    }
    opts := PROptions(platform, task.spec.git.repoURL, branchName, targetBranch, token);
  }

  method RequestMR(client: Client, task: AgentTask, opts: PROptions) returns (verdict: Verdict)
    modifies client`calls, task
    ensures var t := old(task.Value());
            CarriesOut(t, DecideRequest(t, opts, client.ans.post, client.t2), task.Value(), old(client.calls),
                       client.calls, verdict, client.statusOk)
  {
    RequestFacts(task.Value(), opts, client.ans.post, client.t2);
    var result := CreatePullRequest(client, opts);
    if result.Failure? {
      verdict := SetFailed(client, task, MRNotCreated);
      return;
    }
    verdict := SetSucceeded(client, task, result.value);
  }

  lemma RequestFacts(t: Task, opts: PROptions, post: Result<string>, now: Time)
    ensures var d, address := DecideRequest(t, opts, post, now), RequestURL(opts);
            && d.next == Persist(if address.Success? && post.Success? then Succeed(t.status, post.value, now)
                                 else Fail(t.status, MRNotCreated, now))
            && d.effect == if address.Success? then PostMR(Request(address.value, opts)) else NoEffect
  {
  }

  method SetSucceeded(client: Client, task: AgentTask, url: string) returns (verdict: Verdict)
    modifies client`calls, task
    ensures task.Value() == old(task.Value()).(status := Succeed(old(task.Status()), url, client.t2))
    ensures client.calls == old(client.calls) + [StatusCall(task.Value())]
    ensures verdict == VerdictOf(task.Status(), client.statusOk)
  {
    task.mergeRequestURL := url;
    task.endTime := Some(Truncate(client.t2));
    verdict := SetPhase(client, task, Succeeded, MRWasCreated);
  }

  /** Nothing is posted unless the platform and the URL give an address. */
  method CreatePullRequest(client: Client, opts: PROptions) returns (result: Result<string>)
    modifies client`calls
    ensures RequestURL(opts).Success? ==>
              && result == client.ans.post
              && client.calls == old(client.calls) + [PostCall(Request(RequestURL(opts).value, opts))]
    ensures RequestURL(opts).Failure? ==> result.Failure? && client.calls == old(client.calls)
  {
    var address := RequestURL(opts);
    if address.Failure? {
      return Failure;
    }
    result := client.Post(address.value, opts);
  }

  /** The calls that clean up a task marked for deletion. */
  function CleanupCalls(t: Task, pod: PodAnswer): seq<Call> {
    (if t.status.podName != "" && pod.PodFound? then [DeleteCall(t.status.podName)] else [])
    + [UpdateCall(t.(finalizer := false))]
  }

  /** The object in memory after an update that was accepted or refused. */
  function Updated(t: Task, ok: bool): Task {
    if ok then t.(version := t.version + 1) else t
  }

  method HandleDeletion(client: Client, task: AgentTask) returns (verdict: Verdict)
    modifies client, task
    ensures client.calls == old(client.calls) + CleanupCalls(old(task.Value()), client.ans.pod)
    ensures client.queries == old(client.queries) + RecordedPodQuery(old(task.Value()))
    ensures verdict == (if client.updateOk then Done else Retry)
    ensures task.Value() == Updated(old(task.Value()).(finalizer := false), client.updateOk)
  {
    if task.podName != "" {
      var pod := client.GetPod(task.podName);
      if pod.PodFound? {
        client.Delete(task.podName);
      }
    }
    task.finalizer := false;
    var ok := client.Update(task);
    verdict := if ok then Done else Retry;
  }

  // ----- the reconcile

  method Dispatch(client: Client, task: AgentTask) returns (verdict: Verdict)
    modifies client, task
    ensures var t := old(task.Value());
            CarriesOut(t, Decide(t, client.ans, client.t1, client.t2), task.Value(), old(client.calls),
                       client.calls, verdict, client.statusOk)
    ensures client.queries == old(client.queries) + QueriesFor(old(task.Value()))
  {
    match task.phase {
      case Unset | Pending => verdict := HandlePending(client, task);
      case Initializing => verdict := HandleInitializing(client, task);
      case Running => verdict := HandleRunning(client, task);
      case CreatingMR => verdict := HandleCreatingMR(client, task);
      case Succeeded | Failed => verdict := Done;
      case PushingBranch => verdict := Done;
    }
  }

  /** Adds the finalizer if it is missing. */
  method EnsureFinalizer(client: Client, task: AgentTask) returns (ok: bool)
    modifies client`calls, task
    ensures ok == (old(task.finalizer) || client.updateOk)
    ensures client.calls == old(client.calls) + FinalizerCalls(old(task.Value()))
    ensures task.Value() == WithFinalizer(old(task.Value()), ok)
  {
    if !task.finalizer {
      task.finalizer := true;
      ok := client.Update(task);
    } else {
      ok := true;
    }
  }

  function FinalizerCalls(t: Task): seq<Call> {
    if t.finalizer then [] else [UpdateCall(t.(finalizer := true))]
  }

  /** The object in memory once its finalizer is in place, stored or not. */
  function WithFinalizer(t: Task, ok: bool): Task {
    if t.finalizer then t else Updated(t.(finalizer := true), ok)
  }

  /** One reconcile of an object that was read: deletion first, then the finalizer, then what the
      phase calls for. */
  method Reconcile(client: Client, task: AgentTask) returns (verdict: Verdict)
    modifies client, task
    // A task marked for deletion: its pod is dealt with and the finalizer goes; nothing else.
    ensures task.deleting ==>
              && client.calls == old(client.calls) + CleanupCalls(old(task.Value()), client.ans.pod)
              && client.queries == old(client.queries) + RecordedPodQuery(old(task.Value()))
              && task.Value() == Updated(old(task.Value()).(finalizer := false), client.updateOk)
              && verdict == (if client.updateOk then Done else Retry)
    // A finalizer that cannot be added ends the reconcile.
    ensures !task.deleting && !old(task.finalizer) && !client.updateOk ==>
              && client.calls == old(client.calls) + FinalizerCalls(old(task.Value()))
              && client.queries == old(client.queries) && verdict == Retry
    // Otherwise the decision is carried out.
    ensures !task.deleting && (old(task.finalizer) || client.updateOk) ==>
              var t := WithFinalizer(old(task.Value()), true);
              && CarriesOut(t, Decide(t, client.ans, client.t1, client.t2), task.Value(),
                            old(client.calls) + FinalizerCalls(old(task.Value())), client.calls, verdict,
                            client.statusOk)
              && client.queries == old(client.queries) + QueriesFor(t)
  {
    if task.deleting {
      verdict := HandleDeletion(client, task);
      return;
    }
    var ok := EnsureFinalizer(client, task);
    if !ok {
      return Retry;
    }
    verdict := Dispatch(client, task);
  }
}
