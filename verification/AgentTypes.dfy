/** The custom resources of the operator: the AgentTask object, its phases and its stored status. */
module AgentTypes {

  datatype Option<+T> = None | Some(value: T)

  datatype Result<+T> = Success(value: T) | Failure

  /** Wall-clock time and durations, in nanoseconds. */
  type Time = int

  /** What becomes of a request to the object store: it arrives and is answered, it never arrives, or
      it arrives and the answer is lost. */
  datatype Reply = Answered | Dropped | AnswerLost

  const SECOND: Time := 1_000_000_000

  /** A stored timestamp keeps whole seconds only. */
  function Truncate(t: Time): (r: Time)
    ensures t - SECOND < r <= t
    ensures r % SECOND == 0
  {
    t / SECOND * SECOND
  }

  datatype Phase =
    | Unset
    | Pending
    | Initializing
    | Running
    | PushingBranch
    | CreatingMR
    | Succeeded
    | Failed

  predicate IsQueued(p: Phase) {
    p == Unset || p == Pending
  }

  predicate IsActive(p: Phase) {
    p == Running || p == Initializing || p == PushingBranch || p == CreatingMR
  }

  predicate IsTerminal(p: Phase) {
    p == Succeeded || p == Failed
  }

  /** Position of a phase along the lifecycle; both terminal phases come last. */
  function Rank(p: Phase): nat {
    match p
    case Unset => 0
    case Pending => 0
    case Initializing => 1
    case Running => 2
    case PushingBranch => 2
    case CreatingMR => 3
    case Succeeded => 4
    case Failed => 4
  }

  datatype GitSpec = GitSpec(repoURL: string, baseBranch: string, targetBranch: string,
                             workBranch: string, platform: string)

  datatype SecretKeyRef = SecretKeyRef(name: string, key: string)

  /** `timeout` is the parsed duration: None when the text does not parse. */
  datatype TaskSpec = TaskSpec(description: string, modelProvider: string, modelName: string,
                               agentType: string, git: GitSpec,
                               apiKeySecretRef: Option<SecretKeyRef>,
                               gitCredentialsSecretRef: Option<SecretKeyRef>,
                               timeout: Option<Time>, poolRef: string)

  /** What a status message says; the formatted text itself is not kept. */
  datatype Message =
    | NoMessage
    | Validated
    | PodIsRunning
    | PodWasCreated
    | AgentCompleted
    | MRWasCreated
    | DescriptionRequired
    | RepoURLRequired
    | BaseBranchRequired
    | APIKeySecretMissing
    | PodNameNotSet
    | PodWasDeleted
    | PodFailedWith(exitCode: Option<int>)
    | TimedOut(timeout: Time)
    | CredentialsUnresolved
    | CredentialsNotConfigured
    | MRNotCreated

  datatype TaskStatus = TaskStatus(phase: Phase, podName: string, branchName: string,
                                   mergeRequestURL: string, message: Message,
                                   startTime: Option<Time>, endTime: Option<Time>,
                                   exitCode: Option<int>)

  const FRESH_STATUS := TaskStatus(Unset, "", "", "", NoMessage, None, None, None)

  /** An AgentTask as one version of it sits in the object store. */
  datatype Task = Task(name: string, created: Time, version: nat,
                       annotations: map<string, string>, finalizer: bool, deleting: bool,
                       spec: TaskSpec, status: TaskStatus)

  const SLOT_GRANTED := "kbrain.io/pool-slot-granted"

  predicate Granted(t: Task) {
    SLOT_GRANTED in t.annotations && t.annotations[SLOT_GRANTED] == "true"
  }

  /** The slot gate lets a task through when it names no pool or its slot is granted. */
  predicate MayStart(t: Task) {
    t.spec.poolRef == "" || Granted(t)
  }

  /** The object the pool controller sends to the store when it grants a slot. */
  function WithSlot(t: Task): Task {
    t.(annotations := t.annotations[SLOT_GRANTED := "true"])
  }

  /** Granting sets one annotation, opens the gate, and changes nothing else. */
  lemma SlotOpensGate(t: Task)
    ensures WithSlot(t) == t.(annotations := t.annotations["kbrain.io/pool-slot-granted" := "true"])
    ensures Granted(t) <==> "kbrain.io/pool-slot-granted" in t.annotations.Keys
                            && t.annotations["kbrain.io/pool-slot-granted"] == "true"
    ensures Granted(WithSlot(t)) && MayStart(WithSlot(t))
    ensures MayStart(t) <==> t.spec.poolRef == "" || Granted(t)
  {
  }

  /** Some later version of the same task: identity and order of creation never change, a phase
      only moves forward, and a granted slot stays granted. */
  ghost predicate LaterVersion(t: Task, u: Task) {
    && u.name == t.name && u.created == t.created && u.spec.poolRef == t.spec.poolRef
    && t.version <= u.version
    && (t.version == u.version ==> t == u)
    && Rank(t.status.phase) <= Rank(u.status.phase)
    && (Granted(t) ==> Granted(u))
  }

  /** One write by someone other than the pool: it grants nothing, and it starts a waiting task only
      through the gate. */
  ghost predicate WritesOver(t: Task, u: Task) {
    && LaterVersion(t, u)
    && (Granted(u) ==> Granted(t))
    && (IsQueued(t.status.phase) && IsActive(u.status.phase) ==> MayStart(t))
  }
}
