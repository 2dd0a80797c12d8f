/** What one reconcile of a task decides: the effect it has outside the store and the status it then
    wants to write, as a function of the object it read and of the answers it got. */
module Handlers {
  import opened AgentTypes
  import opened PodBuilder
  import opened GitOps

  datatype Lookup = Found | NotFound | Unreadable

  datatype PodAnswer = PodFound(phase: PodPhase, exitCode: Option<int>) | PodNotFound | PodUnreadable

  datatype CreateAnswer = PodCreated | AlreadyExists | CreateFailed

  /** The entries of a secret, in the order in which its map is gone through. */
  type SecretData = seq<(string, string)>

  /** Every answer a reconcile may ask for. `credentials` is what reading the credentials secret gives. */
  datatype Answers = Answers(secret: Lookup, pod: PodAnswer, ownerSet: bool, create: CreateAnswer,
                             credentials: Result<SecretData>, post: Result<string>)

  datatype Effect =
    | NoEffect
    | CreatePod(pod: Pod)
    | DeletePod(name: string)
    | PostMR(request: Request)

  /** How a reconcile asks to be called again. `Retry` is a returned error. */
  datatype Verdict = Done | RequeueNow | RequeueAfter(delay: Time) | Retry

  datatype Next = Stop(verdict: Verdict) | Persist(status: TaskStatus)

  datatype Decision = Decision(effect: Effect, next: Next)

  const POLL_INTERVAL: Time := 15 * SECOND
  const DEFAULT_TIMEOUT: Time := 30 * 60 * SECOND

  function TimeoutOf(spec: TaskSpec): Time {
    match spec.timeout
    case Some(d) => d
    case None => DEFAULT_TIMEOUT
  }

  function Advance(s: TaskStatus, phase: Phase, message: Message): TaskStatus {
    s.(phase := phase, message := message)
  }

  function Fail(s: TaskStatus, message: Message, now: Time): TaskStatus {
    Advance(s.(endTime := if s.endTime == None then Some(Truncate(now)) else s.endTime), Failed, message)
  }

  function Succeed(s: TaskStatus, url: string, now: Time): TaskStatus {
    Advance(s.(mergeRequestURL := url, endTime := Some(Truncate(now))), Succeeded, MRWasCreated)
  }

  function Just(next: Next): Decision {
    Decision(NoEffect, next)
  }

  function ValueOf(data: SecretData, key: string): (value: Option<string>)
    ensures value.None? <==> forall i :: 0 <= i < |data| ==> data[i].0 != key
    ensures value.Some? ==> (key, value.value) in data
  {
    if data == [] then None
    else if data[0].0 == key then Some(data[0].1)
    else
      assert forall i :: 0 <= i < |data[1..]| ==> data[1..][i] == data[i + 1];
      ValueOf(data[1..], key)
  }

  /** A secret has one value for each key. */
  predicate OneValueEach(data: SecretData) {
    forall i, j | 0 <= i < j < |data| :: data[i].0 != data[j].0
  }

  lemma ValueIsStored(data: SecretData, key: string, value: string)
    requires OneValueEach(data)
    ensures ValueOf(data, key) == Some(value) <==> (key, value) in data
  {
    if (key, value) in data {
      var i :| 0 <= i < |data| && data[i] == (key, value);
      var found := ValueOf(data, key).value;
      var j :| 0 <= j < |data| && data[j] == (key, found);
    }
  }

  /** The value a secret reference stands for: without a key, that of the first entry met. */
  function ResolveSecret(ref: Option<SecretKeyRef>, read: Result<SecretData>): Result<string> {
    if ref == None then Success("")
    else
      match read
      case Failure => Failure
      case Success(data) =>
        var key := if ref.value.key == "" && data != [] then data[0].0 else ref.value.key;
        match ValueOf(data, key)
        case None => Failure
        case Some(value) => Success(value)
  }

  /** A reference without a key resolves exactly when there is any entry, and one with a key exactly when
      there is an entry under it. */
  lemma ResolvesExactly(ref: SecretKeyRef, data: SecretData)
    ensures ResolveSecret(Some(ref), Failure).Failure?
    ensures ref.key == "" ==>
              ResolveSecret(Some(ref), Success(data)) == if data == [] then Failure else Success(data[0].1)
    ensures ref.key != "" ==>
              (ResolveSecret(Some(ref), Success(data)).Success? <==>
               exists i :: 0 <= i < |data| && data[i].0 == ref.key)
    ensures ref.key != "" && OneValueEach(data) ==>
              forall value :: ResolveSecret(Some(ref), Success(data)) == Success(value) <==> (ref.key, value) in data
  {
    if ref.key != "" && OneValueEach(data) {
      forall value
        ensures ResolveSecret(Some(ref), Success(data)) == Success(value) <==> (ref.key, value) in data
      {
        ValueIsStored(data, ref.key, value);
      }
    }
  }

  function DecidePending(t: Task, secret: Lookup, now: Time): Next {
    if t.spec.description == "" then Persist(Fail(t.status, DescriptionRequired, now))
    else if t.spec.git.repoURL == "" then Persist(Fail(t.status, RepoURLRequired, now))
    else if t.spec.git.baseBranch == "" then Persist(Fail(t.status, BaseBranchRequired, now))
    else if !MayStart(t) then Stop(RequeueAfter(POLL_INTERVAL))
    else if t.spec.modelProvider == "cloud" && t.spec.apiKeySecretRef.Some? && secret == NotFound then
      Persist(Fail(t.status, APIKeySecretMissing, now))
    else if t.spec.modelProvider == "cloud" && t.spec.apiKeySecretRef.Some? && secret == Unreadable then
      Stop(Retry)
    else Persist(Advance(t.status, Initializing, Validated))
  }

  /** The status of a task whose pod was there before this reconcile. */
  function Adopt(t: Task): TaskStatus {
    Advance(t.status.(podName := PodNameFor(t.name)), Running, PodIsRunning)
  }

  /** The status of a task whose pod this reconcile created. */
  function Launch(t: Task, now: Time): TaskStatus {
    Advance(t.status.(podName := PodNameFor(t.name), startTime := Some(Truncate(now)),
                      branchName := WorkBranchFor(t.name, t.spec.git)),
            Running, PodWasCreated)
  }

  function DecideInitializing(t: Task, ans: Answers, now: Time): Decision {
    match ans.pod
    case PodFound(_, _) => Just(Persist(Adopt(t)))
    case PodUnreadable => Just(Stop(Retry))
    case PodNotFound =>
      if !ans.ownerSet then Just(Stop(Retry))
      else
        Decision(CreatePod(WithOwner(Build(t), t.name)),
                 match ans.create
                 case CreateFailed => Stop(Retry)
                 case AlreadyExists => Persist(Adopt(t))
                 case PodCreated => Persist(Launch(t, now)))
  }

  predicate Expired(t: Task, now: Time) {
    t.status.startTime.Some? && now - t.status.startTime.value > TimeoutOf(t.spec)
  }

  function DecideTimeout(t: Task, t1: Time, t2: Time): Decision {
    if Expired(t, t1) then
      Decision(DeletePod(t.status.podName), Persist(Fail(t.status, TimedOut(TimeoutOf(t.spec)), t2)))
    else Just(Stop(RequeueAfter(POLL_INTERVAL)))
  }

  function DecideRunning(t: Task, pod: PodAnswer, t1: Time, t2: Time): Decision {
    if t.status.podName == "" then Just(Persist(Fail(t.status, PodNameNotSet, t2)))
    else
      match pod
      case PodNotFound => Just(Persist(Fail(t.status, PodWasDeleted, t2)))
      case PodUnreadable => Just(Stop(Retry))
      case PodFound(phase, exitCode) =>
        if phase == PodSucceeded then Just(Persist(Advance(t.status, CreatingMR, AgentCompleted)))
        else if phase == PodFailed then
          Just(Persist(Fail(t.status.(exitCode := exitCode), PodFailedWith(exitCode), t2)))
        else DecideTimeout(t, t1, t2)
  }

  function PlatformOf(git: GitSpec): string {
    if git.platform == "" then "github" else git.platform
  }

  function MROptions(t: Task, token: string): PROptions {
    PROptions(PlatformOf(t.spec.git), t.spec.git.repoURL,
              if t.status.branchName == "" then WorkBranchFor(t.name, t.spec.git) else t.status.branchName,
              if t.spec.git.targetBranch == "" then t.spec.git.baseBranch else t.spec.git.targetBranch,
              token)
  }

  /** With the options in hand: nothing is posted without an address, and the answer settles the task. */
  function DecideRequest(t: Task, opts: PROptions, post: Result<string>, now: Time): Decision {
    match RequestURL(opts)
    case Failure => Just(Persist(Fail(t.status, MRNotCreated, now)))
    case Success(address) =>
      Decision(PostMR(Request(address, opts)),
               match post
               case Failure => Persist(Fail(t.status, MRNotCreated, now))
               case Success(url) => Persist(Succeed(t.status, url, now)))
  }

  function DecideCreatingMR(t: Task, ans: Answers, now: Time): Decision {
    match ResolveSecret(t.spec.gitCredentialsSecretRef, ans.credentials)
    case Failure => Just(Persist(Fail(t.status, CredentialsUnresolved, now)))
    case Success(text) =>
      if text == "" then Just(Persist(Fail(t.status, CredentialsNotConfigured, now)))
      else DecideRequest(t, MROptions(t, text), ans.post, now)
  }

  /** The dispatch on the stored phase. `t1` is when a timeout is checked, `t2` when an end or start
      time is taken. */
  function Decide(t: Task, ans: Answers, t1: Time, t2: Time): Decision {
    match t.status.phase
    case Unset => Just(DecidePending(t, ans.secret, t2))
    case Pending => Just(DecidePending(t, ans.secret, t2))
    case Initializing => DecideInitializing(t, ans, t2)
    case Running => DecideRunning(t, ans.pod, t1, t2)
    case CreatingMR => DecideCreatingMR(t, ans, t2)
    case PushingBranch => Just(Stop(Done))
    case Succeeded => Just(Stop(Done))
    case Failed => Just(Stop(Done))
  }

  /** What a reconcile reports after its status write. */
  function VerdictOf(status: TaskStatus, stored: bool): Verdict {
    if !stored then Retry else if IsTerminal(status.phase) then Done else RequeueNow
  }
}
