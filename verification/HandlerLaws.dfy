/** What each handler decides, case by case: for every outcome, exactly when it is the outcome. Nothing here
    refers to how the handlers are put together. */
module HandlerLaws {
  import opened AgentTypes
  import opened PodBuilder
  import opened GitOps
  import opened Handlers

  /** The task fails for a reason, and keeps the rest of its status. */
  predicate FailsWith(n: Next, s: TaskStatus, message: Message, now: Time) {
    n == Persist(TaskStatus(Failed, s.podName, s.branchName, s.mergeRequestURL, message, s.startTime,
                            Some(if s.endTime.Some? then s.endTime.value else Truncate(now)), s.exitCode))
  }

  // ----- waiting tasks

  predicate IsComplete(spec: TaskSpec) {
    spec.description != "" && spec.git.repoURL != "" && spec.git.baseBranch != ""
  }

  /** The task has no pool, or its slot is granted. */
  predicate GateOpen(t: Task) {
    t.spec.poolRef == ""
    || ("kbrain.io/pool-slot-granted" in t.annotations.Keys
        && t.annotations["kbrain.io/pool-slot-granted"] == "true")
  }

  /** The task runs on a cloud model with a key of its author's. */
  predicate NeedsKey(spec: TaskSpec) {
    spec.modelProvider == "cloud" && spec.apiKeySecretRef.Some?
  }

  /** Validation comes first and in order, then the gate, then the key: a missing key fails the task, an
      unreadable one is tried again, and only a key that is found lets it start. */
  lemma PendingLaw(t: Task, ans: Answers, t1: Time, t2: Time)
    requires t.status.phase == Unset || t.status.phase == Pending
    ensures var d := Decide(t, ans, t1, t2);
            var ready := IsComplete(t.spec) && GateOpen(t);
            && d.effect == NoEffect
            && (FailsWith(d.next, t.status, DescriptionRequired, t2) <==> t.spec.description == "")
            && (FailsWith(d.next, t.status, RepoURLRequired, t2) <==>
                t.spec.description != "" && t.spec.git.repoURL == "")
            && (FailsWith(d.next, t.status, BaseBranchRequired, t2) <==>
                t.spec.description != "" && t.spec.git.repoURL != "" && t.spec.git.baseBranch == "")
            && (d.next == Stop(RequeueAfter(15 * SECOND)) <==> IsComplete(t.spec) && !GateOpen(t))
            && (FailsWith(d.next, t.status, APIKeySecretMissing, t2) <==>
                ready && NeedsKey(t.spec) && ans.secret == NotFound)
            && (d.next == Stop(Retry) <==> ready && NeedsKey(t.spec) && ans.secret == Unreadable)
            && (d.next == Persist(t.status.(phase := Initializing, message := Validated)) <==>
                ready && (NeedsKey(t.spec) ==> ans.secret == Found))
  {
  }

  // ----- tasks that get their pod

  predicate CanCreate(ans: Answers) {
    ans.pod == PodNotFound && ans.ownerSet
  }

  /** A pod that is there, or appears in the meantime, is adopted as it is; one that this reconcile creates
      starts the clock; anything else is tried again. */
  lemma InitializingLaw(t: Task, ans: Answers, t1: Time, t2: Time)
    requires t.status.phase == Initializing
    ensures var d, s := Decide(t, ans, t1, t2), t.status;
            && d.effect == (if CanCreate(ans) then CreatePod(Build(t).(owner := Some(t.name))) else NoEffect)
            && (d.next == Persist(s.(phase := Running, message := PodIsRunning, podName := "agent-" + t.name)) <==>
                ans.pod.PodFound? || (CanCreate(ans) && ans.create == AlreadyExists))
            && (d.next == Persist(s.(phase := Running, message := PodWasCreated, podName := "agent-" + t.name,
                                     startTime := Some(Truncate(t2)), branchName := Build(t).cloneBranch)) <==>
                CanCreate(ans) && ans.create == PodCreated)
            && (d.next == Stop(Retry) <==>
                ans.pod == PodUnreadable || (ans.pod == PodNotFound && !ans.ownerSet)
                || (CanCreate(ans) && ans.create == CreateFailed))
  {
  }

  // ----- running tasks

  /** The time a task may take: its author's timeout, or thirty minutes if the text gives none. */
  predicate TimeIsUp(t: Task, now: Time) {
    t.status.startTime.Some?
    && match t.spec.timeout
       case Some(d) => now - t.status.startTime.value > d
       case None => now - t.status.startTime.value > 30 * 60 * SECOND
  }

  predicate AtWork(pod: PodAnswer) {
    pod.PodFound? && pod.phase != PodSucceeded && pod.phase != PodFailed
  }

  predicate HasFailed(pod: PodAnswer) {
    pod.PodFound? && pod.phase == PodFailed
  }

  /** A pod that succeeded moves the task on, one that failed or is gone fails it, and one at work is left
      alone until the task's time is up, and then deleted. */
  lemma RunningLaw(t: Task, ans: Answers, t1: Time, t2: Time)
    requires t.status.phase == Running && t.status.podName != ""
    ensures var d, s, pod := Decide(t, ans, t1, t2), t.status, ans.pod;
            && (d.next == Persist(s.(phase := CreatingMR, message := AgentCompleted)) <==>
                pod.PodFound? && pod.phase == PodSucceeded)
            && (HasFailed(pod) ==>
                  FailsWith(d.next, s.(exitCode := pod.exitCode), PodFailedWith(pod.exitCode), t2))
            && (d.next.Persist? && d.next.status.message.PodFailedWith? <==> HasFailed(pod))
            && (FailsWith(d.next, s, PodWasDeleted, t2) <==> pod == PodNotFound)
            && (d.next == Stop(Retry) <==> pod == PodUnreadable)
            && (d.next == Stop(RequeueAfter(15 * SECOND)) <==> AtWork(pod) && !TimeIsUp(t, t1))
            && (d.effect == DeletePod(s.podName) <==> AtWork(pod) && TimeIsUp(t, t1))
            && (d.effect != NoEffect ==> d.effect.DeletePod?)
            && (AtWork(pod) && TimeIsUp(t, t1) ==>
                  FailsWith(d.next, s, TimedOut(if t.spec.timeout.Some? then t.spec.timeout.value
                                                else 30 * 60 * SECOND), t2))
            && (d.next.Persist? && d.next.status.message.TimedOut? <==> AtWork(pod) && TimeIsUp(t, t1))
  {
  }

  lemma PodlessLaw(t: Task, ans: Answers, t1: Time, t2: Time)
    requires t.status.phase == Running && t.status.podName == ""
    ensures var d := Decide(t, ans, t1, t2); d.effect == NoEffect && FailsWith(d.next, t.status, PodNameNotSet, t2)
  {
  }

  // ----- tasks whose work is done

  /** What the author asked for. */
  function AskedFor(t: Task, token: string): PROptions {
    PROptions(if t.spec.git.platform != "" then t.spec.git.platform else "github", t.spec.git.repoURL,
              if t.status.branchName != "" then t.status.branchName else Build(t).cloneBranch,
              if t.spec.git.targetBranch != "" then t.spec.git.targetBranch else t.spec.git.baseBranch, token)
  }

  /** With a credential and an address one request goes out, and its answer is what is stored. */
  lemma CreatingMRLaw(t: Task, ans: Answers, t1: Time, t2: Time)
    requires t.status.phase == CreatingMR
    ensures var d, s := Decide(t, ans, t1, t2), t.status;
            var token := ResolveSecret(t.spec.gitCredentialsSecretRef, ans.credentials);
            && (FailsWith(d.next, s, CredentialsUnresolved, t2) <==> token.Failure?)
            && (FailsWith(d.next, s, CredentialsNotConfigured, t2) <==> token == Success(""))
            && (token.Success? && token.value != "" ==>
                  var opts := AskedFor(t, token.value);
                  && d.effect == (if RequestURL(opts).Success? then PostMR(Request(RequestURL(opts).value, opts))
                                  else NoEffect)
                  && (FailsWith(d.next, s, MRNotCreated, t2) <==> RequestURL(opts).Failure? || ans.post.Failure?)
                  && (RequestURL(opts).Success? && ans.post.Success? ==>
                        d.next == Persist(s.(phase := Succeeded, message := MRWasCreated,
                                             mergeRequestURL := ans.post.value, endTime := Some(Truncate(t2))))))
            && (d.effect != NoEffect ==> token.Success? && token.value != "")
  {
  }

  /** Nothing is done about a finished task. */
  lemma FinishedLaw(t: Task, ans: Answers, t1: Time, t2: Time)
    requires t.status.phase in {Succeeded, Failed, PushingBranch}
    ensures Decide(t, ans, t1, t2) == Decision(NoEffect, Stop(Done))
  {
  }

  /** A status write that fails is tried again; one that succeeds calls for the next reconcile at once,
      unless the task is finished. */
  lemma WriteLaw(status: TaskStatus)
    ensures VerdictOf(status, false) == Retry
    ensures VerdictOf(status, true) == if status.phase in {Succeeded, Failed} then Done else RequeueNow
  {
  }
}
