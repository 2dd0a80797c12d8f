/** Why the stored status of a task is what it is: every change was decided by an act of the run on the
    version before it, and the answers of that act are its reason. */
module LifecycleCauses {
  import opened AgentTypes
  import opened Handlers
  import opened HandlerLaws
  import opened Lifecycle
  import opened LifecycleHistory
  import opened LifecycleTheorems

  // ----- every change was decided

  /** The action decides to store `s` on reading `t`. */
  ghost predicate Decides(a: Action, t: Task, s: TaskStatus) {
    a.Act? && Decide(t, a.ans, a.t1, a.t2).next == Persist(s)
  }

  ghost predicate Decided(past: seq<Action>, t: Task, s: TaskStatus) {
    exists k :: 0 <= k < |past| && Decides(past[k], t, s)
  }

  predicate Changes(hist: seq<Task>, i: nat)
    requires i + 1 < |hist|
  {
    hist[i + 1].status != hist[i].status
  }

  ghost predicate HistDecided(hist: seq<Task>, past: seq<Action>) {
    forall i: nat {:trigger Changes(hist, i)} | i + 1 < |hist| ::
      Changes(hist, i) ==> Decided(past, hist[i], hist[i + 1].status)
  }

  ghost predicate RecDecided(rec: Rec, past: seq<Action>) {
    rec.Persisting? ==> Decided(past, rec.base, rec.status)
  }

  lemma DecidedStays(past: seq<Action>, a: Action, t: Task, s: TaskStatus)
    requires Decided(past, t, s)
    ensures Decided(past + [a], t, s)
  {
    var k :| 0 <= k < |past| && Decides(past[k], t, s);
    assert (past + [a])[k] == past[k];
  }

  lemma HistDecidedStays(hist: seq<Task>, past: seq<Action>, a: Action)
    requires HistDecided(hist, past)
    ensures HistDecided(hist, past + [a])
  {
    forall i: nat | i + 1 < |hist| && Changes(hist, i)
      ensures Decided(past + [a], hist[i], hist[i + 1].status)
    {
      DecidedStays(past, a, hist[i], hist[i + 1].status);
    }
  }

  /** One more version, with the same status or a decided one. */
  lemma HistDecidedGrows(hist: seq<Task>, t: Task, past: seq<Action>)
    requires |hist| > 0 && HistDecided(hist, past)
    requires t.status != hist[|hist| - 1].status ==> Decided(past, hist[|hist| - 1], t.status)
    ensures HistDecided(hist + [t], past)
  {
    var hist' := hist + [t];
    forall i: nat | i + 1 < |hist'| && Changes(hist', i)
      ensures Decided(past, hist'[i], hist'[i + 1].status)
    {
      if i + 1 < |hist| {
        assert Changes(hist, i);
      }
    }
  }

  /** The history after a step is the one before, or that and one version more. */
  lemma StepAddsOne(m: Mode, c: Cell, a: Action)
    requires Bounded(c) && Enabled(m, c, a)
    ensures var hist' := Apply(m, c, a).hist; hist' == c.hist || hist' == c.hist + [hist'[|hist'| - 1]]
  {
  }

  /** Only writes change the status, and they store what was decided on the version before. */
  lemma WriteStores(c: Cell, reply: Reply)
    requires StoreOk(c) && c.rec.Persisting?
    ensures Written(c, reply).hist == c.hist
            || (c.rec.base == Current(c) && Current(Written(c, reply)).status == c.rec.status)
  {
    if Accepts(c, c.rec.base, reply) {
      BaseIsCurrent(c, c.rec.base, reply);
    }
  }

  lemma OthersKeepStatus(m: Mode, c: Cell, a: Action)
    requires StoreOk(c) && Enabled(m, c, a) && !a.Write?
    ensures Current(Apply(m, c, a)).status == Current(c).status
  {
    match a
    case AddFinalizer(reply) => FinalizerAddedFrame(c, reply);
    case Act(ans, reply, t1, t2) => TakenFrame(c, Decide(c.rec.base, ans, t1, t2), ans.pod, reply, t2);
    case Release(reply) => ReleasedFrame(c, reply);
    case GrantSlot(base, reply) => SlotGrantedFrame(c, base, reply);
    case _ =>
  }

  lemma StepHistDecided(m: Mode, c: Cell, a: Action, past: seq<Action>)
    requires StoreOk(c) && Enabled(m, c, a)
    requires HistDecided(c.hist, past) && RecDecided(c.rec, past)
    ensures HistDecided(Apply(m, c, a).hist, past)
  {
    StepAddsOne(m, c, a);
    if a.Write? {
      WriteStores(c, a.reply);
      AddsDecided(c, Written(c, a.reply), past);
    } else {
      OthersKeepStatus(m, c, a);
      AddsDecided(c, Apply(m, c, a), past);
    }
  }

  lemma AddsDecided(c: Cell, c': Cell, past: seq<Action>)
    requires Bounded(c) && Bounded(c') && HistDecided(c.hist, past) && RecDecided(c.rec, past)
    requires c'.hist == c.hist || c'.hist == c.hist + [Current(c')]
    requires c'.hist == c.hist || Current(c').status == Current(c).status
             || (c.rec.Persisting? && c.rec.base == Current(c) && Current(c').status == c.rec.status)
    ensures HistDecided(c'.hist, past)
  {
    if c'.hist != c.hist {
      HistDecidedGrows(c.hist, Current(c'), past);
    }
  }

  lemma StepRecDecided(m: Mode, c: Cell, a: Action, past: seq<Action>)
    requires Bounded(c) && Enabled(m, c, a) && RecDecided(c.rec, past)
    ensures RecDecided(Apply(m, c, a).rec, past + [a])
  {
    if a.Act? {
      var d := Decide(c.rec.base, a.ans, a.t1, a.t2);
      TakenFrame(c, d, a.ans.pod, a.reply, a.t2);
      assert (past + [a])[|past|] == a;
      assert d.next.Persist? ==> Decides(a, c.rec.base, d.next.status);
    } else if c.rec.Persisting? {
      DecidedStays(past, a, c.rec.base, c.rec.status);
      RecFrame(m, c, a);
    } else {
      RecFrame(m, c, a);
    }
  }

  /** Only an act puts a status in flight. */
  lemma RecFrame(m: Mode, c: Cell, a: Action)
    requires Bounded(c) && Enabled(m, c, a) && !a.Act?
    ensures Apply(m, c, a).rec == c.rec || !Apply(m, c, a).rec.Persisting?
  {
  }

  lemma StepKeepsDecided(m: Mode, c: Cell, a: Action, past: seq<Action>)
    requires StoreOk(c) && Enabled(m, c, a)
    requires HistDecided(c.hist, past) && RecDecided(c.rec, past)
    ensures HistDecided(Apply(m, c, a).hist, past + [a]) && RecDecided(Apply(m, c, a).rec, past + [a])
  {
    StepHistDecided(m, c, a, past);
    HistDecidedStays(Apply(m, c, a).hist, past, a);
    StepRecDecided(m, c, a, past);
  }

  lemma {:induction false} RunDecided(m: Mode, c: Cell, acts: seq<Action>, past: seq<Action>)
    requires Inv(c) && Valid(m, c, acts)
    requires HistDecided(c.hist, past) && RecDecided(c.rec, past)
    ensures HistDecided(After(m, c, acts).hist, past + acts)
    decreases |acts|
  {
    if acts == [] {
      assert past + acts == past;
    } else {
      var next := Apply(m, c, acts[0]);
      StepKeepsInv(m, c, acts[0]);
      StepKeepsDecided(m, c, acts[0], past);
      RunDecided(m, next, acts[1..], past + [acts[0]]);
      assert past + [acts[0]] + acts[1..] == past + acts;
    }
  }

  /** A version of a task and the next, from a run of the task since its creation. */
  ghost predicate Step(m: Mode, t: Task, clock: Time, acts: seq<Action>, before: Task, after: Task) {
    && Fresh(t) && Valid(m, NewCell(t, clock), acts)
    && exists i: nat :: i + 1 < |After(m, NewCell(t, clock), acts).hist|
                        && After(m, NewCell(t, clock), acts).hist[i] == before
                        && After(m, NewCell(t, clock), acts).hist[i + 1] == after
  }

  /** Every change of the stored status was decided by an act of the run, on the version before it. */
  lemma StatusWasDecided(m: Mode, t: Task, clock: Time, acts: seq<Action>, before: Task, after: Task)
    returns (k: nat)
    requires Step(m, t, clock, acts, before, after) && after.status != before.status
    ensures k < |acts| && acts[k].Act?
    ensures Decide(before, acts[k].ans, acts[k].t1, acts[k].t2).next == Persist(after.status)
    ensures exists now :: StatusOk(before, now)
  {
    var c := After(m, NewCell(t, clock), acts);
    RunFromCreation(m, t, clock, acts);
    var hist := c.hist;
    var i: nat :| i + 1 < |hist| && hist[i] == before && hist[i + 1] == after;
    assert Changes(hist, i);
    k :| 0 <= k < |acts| && Decides(acts[k], before, after.status);
    assert StatusOk(hist[i], c.clock);
  }

  lemma RunFromCreation(m: Mode, t: Task, clock: Time, acts: seq<Action>)
    requires Fresh(t) && Valid(m, NewCell(t, clock), acts)
    ensures var c := After(m, NewCell(t, clock), acts); HistOk(c.hist, c.clock) && HistDecided(c.hist, acts)
  {
    var start := NewCell(t, clock);
    NewCellInv(t, clock);
    RunDecided(m, start, acts, []);
    RunKeepsInv(m, start, acts);
    assert [] + acts == acts;
  }

  // ----- the lifecycle as a graph

  predicate IsEdge(p: Phase, q: Phase) {
    match p
    case Unset => q in {Initializing, Failed}
    case Pending => q in {Initializing, Failed}
    case Initializing => q == Running
    case Running => q in {CreatingMR, Failed}
    case CreatingMR => q in {Succeeded, Failed}
    case PushingBranch => false
    case Succeeded => false
    case Failed => false
  }

  lemma DecidesEdge(t: Task, ans: Answers, now: Time, t1: Time, t2: Time)
    requires StatusOk(t, now)
    ensures var n := Decide(t, ans, t1, t2).next; n.Persist? ==> IsEdge(t.status.phase, n.status.phase)
  {
  }

  /** Stored statuses change only along the edges of the lifecycle. */
  lemma LifecycleGraph(m: Mode, t: Task, clock: Time, acts: seq<Action>, before: Task, after: Task)
    requires Step(m, t, clock, acts, before, after) && after.status != before.status
    ensures IsEdge(before.status.phase, after.status.phase)
  {
    var k := StatusWasDecided(m, t, clock, acts, before, after);
    var now :| StatusOk(before, now);
    DecidesEdge(before, acts[k].ans, now, acts[k].t1, acts[k].t2);
  }

  // ----- waiting tasks

  /** A complete task that fails while it waits does so because a reconcile was told that the secret with its
      key does not exist. */
  lemma WaitingFailure(m: Mode, t: Task, clock: Time, acts: seq<Action>, before: Task, after: Task)
    returns (k: nat)
    requires Step(m, t, clock, acts, before, after)
    requires before.status.phase in {Unset, Pending} && after.status.phase == Failed && IsComplete(before.spec)
    ensures NeedsKey(before.spec) && after.status.message == APIKeySecretMissing
    ensures k < |acts| && acts[k].Act? && acts[k].ans.secret == NotFound
  {
    k := StatusWasDecided(m, t, clock, acts, before, after);
    PendingLaw(before, acts[k].ans, acts[k].t1, acts[k].t2);
  }

  /** A task that needs a key starts only after a reconcile has found it, and only with its slot. */
  lemma StartFoundKey(m: Mode, t: Task, clock: Time, acts: seq<Action>, before: Task, after: Task)
    returns (k: nat)
    requires Step(m, t, clock, acts, before, after)
    requires before.status.phase in {Unset, Pending} && after.status.phase == Initializing
    ensures IsComplete(before.spec) && GateOpen(before)
    ensures k < |acts| && acts[k].Act? && (NeedsKey(before.spec) ==> acts[k].ans.secret == Found)
  {
    k := StatusWasDecided(m, t, clock, acts, before, after);
    PendingLaw(before, acts[k].ans, acts[k].t1, acts[k].t2);
  }

  /** An unreadable key stores nothing: the reconcile ends and is tried again. */
  lemma UnreadableKeyWaits(m: Mode, c: Cell, ans: Answers, reply: Reply, t1: Time, t2: Time)
    requires Bounded(c) && Enabled(m, c, Act(ans, reply, t1, t2))
    requires c.rec.base.status.phase in {Unset, Pending} && IsComplete(c.rec.base.spec) && GateOpen(c.rec.base)
    requires NeedsKey(c.rec.base.spec) && ans.secret == Unreadable
    ensures var c' := Acted(c, ans, reply, t1, t2);
            c'.hist == c.hist && c'.rec == Idle && c'.wake && c'.due <= t2 && c'.pod == c.pod
  {
    PendingLaw(c.rec.base, ans, t1, t2);
    TakenFrame(c, Decide(c.rec.base, ans, t1, t2), ans.pod, reply, t2);
  }

  // ----- running tasks

  /** A task that starts running has its pod: with a start time one that a reconcile created then, without
      one a pod that a reconcile found or ran into. */
  lemma StartHasPod(m: Mode, t: Task, clock: Time, acts: seq<Action>, before: Task, after: Task)
    returns (k: nat)
    requires Step(m, t, clock, acts, before, after)
    requires before.status.phase == Initializing && after.status.phase == Running
    ensures after.status.startTime.Some? <==> after.status.message == PodWasCreated
    ensures k < |acts| && acts[k].Act?
    ensures var ans := acts[k].ans;
            if after.status.startTime.Some?
            then ans.pod == PodNotFound && ans.create == PodCreated
                 && after.status.startTime.value == Truncate(acts[k].t2)
            else ans.pod.PodFound? || (ans.pod == PodNotFound && ans.create == AlreadyExists)
  {
    k := StatusWasDecided(m, t, clock, acts, before, after);
    InitializingLaw(before, acts[k].ans, acts[k].t1, acts[k].t2);
    assert before.status.startTime == None;
  }

  /** A running task fails only because its pod failed, with that exit code, or was gone, or was at work when
      its time was up. */
  lemma RunningFailure(m: Mode, t: Task, clock: Time, acts: seq<Action>, before: Task, after: Task)
    returns (k: nat)
    requires Step(m, t, clock, acts, before, after)
    requires before.status.phase == Running && after.status.phase == Failed
    ensures k < |acts| && acts[k].Act?
    ensures var pod := acts[k].ans.pod;
            match after.status.message
            case PodFailedWith(code) => HasFailed(pod) && after.status.exitCode == code == pod.exitCode
            case PodWasDeleted => pod == PodNotFound
            case TimedOut(_) => AtWork(pod) && TimeIsUp(before, acts[k].t1)
            case _ => false
  {
    k := StatusWasDecided(m, t, clock, acts, before, after);
    RunningHasPod(before);
    RunningLaw(before, acts[k].ans, acts[k].t1, acts[k].t2);
    var pod := acts[k].ans.pod;
    assert HasFailed(pod) || pod == PodNotFound || AtWork(pod);
  }

  lemma RunningHasPod(t: Task)
    requires t.status.phase == Running && exists now :: StatusOk(t, now)
    ensures t.status.podName != ""
  {
    assert ("agent-" + t.name) != "";
  }

  /** And a reconcile that sees the pod of a running task failed goes on to fail the task. */
  lemma FailedPodFailsTask(m: Mode, c: Cell, ans: Answers, reply: Reply, t1: Time, t2: Time)
    requires Reachable(m, c) && Enabled(m, c, Act(ans, reply, t1, t2))
    requires c.rec.base.status.phase == Running && HasFailed(ans.pod)
    ensures var c' := Acted(c, ans, reply, t1, t2);
            && c'.rec.Persisting? && c'.rec.status.phase == Failed
            && c'.rec.status.exitCode == ans.pod.exitCode && c'.rec.status.endTime.Some?
            && (Accepts(c', c'.rec.base, Answered) ==> Current(Written(c', Answered)).status == c'.rec.status)
  {
    ReachableInv(m, c);
    OfHistOk(c, c.rec.base);
    RunningHasPod(c.rec.base);
    RunningLaw(c.rec.base, ans, t1, t2);
    TakenFrame(c, Decide(c.rec.base, ans, t1, t2), ans.pod, reply, t2);
    WrittenFrame(Acted(c, ans, reply, t1, t2), Answered);
  }

  // ----- success

  /** A task that succeeds stores the address that a platform gave for its merge request. */
  lemma SuccessHasAnswer(m: Mode, t: Task, clock: Time, acts: seq<Action>, before: Task, after: Task)
    returns (k: nat)
    requires Step(m, t, clock, acts, before, after)
    requires before.status.phase == CreatingMR && after.status.phase == Succeeded
    ensures k < |acts| && acts[k].Act? && acts[k].ans.post == Success(after.status.mergeRequestURL)
    ensures var token := ResolveSecret(before.spec.gitCredentialsSecretRef, acts[k].ans.credentials);
            token.Success? && token.value != ""
  {
    k := StatusWasDecided(m, t, clock, acts, before, after);
    CreatingMRLaw(before, acts[k].ans, acts[k].t1, acts[k].t2);
  }
}
