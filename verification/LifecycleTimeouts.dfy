/** Timeouts in real time: how long a task can stay Running when its reconciles are served promptly, and
    exactly which tasks a timeout ends. */
module LifecycleTimeouts {
  import opened AgentTypes
  import opened PodBuilder
  import opened Handlers
  import opened Lifecycle
  import opened LifecycleHistory
  import opened LifecycleLedger
  import opened LifecycleRuns
  import opened LifecycleTheorems

  /** How promptly the operator works: a reconcile begins within `slack` of the time it is due, and ends
      within `length` of its beginning. */
  datatype Pace = Pace(slack: nat, length: nat)

  // ----- runs that are served

  /** A reconcile of a running task is under way. */
  predicate Polling(c: Cell) {
    c.rec != Idle && c.rec.base.status.phase == Running
  }

  /** Reads and writes of a running task's reconcile succeed: it reads the current version, it can read
      the pod, its writes are accepted and acknowledged, and it is not interrupted. */
  ghost predicate GoesWell(c: Cell, a: Action)
    requires Bounded(c)
  {
    match a
    case Begin(i) => Current(c).status.phase == Running ==> i == |c.hist| - 1
    case AddFinalizer(reply) => Polling(c) ==> Accepts(c, c.rec.base, reply) && reply == Answered
    case Act(ans, _, _, _) => Polling(c) ==> ans.pod != PodUnreadable
    case Write(reply) => Polling(c) ==> Accepts(c, c.rec.base, reply) && reply == Answered
    case Crash => !Polling(c)
    case _ => true
  }

  /** No step lasts beyond the length of a reconcile, and no due reconcile of a running task waits for
      longer than the slack. */
  ghost predicate InTime(p: Pace, c: Cell, c': Cell)
    requires Bounded(c')
  {
    && (c.rec != Idle ==> c'.clock <= c.begun + p.length)
    && (c'.rec == Idle && c'.live && c'.wake && Current(c').status.phase == Running ==>
          c'.clock <= c'.due + p.slack)
  }

  ghost predicate Served(m: Mode, p: Pace, c: Cell, acts: seq<Action>)
    requires Bounded(c) && Valid(m, c, acts)
    decreases |acts|
  {
    acts != [] ==>
      && GoesWell(c, acts[0])
      && InTime(p, c, Apply(m, c, acts[0]))
      && Served(m, p, Apply(m, c, acts[0]), acts[1..])
  }

  // ----- the invariant

  /** When a started task's time is up: after the author's timeout, or thirty minutes without one. */
  function Deadline(t: Task): Time
    requires t.status.startTime.Some?
  {
    match t.spec.timeout
    case Some(d) => if d > 0 then t.status.startTime.value + d else t.status.startTime.value
    case None => t.status.startTime.value + 30 * 60 * SECOND
  }

  /** The latest time at which a poll can be due. */
  function LastDue(p: Pace, t: Task): Time
    requires t.status.startTime.Some?
  {
    Deadline(t) + p.length + POLL_INTERVAL
  }

  /** The latest time at which a started task can still be Running. */
  function Latest(p: Pace, t: Task): Time
    requires t.status.startTime.Some?
  {
    LastDue(p, t) + p.slack + p.length
  }

  ghost predicate Started(c: Cell)
    requires Bounded(c)
  {
    && c.live && !Current(c).deleting
    && Current(c).status.phase == Running && Current(c).status.startTime.Some?
  }

  /** A start time about to be stored is no older than the reconcile that took it. */
  ghost predicate StampOk(rec: Rec, begun: Time) {
    rec.Persisting? && rec.status.phase == Running && rec.status.startTime.Some? ==>
      begun < rec.status.startTime.value + SECOND
  }

  /** A started task has its next poll coming, or under way, in time. */
  ghost predicate PollOk(p: Pace, c: Cell)
    requires Bounded(c)
  {
    Started(c) ==>
      if c.rec == Idle then c.wake && c.due <= LastDue(p, Current(c)) && c.clock <= c.due + p.slack
      else Polling(c) && c.begun <= LastDue(p, Current(c)) + p.slack
  }

  ghost predicate TimeOk(p: Pace, c: Cell)
    requires Bounded(c)
  {
    && c.begun <= c.clock
    && (c.rec != Idle ==> c.clock <= c.begun + p.length)
    && StampOk(c.rec, c.begun)
    && PollOk(p, c)
  }

  // ----- steps

  /** A status that brings a start time with it was taken by this very reconcile. */
  lemma LaunchStamp(t: Task, ans: Answers, now: Time, t1: Time, t2: Time)
    requires StatusOk(t, now)
    ensures var n := Decide(t, ans, t1, t2).next;
            n.Persist? && n.status.phase == Running && n.status.startTime.Some? ==>
              t2 < n.status.startTime.value + SECOND
  {
  }

  /** A poll that can read the pod either moves the task on or finds it on time. */
  lemma PollDecides(t: Task, ans: Answers, now: Time, t1: Time, t2: Time)
    requires StatusOk(t, now) && t.status.phase == Running && t.status.startTime.Some?
    requires ans.pod != PodUnreadable
    ensures var n := Decide(t, ans, t1, t2).next;
            n.Persist? || (n == Stop(RequeueAfter(POLL_INTERVAL)) && t1 <= Deadline(t))
  {
  }

  lemma MarkedBase(c: Cell)
    requires StoreOk(c) && c.rec != Idle && c.rec.base.deleting
    ensures Current(c).deleting
  {
    assert Follows(c.hist[c.rec.base.version], c.hist[|c.hist| - 1]);
  }

  lemma ActKeepsTime(p: Pace, c: Cell, ans: Answers, reply: Reply, t1: Time, t2: Time)
    requires StoreOk(c) && TimeOk(p, c) && c.rec.Read? && c.clock <= t1 <= t2
    requires Polling(c) ==> ans.pod != PodUnreadable
    requires InTime(p, c, Acted(c, ans, reply, t1, t2))
    ensures TimeOk(p, Acted(c, ans, reply, t1, t2))
  {
    var d := Decide(c.rec.base, ans, t1, t2);
    ReadFacts(c, c.rec.base);
    LaunchStamp(c.rec.base, ans, c.clock, t1, t2);
    if Started(c) {
      PollDecides(c.rec.base, ans, c.clock, t1, t2);
      TakenPoll(p, c, d, ans.pod, reply, t1, t2);
    }
    TakenTime(p, c, d, ans.pod, reply, t2);
  }

  /** Apart from the poll, an act only has to watch the stamp it takes. */
  lemma TakenTime(p: Pace, c: Cell, d: Decision, pod: PodAnswer, reply: Reply, now: Time)
    requires Bounded(c) && TimeOk(p, c) && c.rec.Read? && c.clock <= now <= c.begun + p.length
    requires d.next.Persist? && d.next.status.phase == Running && d.next.status.startTime.Some? ==>
               now < d.next.status.startTime.value + SECOND
    requires Started(c) ==> PollOk(p, Taken(c, d, pod, reply, now))
    ensures TimeOk(p, Taken(c, d, pod, reply, now))
  {
    TakenFrame(c, d, pod, reply, now);
  }

  lemma TakenPoll(p: Pace, c: Cell, d: Decision, pod: PodAnswer, reply: Reply, t1: Time, now: Time)
    requires Bounded(c) && Started(c) && TimeOk(p, c) && c.rec.Read? && c.clock <= t1 <= now
    requires d.next.Persist? || (d.next == Stop(RequeueAfter(POLL_INTERVAL)) && t1 <= Deadline(Current(c)))
    requires now <= c.begun + p.length
    requires InTime(p, c, Taken(c, d, pod, reply, now))
    ensures PollOk(p, Taken(c, d, pod, reply, now))
  {
  }

  lemma WriteKeepsTime(p: Pace, c: Cell, reply: Reply)
    requires StoreOk(c) && TimeOk(p, c) && c.rec.Persisting?
    requires Polling(c) ==> Accepts(c, c.rec.base, reply)
    requires InTime(p, c, Written(c, reply))
    ensures TimeOk(p, Written(c, reply))
  {
    if Accepts(c, c.rec.base, reply) {
      BaseIsCurrent(c, c.rec.base, reply);
      LaunchedPoll(p, c, reply);
    }
  }

  /** An accepted write either launches the task, whose first poll is then due at once, or leaves it other
      than Running. */
  lemma LaunchedPoll(p: Pace, c: Cell, reply: Reply)
    requires Bounded(c) && TimeOk(p, c) && c.rec.Persisting? && Accepts(c, c.rec.base, reply)
    requires c.rec.base == Current(c) && SoundMove(c.rec.base, c.rec.status, c.clock)
    requires InTime(p, c, Written(c, reply))
    ensures PollOk(p, Written(c, reply))
  {
    assert c.clock < c.begun + p.length + SECOND;
  }

  /** A step that leaves the status alone, and reconcile, wakeup and clock too. */
  lemma QuietKeepsTime(p: Pace, c: Cell, c': Cell)
    requires SameStatus(c, c') && c'.live == c.live && TimeOk(p, c)
    requires c'.rec == c.rec && c'.wake == c.wake && c'.due == c.due
    requires c'.begun == c.begun && c'.clock == c.clock
    ensures TimeOk(p, c')
  {
  }

  lemma AddFinalizerKeepsTime(p: Pace, c: Cell, reply: Reply)
    requires StoreOk(c) && TimeOk(p, c) && c.rec.Read?
    requires Polling(c) ==> Accepts(c, c.rec.base, reply) && reply == Answered
    ensures TimeOk(p, FinalizerAdded(c, reply))
  {
    FinalizerAddedFrame(c, reply);
  }

  lemma ReleaseKeepsTime(p: Pace, c: Cell, reply: Reply)
    requires StoreOk(c) && TimeOk(p, c) && c.rec.Releasing?
    ensures TimeOk(p, Released(c, reply))
  {
    MarkedBase(c);
    ReleasedFrame(c, reply);
  }

  lemma GrantKeepsTime(p: Pace, c: Cell, base: Task, reply: Reply)
    requires StoreOk(c) && TimeOk(p, c) && base in c.hist
    ensures TimeOk(p, SlotGranted(c, base, reply))
  {
    SlotGrantedFrame(c, base, reply);
    QuietKeepsTime(p, c, SlotGranted(c, base, reply));
  }

  /** The steps of others. */
  lemma OutsideKeepsTime(m: Mode, p: Pace, c: Cell, a: Action)
    requires StoreOk(c) && TimeOk(p, c) && Enabled(m, c, a)
    requires a.GrantSlot? || a.Edit? || a.MarkDeleted? || a.LosePod?
    ensures TimeOk(p, Apply(m, c, a))
  {
    match a
    case GrantSlot(base, reply) => GrantKeepsTime(p, c, base, reply);
    case Edit(_) => QuietKeepsTime(p, c, Apply(m, c, a));
    case LosePod => QuietKeepsTime(p, c, Apply(m, c, a));
    case MarkDeleted =>
  }

  /** The steps that only concern time and wakeups. */
  lemma WaitKeepsTime(m: Mode, p: Pace, c: Cell, a: Action)
    requires Bounded(c) && TimeOk(p, c) && Enabled(m, c, a) && GoesWell(c, a)
    requires a.Begin? || a.Crash? || a.Tick? || a.Event?
    requires InTime(p, c, Apply(m, c, a))
    ensures TimeOk(p, Apply(m, c, a))
  {
  }

  lemma StepKeepsTime(m: Mode, p: Pace, c: Cell, a: Action)
    requires StoreOk(c) && TimeOk(p, c) && Enabled(m, c, a) && GoesWell(c, a)
    requires InTime(p, c, Apply(m, c, a))
    ensures TimeOk(p, Apply(m, c, a))
  {
    match a
    case AddFinalizer(reply) => AddFinalizerKeepsTime(p, c, reply);
    case Act(ans, reply, t1, t2) => ActKeepsTime(p, c, ans, reply, t1, t2);
    case Write(reply) => WriteKeepsTime(p, c, reply);
    case CleanPod(_, _) => MarkedBase(c);
    case Release(reply) => ReleaseKeepsTime(p, c, reply);
    case GrantSlot(_, _) => OutsideKeepsTime(m, p, c, a);
    case Edit(_) => OutsideKeepsTime(m, p, c, a);
    case MarkDeleted => OutsideKeepsTime(m, p, c, a);
    case LosePod => OutsideKeepsTime(m, p, c, a);
    case _ => WaitKeepsTime(m, p, c, a);
  }

  // ----- runs

  lemma {:induction false} ServedKeepsTime(m: Mode, p: Pace, c: Cell, acts: seq<Action>)
    requires Inv(c) && TimeOk(p, c)
    requires Valid(m, c, acts) && Served(m, p, c, acts)
    ensures Inv(After(m, c, acts)) && TimeOk(p, After(m, c, acts))
    decreases |acts|
  {
    if acts != [] {
      StepKeepsInv(m, c, acts[0]);
      StepKeepsTime(m, p, c, acts[0]);
      ServedKeepsTime(m, p, Apply(m, c, acts[0]), acts[1..]);
    }
  }

  /** A task as some promptly served run from its creation has left it. */
  ghost predicate ServedTo(m: Mode, p: Pace, c: Cell) {
    exists t: Task, clock: Time, acts: seq<Action> ::
      && Fresh(t) && Valid(m, NewCell(t, clock), acts) && Served(m, p, NewCell(t, clock), acts)
      && After(m, NewCell(t, clock), acts) == c
  }

  lemma ServedInv(m: Mode, p: Pace, c: Cell)
    requires ServedTo(m, p, c)
    ensures Inv(c) && TimeOk(p, c)
  {
    var t, clock, acts :| Fresh(t) && Valid(m, NewCell(t, clock), acts)
                          && Served(m, p, NewCell(t, clock), acts) && After(m, NewCell(t, clock), acts) == c;
    var start := NewCell(t, clock);
    NewCellInv(t, clock);
    NewCellTime(p, t, clock);
    ServedKeepsTime(m, p, start, acts);
  }

  lemma NewCellTime(p: Pace, t: Task, clock: Time)
    requires Fresh(t)
    ensures TimeOk(p, NewCell(t, clock))
  {
  }

  /** Served promptly, a started task has left Running by its deadline plus one poll interval, the slack,
      and the length of two reconciles. */
  lemma LeavesRunningInTime(m: Mode, p: Pace, c: Cell)
    requires ServedTo(m, p, c) && Started(c)
    ensures var start, more := Current(c).status.startTime.value, 15 * SECOND + p.slack + 2 * p.length;
            match Current(c).spec.timeout
            case Some(d) => c.clock <= start + more + if d > 0 then d else 0
            case None => c.clock <= start + more + 30 * 60 * SECOND
  {
    ServedInv(m, p, c);
  }

  // ----- which tasks a timeout ends

  /** The pod is at work whenever it is looked at. */
  ghost predicate PodAtWork(pod: PodAnswer) {
    pod.PodFound? && pod.phase != PodSucceeded && pod.phase != PodFailed
  }

  ghost predicate PodKeepsWorking(acts: seq<Action>) {
    forall i {:trigger acts[i]} | 0 <= i < |acts| :: acts[i].Act? ==> PodAtWork(acts[i].ans.pod)
  }

  ghost predicate IsTimedOut(s: TaskStatus) {
    s.phase == Failed && s.message.TimedOut?
  }

  /** The task is Running as it was, or timed out; and a reconcile that read it Running can only time it
      out. */
  ghost predicate OnlyTimesOut(now: TaskStatus, rec: Rec, was: TaskStatus) {
    && (now == was || IsTimedOut(now))
    && (rec.Persisting? && rec.base.status.phase == Running ==> IsTimedOut(rec.status))
  }

  lemma WorkingDecides(t: Task, ans: Answers, now: Time, t1: Time, t2: Time)
    requires StatusOk(t, now) && t.status.phase == Running && PodAtWork(ans.pod)
    ensures var n := Decide(t, ans, t1, t2).next; n.Persist? ==> IsTimedOut(n.status)
  {
    assert PodNameFor(t.name) != "";
  }

  lemma ActOnlyTimesOut(c: Cell, ans: Answers, reply: Reply, t1: Time, t2: Time, was: TaskStatus)
    requires StoreOk(c) && c.rec.Read? && PodAtWork(ans.pod)
    requires OnlyTimesOut(Current(c).status, c.rec, was)
    ensures var c' := Acted(c, ans, reply, t1, t2); OnlyTimesOut(Current(c').status, c'.rec, was)
  {
    ReadFacts(c, c.rec.base);
    if c.rec.base.status.phase == Running {
      WorkingDecides(c.rec.base, ans, c.clock, t1, t2);
    }
    TakenFrame(c, Decide(c.rec.base, ans, t1, t2), ans.pod, reply, t2);
  }

  lemma WriteOnlyTimesOut(c: Cell, reply: Reply, was: TaskStatus)
    requires StoreOk(c) && c.rec.Persisting? && was.phase == Running
    requires OnlyTimesOut(Current(c).status, c.rec, was)
    ensures var c' := Written(c, reply); OnlyTimesOut(Current(c').status, c'.rec, was)
  {
    WrittenFrame(c, reply);
    if Accepts(c, c.rec.base, reply) {
      BaseIsCurrent(c, c.rec.base, reply);
      MoveTimesOut(c.rec.base, c.rec.status, c.clock);
    }
  }

  /** A finished task cannot move, so what moves was Running. */
  lemma MoveTimesOut(t: Task, status: TaskStatus, now: Time)
    requires SoundMove(t, status, now) && (t.status.phase == Running || IsTimedOut(t.status))
    requires t.status.phase == Running ==> IsTimedOut(status)
    ensures IsTimedOut(status)
  {
  }

  /** Every other step leaves the status alone and puts no status in flight. */
  lemma OtherStepKeepsStatus(m: Mode, c: Cell, a: Action)
    requires StoreOk(c) && Enabled(m, c, a) && !a.Act? && !a.Write?
    ensures Current(Apply(m, c, a)).status == Current(c).status
  {
    match a
    case AddFinalizer(reply) => FinalizerAddedFrame(c, reply);
    case Release(reply) => ReleasedFrame(c, reply);
    case GrantSlot(base, reply) => SlotGrantedFrame(c, base, reply);
    case _ =>
  }

  lemma OtherStepKeepsRec(m: Mode, c: Cell, a: Action)
    requires Bounded(c) && Enabled(m, c, a) && !a.Act? && !a.Write?
    ensures Apply(m, c, a).rec == c.rec || !Apply(m, c, a).rec.Persisting?
  {
  }

  lemma StepOnlyTimesOut(m: Mode, c: Cell, a: Action, was: TaskStatus)
    requires StoreOk(c) && Enabled(m, c, a) && was.phase == Running
    requires OnlyTimesOut(Current(c).status, c.rec, was) && (a.Act? ==> PodAtWork(a.ans.pod))
    ensures OnlyTimesOut(Current(Apply(m, c, a)).status, Apply(m, c, a).rec, was)
  {
    match a
    case Act(ans, reply, t1, t2) => ActOnlyTimesOut(c, ans, reply, t1, t2, was);
    case Write(reply) => WriteOnlyTimesOut(c, reply, was);
    case _ => OtherOnlyTimesOut(m, c, a, was);
  }

  lemma OtherOnlyTimesOut(m: Mode, c: Cell, a: Action, was: TaskStatus)
    requires StoreOk(c) && Enabled(m, c, a) && !a.Act? && !a.Write?
    requires OnlyTimesOut(Current(c).status, c.rec, was)
    ensures OnlyTimesOut(Current(Apply(m, c, a)).status, Apply(m, c, a).rec, was)
  {
    OtherStepKeepsStatus(m, c, a);
    OtherStepKeepsRec(m, c, a);
  }

  lemma {:induction false} RunOnlyTimesOut(m: Mode, c: Cell, acts: seq<Action>, was: TaskStatus)
    requires Inv(c) && Valid(m, c, acts) && was.phase == Running
    requires OnlyTimesOut(Current(c).status, c.rec, was) && PodKeepsWorking(acts)
    ensures OnlyTimesOut(Current(After(m, c, acts)).status, After(m, c, acts).rec, was)
    decreases |acts|
  {
    if acts != [] {
      StepKeepsInv(m, c, acts[0]);
      StepOnlyTimesOut(m, c, acts[0], was);
      RunOnlyTimesOut(m, Apply(m, c, acts[0]), acts[1..], was);
    }
  }

  /** While its pod goes on working, a running task that is served past the latest time is ended by its
      timeout if and only if it has a start time; without one it is still Running. */
  lemma TimesOutExactly(m: Mode, p: Pace, c: Cell, acts: seq<Action>)
    requires ServedTo(m, p, c) && c.rec == Idle && Current(c).status.phase == Running
    requires Valid(m, c, acts) && Served(m, p, c, acts) && PodKeepsWorking(acts)
    requires After(m, c, acts).live && !Current(After(m, c, acts)).deleting
    requires Current(c).status.startTime.Some? ==> After(m, c, acts).clock > Latest(p, Current(c))
    ensures IsTimedOut(Current(After(m, c, acts)).status) <==> Current(c).status.startTime.Some?
    ensures Current(c).status.startTime == None ==> Current(After(m, c, acts)).status == Current(c).status
  {
    ServedInv(m, p, c);
    ServedKeepsTime(m, p, c, acts);
    RunOnlyTimesOut(m, c, acts, Current(c).status);
    HistGrows(m, c, acts);
    EndsByTimeout(p, c, After(m, c, acts));
  }

  lemma EndsByTimeout(p: Pace, c: Cell, c': Cell)
    requires StoreOk(c) && StoreOk(c') && TimeOk(p, c') && c.hist <= c'.hist
    requires Current(c).status.phase == Running && OnlyTimesOut(Current(c').status, c'.rec, Current(c).status)
    requires c'.live && !Current(c').deleting
    requires Current(c).status.startTime.Some? ==> c'.clock > Latest(p, Current(c))
    ensures IsTimedOut(Current(c').status) <==> Current(c).status.startTime.Some?
  {
    assert Follows(c'.hist[|c.hist| - 1], c'.hist[|c'.hist| - 1]);
    CurrentOk(c');
  }
}
