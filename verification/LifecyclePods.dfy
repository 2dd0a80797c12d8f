/** How many pods are created for one task, and exactly when that is bounded. */
module LifecyclePods {
  import opened AgentTypes
  import opened PodBuilder
  import opened Handlers
  import opened Lifecycle
  import opened LifecycleHistory
  import opened LifecycleRuns
  import opened LifecycleTheorems

  function Present(pod: Option<Pod>): nat {
    if pod.Some? then 1 else 0
  }

  /** While a task initializes, every pod ever created is there or was deleted by others; later no more
      are created. */
  ghost predicate CountOk(phase: Phase, pod: Option<Pod>, l: Ledger) {
    if IsQueued(phase) then l.created == [] && pod == None && l.outsideDeletes == 0
    else if phase == Initializing then |l.created| == l.outsideDeletes + Present(pod)
    else |l.created| <= l.outsideDeletes + 1
  }

  /** A reconcile works on a version of the current phase. */
  ghost predicate FreshRec(rec: Rec, phase: Phase) {
    rec != Idle ==> rec.base.status.phase == phase
  }

  ghost predicate PodsOk(c: Cell)
    requires Bounded(c)
  {
    && CountOk(Current(c).status.phase, c.pod, c.ledger)
    && FreshRec(c.rec, Current(c).status.phase)
  }

  lemma ActedPods(c: Cell, ans: Answers, reply: Reply, t1: Time, t2: Time)
    requires Bounded(c) && PodsOk(c) && c.rec.Read?
    ensures PodsOk(Acted(c, ans, reply, t1, t2))
  {
    DecideEffects(c.rec.base, ans, t1, t2);
    TakenPods(c, Decide(c.rec.base, ans, t1, t2), ans.pod, reply, t2);
  }

  /** What decisions do to pods depends on the phase. */
  lemma DecideEffects(t: Task, ans: Answers, t1: Time, t2: Time)
    ensures EffectOk(Decide(t, ans, t1, t2).effect, t.status.phase)
  {
  }

  ghost predicate EffectOk(e: Effect, phase: Phase) {
    (e.CreatePod? ==> phase == Initializing) && (e.DeletePod? ==> phase == Running)
  }

  lemma TakenPods(c: Cell, d: Decision, pod: PodAnswer, reply: Reply, now: Time)
    requires Bounded(c) && PodsOk(c) && c.rec.Read?
    requires EffectOk(d.effect, c.rec.base.status.phase)
    ensures PodsOk(Taken(c, d, pod, reply, now))
  {
    TakenCount(c.ledger, c.pod, d.effect, pod, reply, Current(c).status.phase);
  }

  lemma TakenCount(l: Ledger, there: Option<Pod>, e: Effect, pod: PodAnswer, reply: Reply, phase: Phase)
    requires CountOk(phase, there, l) && EffectOk(e, phase)
    ensures CountOk(phase, PodAfter(there, e, reply), Observe(Perform(l, there, e, reply), phase, pod))
  {
  }

  lemma WrittenPods(c: Cell, reply: Reply)
    requires StoreOk(c) && PodsOk(c) && c.rec.Persisting?
    ensures PodsOk(Written(c, reply))
  {
    WrittenFrame(c, reply);
    if Accepts(c, c.rec.base, reply) {
      BaseIsCurrent(c, c.rec.base, reply);
      CountMovesOn(Current(c).status.phase, c.rec.status.phase, c.pod, c.ledger, Written(c, reply).ledger);
    }
  }

  lemma CountMovesOn(phase: Phase, next: Phase, pod: Option<Pod>, l: Ledger, l': Ledger)
    requires CountOk(phase, pod, l) && Rank(phase) < Rank(next)
    requires l'.created == l.created && l'.outsideDeletes == l.outsideDeletes
    ensures CountOk(next, pod, l')
  {
  }

  lemma FinalizerAddedPods(c: Cell, reply: Reply)
    requires StoreOk(c) && PodsOk(c) && c.rec.Read?
    ensures PodsOk(FinalizerAdded(c, reply))
  {
    FinalizerAddedFrame(c, reply);
  }

  lemma ReleasedPods(c: Cell, reply: Reply)
    requires StoreOk(c) && PodsOk(c) && c.rec.Releasing?
    ensures PodsOk(Released(c, reply))
  {
    ReleasedFrame(c, reply);
  }

  lemma CleanedPods(c: Cell, seen: PodAnswer, reply: Reply)
    requires StoreOk(c) && PodsOk(c) && c.rec.Read?
    ensures PodsOk(Cleaned(c, seen, reply))
  {
  }

  lemma StepKeepsPods(m: Mode, c: Cell, a: Action)
    requires m.freshReads
    requires StoreOk(c) && PodsOk(c) && Enabled(m, c, a)
    ensures PodsOk(Apply(m, c, a))
  {
    match a
    case AddFinalizer(reply) => FinalizerAddedPods(c, reply);
    case Act(ans, reply, t1, t2) => ActedPods(c, ans, reply, t1, t2);
    case Write(reply) => WrittenPods(c, reply);
    case CleanPod(seen, reply) => CleanedPods(c, seen, reply);
    case Release(reply) => ReleasedPods(c, reply);
    case GrantSlot(base, reply) => SlotGrantedFrame(c, base, reply);
    case _ => OtherStepKeepsPods(m, c, a);
  }

  /** The steps that neither read a pod nor write a status on a reconcile's behalf. */
  lemma OtherStepKeepsPods(m: Mode, c: Cell, a: Action)
    requires m.freshReads
    requires Bounded(c) && PodsOk(c) && Enabled(m, c, a)
    requires a.Begin? || a.Crash? || a.Edit? || a.MarkDeleted? || a.LosePod? || a.Tick? || a.Event?
    ensures PodsOk(Apply(m, c, a))
  {
  }

  // ----- runs

  ghost predicate FewPods(c: Cell) {
    |c.ledger.created| <= 1 + c.ledger.outsideDeletes
  }

  lemma {:induction false} FreshRunPods(m: Mode, c: Cell, acts: seq<Action>)
    requires m.freshReads
    requires StoreOk(c) && PodsOk(c) && Valid(m, c, acts)
    ensures FewPods(After(m, c, acts))
    decreases |acts|
  {
    if acts != [] {
      StepKeepsStore(m, c, acts[0]);
      StepKeepsPods(m, c, acts[0]);
      FreshRunPods(m, Apply(m, c, acts[0]), acts[1..]);
    }
  }

  // ----- a stale read creates a second pod

  const SPEC := TaskSpec("fix", "ollama", "m", "aider", GitSpec("r", "main", "", "", ""),
                         None, None, None, "")
  const TASK := Task("a", 0, 0, map[], true, false, SPEC, FRESH_STATUS)
  const ANSWERS := Answers(Found, PodNotFound, true, PodCreated, Failure, Failure)

  const FOUND := ANSWERS.(pod := PodFound(PodRunning, None), create := AlreadyExists)

  /** The task after its first reconcile. */
  lemma Initialized(m: Mode) returns (c: Cell)
    ensures Reachable(m, c) && Ready(c) && c.clock == 0
    ensures Current(c).status == Advance(FRESH_STATUS, Initializing, Validated) && Current(c).finalizer
    ensures c.pod == None && c.ledger.created == [] && c.ledger.outsideDeletes == 0
  {
    var start := NewCell(TASK, 0);
    LeadsSelf(m, start);
    var acts := ServeOnce(m, start, ANSWERS);
    LeadsOn(m, start, start, acts);
    c := After(m, start, acts);
  }

  /** The pod of a running task is deleted by others, and a reconcile that still reads the initializing
      version creates a second one. */
  lemma StaleRun(m: Mode) returns (c: Cell)
    requires !m.freshReads
    ensures Reachable(m, c) && !FewPods(c)
  {
    var start := Initialized(m);
    var acts := ServeOnce(m, start, ANSWERS);
    HistGrows(m, start, acts);
    ReachableOn(m, start, acts);
    c := StaleReconcile(m, start, After(m, start, acts));
  }

  lemma StaleReconcile(m: Mode, start: Cell, running: Cell) returns (c: Cell)
    requires !m.freshReads
    requires Bounded(start) && start.hist <= running.hist && Current(start).finalizer && !Current(start).deleting
    requires Current(start).status.phase == Initializing
    requires Reachable(m, running) && Ready(running) && running.clock == 0
    requires Current(running).status.phase == Running
    requires |running.ledger.created| == 1 && running.ledger.outsideDeletes == 0
    ensures Reachable(m, c) && !FewPods(c)
  {
    var lost := Loses(m, running);
    var stale := Reads(m, lost, |start.hist| - 1);
    assert stale.rec == Read(Current(start));
    c := Creates(m, stale);
  }

  lemma Loses(m: Mode, c: Cell) returns (c': Cell)
    requires Reachable(m, c) && Bounded(c) && Current(c).status.phase == Running
    ensures Reachable(m, c') && c' == c.(pod := None)
  {
    ReachableStep(m, c, LosePod);
    c' := Apply(m, c, LosePod);
  }

  lemma Reads(m: Mode, c: Cell, i: nat) returns (c': Cell)
    requires Bounded(c) && Reachable(m, c) && Enabled(m, c, Begin(i))
    ensures Reachable(m, c') && c' == c.(rec := Read(c.hist[i]), wake := false, begun := c.clock)
  {
    ReachableStep(m, c, Begin(i));
    c' := Apply(m, c, Begin(i));
  }

  /** A reconcile that reads an initializing task and finds no pod creates one. */
  lemma Creates(m: Mode, c: Cell) returns (c': Cell)
    requires Reachable(m, c) && Bounded(c) && c.rec.Read? && c.clock == 0 && c.pod == None
    requires c.rec.base.status.phase == Initializing && c.rec.base.finalizer && !c.rec.base.deleting
    ensures Reachable(m, c') && c'.hist == c.hist && c'.live == c.live && c'.pod.Some?
    ensures |c'.ledger.created| == |c.ledger.created| + 1
    ensures c'.ledger.outsideDeletes == c.ledger.outsideDeletes
  {
    var act := Act(ANSWERS, Answered, 0, 0);
    ReachableStep(m, c, act);
    c' := Apply(m, c, act);
    TakenFrame(c, Decide(c.rec.base, ANSWERS, 0, 0), PodNotFound, Answered, 0);
  }

  // ----- a lost write loses the start time

  /** The pod is created, the controller stops before the status write, and the next reconcile adopts the
      pod it finds: so a task whose pod is running may have no start time, however current its reads. */
  lemma RunningWithoutStart(m: Mode) returns (c: Cell)
    ensures Reachable(m, c) && c.pod.Some?
    ensures Current(c).status.phase == Running && Current(c).status.startTime == None
  {
    var start := Initialized(m);
    var lost := LostLaunch(m, start);
    var acts := ServeOnce(m, lost, FOUND);
    ReachableOn(m, lost, acts);
    c := After(m, lost, acts);
  }

  lemma LostLaunch(m: Mode, start: Cell) returns (c: Cell)
    requires Reachable(m, start) && Ready(start) && start.clock == 0 && start.pod == None
    requires Current(start).status.phase == Initializing && Current(start).finalizer
    ensures Reachable(m, c) && Ready(c) && Current(c) == Current(start) && c.pod.Some?
  {
    var read := Reads(m, start, |start.hist| - 1);
    var acted := Creates(m, read);
    c := Interrupt(m, acted);
    ReadyAgain(start, c);
  }

  lemma ReadyAgain(c: Cell, c': Cell)
    requires Ready(c) && c'.hist == c.hist && c'.live && c'.rec == Idle && c'.wake
    ensures Ready(c') && Current(c') == Current(c)
  {
  }

  lemma Interrupt(m: Mode, c: Cell) returns (c': Cell)
    requires Reachable(m, c) && Bounded(c)
    ensures Reachable(m, c') && c'.hist == c.hist && c'.live == c.live && c'.pod == c.pod
    ensures c'.rec == Idle && c'.wake
  {
    ReachableStep(m, c, Crash);
    c' := Apply(m, c, Crash);
  }

  lemma FreshReachable(m: Mode, c: Cell)
    requires m.freshReads && Reachable(m, c)
    ensures FewPods(c)
  {
    var t, clock :| Fresh(t) && Leads(m, NewCell(t, clock), c);
    var acts :| Valid(m, NewCell(t, clock), acts) && After(m, NewCell(t, clock), acts) == c;
    NewCellOk(t, clock);
    FreshRunPods(m, NewCell(t, clock), acts);
  }

  /** At most one pod per task, plus those others deleted while it initialized, in every run exactly
      when reconciles read the current version of their task. */
  lemma PodsExactly(m: Mode)
    ensures (forall c: Cell | Reachable(m, c) :: FewPods(c)) <==> m.freshReads
  {
    if m.freshReads {
      forall c: Cell | Reachable(m, c)
        ensures FewPods(c)
      {
        FreshReachable(m, c);
      }
    } else {
      var c := StaleRun(m);
    }
  }
}
