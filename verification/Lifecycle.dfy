/** One task, its pod, and the reconciles that work on it: reads may be stale, every write carries
    the version it was based on, and the controller may stop between an effect and the write. */
module Lifecycle {
  import opened AgentTypes
  import opened PodBuilder
  import opened GitOps
  import opened Handlers

  /** `freshReads`: a reconcile always reads the current version of its task. */
  datatype Mode = Mode(freshReads: bool)

  /** What a deletion saw of the recorded pod, and whether it asked for the pod's deletion. */
  datatype Cleanup = Cleanup(seen: PodAnswer, asked: bool)

  /** A reconcile in flight. `posted`: the status reports on a merge request this reconcile asked for. */
  datatype Rec =
    | Idle
    | Read(base: Task)
    | Persisting(base: Task, status: TaskStatus, posted: bool)
    | Releasing(base: Task, cleanup: Cleanup)

  /** What happened so far: merge requests asked for, pods created, how many requests had their
      outcome stored or lost, pods others deleted while the task was initializing, status writes
      accepted, whether a reconcile saw the pod succeed, and how the pod was cleaned up. */
  datatype Ledger = Ledger(posted: seq<Request>, created: seq<Pod>, recorded: nat, lost: nat,
                           outsideDeletes: nat, writes: nat, sawSuccess: bool, cleanup: Option<Cleanup>)

  /** `hist` holds every stored version, in order; the last is current. `live`: still in the store.
      `wake`: a reconcile is asked for, at the time `due`. `begun`: when the last one began. */
  datatype Cell = Cell(hist: seq<Task>, live: bool, pod: Option<Pod>, rec: Rec, clock: Time,
                       wake: bool, due: Time, begun: Time, ledger: Ledger)

  datatype Action =
    | Begin(version: nat)
    | AddFinalizer(reply: Reply)
    | Act(ans: Answers, reply: Reply, t1: Time, t2: Time)
    | Write(reply: Reply)
    | CleanPod(seen: PodAnswer, reply: Reply)
    | Release(reply: Reply)
    | Crash
    | GrantSlot(base: Task, reply: Reply)
    | Edit(spec: TaskSpec)
    | MarkDeleted
    | LosePod
    | Tick(now: Time)
    | Event

  predicate Bounded(c: Cell) {
    |c.hist| > 0
  }

  function Current(c: Cell): Task
    requires Bounded(c)
  {
    c.hist[|c.hist| - 1]
  }

  /** A task as its author creates it, waiting for its first reconcile. */
  function NewCell(t: Task, clock: Time): Cell {
    Cell([t], true, None, Idle, clock, true, clock, clock, Ledger([], [], 0, 0, 0, 0, false, None))
  }

  ghost predicate Fresh(t: Task) {
    t.version == 0 && t.status == FRESH_STATUS && !t.deleting && !Granted(t)
  }

  /** A write is accepted if it arrives and its base version is current. */
  predicate Accepts(c: Cell, base: Task, reply: Reply)
    requires Bounded(c)
  {
    reply != Dropped && c.live && Current(c).version == base.version
  }

  function Push(c: Cell, t: Task): (c': Cell)
    requires Bounded(c)
    ensures Bounded(c')
  {
    c.(hist := c.hist + [t.(version := |c.hist|)])
  }

  /** A write of `t` based on `base`, kept only if accepted. */
  function Store(c: Cell, base: Task, t: Task, reply: Reply): (c': Cell)
    requires Bounded(c)
    ensures Bounded(c')
  {
    if Accepts(c, base, reply) then Push(c, t) else c
  }

  /** A reconcile is asked for; of two times the earlier counts. */
  function Woken(c: Cell, due: Time): Cell {
    c.(wake := true, due := if c.wake && c.due < due then c.due else due)
  }

  /** What the work queue makes of a verdict. */
  function Requeue(c: Cell, verdict: Verdict): Cell {
    if verdict == Done then c else Woken(c, DueAt(verdict, c.clock))
  }

  /** When the next reconcile is due; a retry is due at once, however the queue then spaces retries. */
  function DueAt(verdict: Verdict, now: Time): Time {
    if verdict.RequeueAfter? then now + verdict.delay else now
  }

  function End(c: Cell, verdict: Verdict): Cell {
    Requeue(c.(rec := Idle), verdict)
  }

  function FinalizerAdded(c: Cell, reply: Reply): Cell
    requires Bounded(c) && c.rec.Read?
  {
    var t := c.rec.base.(finalizer := true);
    var c' := Store(c, c.rec.base, t, reply);
    if Accepts(c, c.rec.base, reply) && reply == Answered
    then c'.(rec := Read(Current(c'))) else End(c', Retry)
  }

  function CreateAnswerFor(present: bool, reply: Reply): CreateAnswer {
    if reply != Answered then CreateFailed else if present then AlreadyExists else PodCreated
  }

  /** The pod after an effect. */
  function PodAfter(pod: Option<Pod>, effect: Effect, reply: Reply): Option<Pod> {
    match effect
    case CreatePod(p) => if reply != Dropped && pod == None then Some(p) else pod
    case DeletePod(_) => if reply != Dropped then None else pod
    case _ => pod
  }

  /** What an effect adds to the ledger. */
  function Perform(l: Ledger, pod: Option<Pod>, effect: Effect, reply: Reply): Ledger {
    match effect
    case CreatePod(p) => if reply != Dropped && pod == None then l.(created := l.created + [p]) else l
    case PostMR(request) => l.(posted := l.posted + [request])
    case _ => l
  }

  /** A reconcile of a running task notices that its pod succeeded. */
  function Observe(l: Ledger, phase: Phase, pod: PodAnswer): Ledger {
    if phase == Running && pod.PodFound? && pod.phase == PodSucceeded then l.(sawSuccess := true) else l
  }

  function RecAfter(base: Task, d: Decision): Rec {
    match d.next
    case Stop(_) => Idle
    case Persist(status) => Persisting(base, status, d.effect.PostMR?)
  }

  /** A reconcile carries out what it decided. */
  function Taken(c: Cell, d: Decision, pod: PodAnswer, reply: Reply, now: Time): Cell
    requires Bounded(c) && c.rec.Read?
  {
    var c' := c.(pod := PodAfter(c.pod, d.effect, reply),
                 ledger := Observe(Perform(c.ledger, c.pod, d.effect, reply), c.rec.base.status.phase, pod),
                 rec := RecAfter(c.rec.base, d),
                 clock := now);
    if d.next.Stop? then Requeue(c', d.next.verdict) else c'
  }

  function Acted(c: Cell, ans: Answers, reply: Reply, t1: Time, t2: Time): Cell
    requires Bounded(c) && c.rec.Read?
  {
    Taken(c, Decide(c.rec.base, ans, t1, t2), ans.pod, reply, t2)
  }

  function Written(c: Cell, reply: Reply): Cell
    requires Bounded(c) && c.rec.Persisting?
  {
    var (base, status, posted) := (c.rec.base, c.rec.status, c.rec.posted);
    var accepted := Accepts(c, base, reply);
    var c' := Store(c, base, base.(status := status), reply);
    var ledger := c.ledger.(
      recorded := c.ledger.recorded + (if accepted && posted then 1 else 0),
      lost := c.ledger.lost + (if !accepted && posted then 1 else 0),
      writes := c.ledger.writes + (if accepted then 1 else 0));
    End(c'.(ledger := ledger), VerdictOf(status, accepted && reply == Answered))
  }

  /** A recorded pod is deleted if it is found. */
  predicate AsksDeletion(t: Task, seen: PodAnswer) {
    t.status.podName != "" && seen.PodFound?
  }

  function Cleaned(c: Cell, seen: PodAnswer, reply: Reply): Cell
    requires Bounded(c) && c.rec.Read?
  {
    var asked := AsksDeletion(c.rec.base, seen);
    c.(pod := if asked && reply != Dropped then None else c.pod,
       rec := Releasing(c.rec.base, Cleanup(seen, asked)))
  }

  function Released(c: Cell, reply: Reply): Cell
    requires Bounded(c) && c.rec.Releasing?
  {
    var accepted := Accepts(c, c.rec.base, reply);
    var c' := Store(c, c.rec.base, c.rec.base.(finalizer := false), reply);
    End(c'.(live := c.live && !accepted,
            ledger := if accepted then c.ledger.(cleanup := Some(c.rec.cleanup)) else c.ledger),
        if accepted && reply == Answered then Done else Retry)
  }

  function Crashed(c: Cell): Cell {
    var lost := if c.rec.Persisting? && c.rec.posted then 1 else 0;
    End(c.(ledger := c.ledger.(lost := c.ledger.lost + lost)), Retry)
  }

  /** The pool's write: refused unless based on the current version, silent when it changes nothing. */
  function SlotGranted(c: Cell, base: Task, reply: Reply): Cell
    requires Bounded(c)
  {
    if Granted(base) then c else Store(c, base, WithSlot(base), reply)
  }

  /** A deletion request marks the task, or removes it at once when nothing holds it. */
  function DeletionMarked(c: Cell): Cell
    requires Bounded(c)
  {
    if Current(c).finalizer then Push(c, Current(c).(deleting := true)) else c.(live := false)
  }

  function PodTaken(c: Cell): Cell
    requires Bounded(c)
  {
    var during := c.pod.Some? && Current(c).status.phase == Initializing;
    c.(pod := None,
       ledger := c.ledger.(outsideDeletes := c.ledger.outsideDeletes + if during then 1 else 0))
  }

  ghost predicate Enabled(m: Mode, c: Cell, a: Action)
    requires Bounded(c)
  {
    match a
    case Begin(i) =>
      && c.rec == Idle && c.wake && c.live && i < |c.hist|
      && (m.freshReads ==> i == |c.hist| - 1)
    case AddFinalizer(_) => c.rec.Read? && !c.rec.base.deleting && !c.rec.base.finalizer
    case Act(ans, reply, t1, t2) =>
      && c.rec.Read? && !c.rec.base.deleting && c.rec.base.finalizer
      && c.clock <= t1 <= t2
      && ans.create == CreateAnswerFor(c.pod.Some?, reply)
    case Write(_) => c.rec.Persisting?
    case CleanPod(_, _) => c.rec.Read? && c.rec.base.deleting
    case Release(_) => c.rec.Releasing?
    case Crash => true
    case GrantSlot(base, _) => base in c.hist
    case Edit(spec) =>
      && c.live
      && spec.git == Current(c).spec.git && spec.timeout == Current(c).spec.timeout
      && spec.poolRef == Current(c).spec.poolRef
    case MarkDeleted => c.live && !Current(c).deleting
    case LosePod => true
    case Tick(now) => c.clock <= now
    case Event => true
  }

  ghost function Apply(m: Mode, c: Cell, a: Action): (c': Cell)
    requires Bounded(c) && Enabled(m, c, a)
    ensures Bounded(c')
  {
    match a
    case Begin(i) => c.(rec := Read(c.hist[i]), wake := false, begun := c.clock)
    case AddFinalizer(reply) => FinalizerAdded(c, reply)
    case Act(ans, reply, t1, t2) => Acted(c, ans, reply, t1, t2)
    case Write(reply) => Written(c, reply)
    case CleanPod(seen, reply) => Cleaned(c, seen, reply)
    case Release(reply) => Released(c, reply)
    case Crash => Crashed(c)
    case GrantSlot(base, reply) => SlotGranted(c, base, reply)
    case Edit(spec) => Push(c, Current(c).(spec := spec))
    case MarkDeleted => DeletionMarked(c)
    case LosePod => PodTaken(c)
    case Tick(now) => c.(clock := now)
    case Event => Woken(c, c.clock)
  }

  ghost predicate Valid(m: Mode, c: Cell, acts: seq<Action>)
    requires Bounded(c)
    decreases |acts|
  {
    acts == [] || (Enabled(m, c, acts[0]) && Valid(m, Apply(m, c, acts[0]), acts[1..]))
  }

  ghost function After(m: Mode, c: Cell, acts: seq<Action>): (c': Cell)
    requires Bounded(c) && Valid(m, c, acts)
    ensures Bounded(c')
    decreases |acts|
  {
    if acts == [] then c else After(m, Apply(m, c, acts[0]), acts[1..])
  }

  // ----- what a reconcile leaves alone

  lemma TakenFrame(c: Cell, d: Decision, pod: PodAnswer, reply: Reply, now: Time)
    requires Bounded(c) && c.rec.Read?
    ensures var c' := Taken(c, d, pod, reply, now);
            && c'.hist == c.hist && c'.live == c.live && c'.rec == RecAfter(c.rec.base, d)
            && c'.pod == PodAfter(c.pod, d.effect, reply) && c'.clock == now && c'.begun == c.begun
            && c'.ledger.created == Perform(c.ledger, c.pod, d.effect, reply).created
            && c'.ledger.outsideDeletes == c.ledger.outsideDeletes
  {
  }

  lemma WrittenFrame(c: Cell, reply: Reply)
    requires Bounded(c) && c.rec.Persisting?
    ensures var c' := Written(c, reply);
            && c'.rec == Idle && c'.live == c.live && c'.pod == c.pod && c'.clock == c.clock
            && c'.hist == Store(c, c.rec.base, c.rec.base.(status := c.rec.status), reply).hist
            && c'.ledger.created == c.ledger.created && c'.ledger.outsideDeletes == c.ledger.outsideDeletes
  {
  }
}
