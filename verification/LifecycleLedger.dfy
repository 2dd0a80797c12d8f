/** What the outside world sees of a task: merge requests asked for, pods created, and the wakeups
    that keep the task moving. */
module LifecycleLedger {
  import opened AgentTypes
  import opened PodBuilder
  import opened GitOps
  import opened Handlers
  import opened Lifecycle
  import opened LifecycleHistory

  // ----- merge requests

  function InFlight(rec: Rec): nat {
    if rec.Persisting? && rec.posted then 1 else 0
  }

  /** Every merge request asked for has had its outcome stored, is about to, or was lost; and only one
      outcome is ever stored. */
  ghost predicate PostsOk(l: Ledger, rec: Rec, phase: Phase) {
    && |l.posted| == l.recorded + l.lost + InFlight(rec)
    && l.recorded <= 1 && (l.recorded == 1 ==> IsTerminal(phase))
    && l.writes <= Rank(phase)
  }

  /** Nobody asks for a merge request before a reconcile has seen the pod succeed. */
  ghost predicate SightOk(l: Ledger, rec: Rec, hist: seq<Task>) {
    l.sawSuccess
    || (&& l.posted == []
        && (forall i {:trigger hist[i]} | 0 <= i < |hist| :: hist[i].status.phase != CreatingMR)
        && (rec.Persisting? ==> rec.status.phase != CreatingMR))
  }

  /** A merge request is what its author asked for, and goes to the address that follows from it. */
  ghost predicate AsksFor(request: Request, name: string, git: GitSpec) {
    && request.opts.sourceBranch == (if git.workBranch != "" then git.workBranch else "kbrain/" + name)
    && request.opts.targetBranch == (if git.targetBranch != "" then git.targetBranch else git.baseBranch)
    && request.opts.repoURL == git.repoURL
    && request.opts.platform == (if git.platform != "" then git.platform else "github")
    && request.opts.token != ""
    && RequestURL(request.opts) == Success(request.address)
  }

  /** The pod works on the author's branches and belongs to its task. */
  ghost predicate WorksFor(pod: Pod, name: string, git: GitSpec) {
    var branch := if git.workBranch != "" then git.workBranch else "kbrain/" + name;
    && pod.name == "agent-" + name && pod.owner == Some(name)
    && EnvValue(pod.env, "GIT_BRANCH") == Some(Literal(branch))
    && EnvValue(pod.env, "TARGET_BRANCH")
       == Some(Literal(if git.targetBranch != "" then git.targetBranch else git.baseBranch))
    && pod.cloneBranch == branch && pod.cloneBase == git.baseBranch
  }

  ghost predicate BranchesOk(l: Ledger, pod: Option<Pod>, name: string, git: GitSpec) {
    && (forall i {:trigger l.posted[i]} | 0 <= i < |l.posted| :: AsksFor(l.posted[i], name, git))
    && (forall i {:trigger l.created[i]} | 0 <= i < |l.created| :: WorksFor(l.created[i], name, git))
    && (pod.Some? ==> WorksFor(pod.value, name, git))
  }

  lemma BuiltPodWorks(t: Task)
    ensures WorksFor(WithOwner(Build(t), t.name), t.name, t.spec.git)
  {
    AgentSeesBranches(t);
  }

  /** A merge request goes out as its author asked for it, stored branch name or not. */
  lemma RequestAsksFor(t: Task, token: string, now: Time)
    requires StatusOk(t, now) && token != ""
    ensures forall address | RequestURL(MROptions(t, token)) == Success(address) ::
              AsksFor(Request(address, MROptions(t, token)), t.name, t.spec.git)
  {
  }

  ghost predicate LedgerOk(c: Cell)
    requires Bounded(c)
  {
    && PostsOk(c.ledger, c.rec, Current(c).status.phase)
    && SightOk(c.ledger, c.rec, c.hist)
    && BranchesOk(c.ledger, c.pod, Current(c).name, Current(c).spec.git)
  }

  lemma FewWrites(c: Cell)
    requires Bounded(c) && LedgerOk(c)
    ensures c.ledger.writes <= 4
  {
  }

  // ----- an act

  /** What every decision has in common with the object it was taken on. */
  ghost predicate Sensible(t: Task, d: Decision, pod: PodAnswer) {
    && (d.effect.PostMR? ==>
          && t.status.phase == CreatingMR && AsksFor(d.effect.request, t.name, t.spec.git)
          && d.next.Persist?)
    && (d.effect.CreatePod? ==> t.status.phase == Initializing && WorksFor(d.effect.pod, t.name, t.spec.git))
    && (d.effect.DeletePod? ==> t.status.phase == Running)
    && (d.next.Persist? && d.next.status.phase == CreatingMR ==>
          t.status.phase == Running && pod.PodFound? && pod.phase == PodSucceeded)
    && (d.next == Stop(Done) ==> IsTerminal(t.status.phase))
  }

  lemma DecideSensible(t: Task, ans: Answers, now: Time, t1: Time, t2: Time)
    requires StatusOk(t, now)
    ensures Sensible(t, Decide(t, ans, t1, t2), ans.pod)
  {
    match t.status.phase
    case Initializing => BuiltPodWorks(t);
    case CreatingMR =>
      forall token | token != ""
        ensures forall address | RequestURL(MROptions(t, token)) == Success(address) ::
                  AsksFor(Request(address, MROptions(t, token)), t.name, t.spec.git)
      {
        RequestAsksFor(t, token, now);
      }
    case _ =>
  }

  /** The ledger of a reconcile that carries out a decision. */
  function LedgerAfter(l: Ledger, there: Option<Pod>, t: Task, d: Decision, pod: PodAnswer, reply: Reply): Ledger {
    Observe(Perform(l, there, d.effect, reply), t.status.phase, pod)
  }

  lemma TakenPosts(l: Ledger, there: Option<Pod>, t: Task, d: Decision, pod: PodAnswer, reply: Reply,
                   phase: Phase)
    requires PostsOk(l, Read(t), phase)
    requires d.effect.PostMR? ==> d.next.Persist?
    ensures PostsOk(LedgerAfter(l, there, t, d, pod, reply), RecAfter(t, d), phase)
  {
  }

  lemma TakenSight(l: Ledger, there: Option<Pod>, t: Task, d: Decision, pod: PodAnswer, reply: Reply,
                   hist: seq<Task>)
    requires SightOk(l, Read(t), hist)
    requires OfHist(hist, t) && Sensible(t, d, pod)
    ensures SightOk(LedgerAfter(l, there, t, d, pod, reply), RecAfter(t, d), hist)
  {
  }

  lemma TakenBranches(l: Ledger, there: Option<Pod>, t: Task, d: Decision, pod: PodAnswer, reply: Reply)
    requires BranchesOk(l, there, t.name, t.spec.git) && Sensible(t, d, pod)
    ensures BranchesOk(LedgerAfter(l, there, t, d, pod, reply), PodAfter(there, d.effect, reply),
                       t.name, t.spec.git)
  {
  }

  /** How a version read, possibly stale, relates to the current one. */
  lemma ReadFacts(c: Cell, t: Task)
    requires StoreOk(c) && OfHist(c.hist, t)
    ensures StatusOk(t, c.clock)
    ensures t.name == Current(c).name && t.spec.git == Current(c).spec.git
    ensures t.spec.timeout == Current(c).spec.timeout
    ensures IsTerminal(t.status.phase) ==> IsTerminal(Current(c).status.phase)
    ensures t.status.phase == Current(c).status.phase ==> t.status == Current(c).status
  {
    assert Follows(c.hist[t.version], c.hist[|c.hist| - 1]);
  }

  lemma ActedLedger(c: Cell, ans: Answers, reply: Reply, t1: Time, t2: Time)
    requires StoreOk(c) && c.rec.Read? && LedgerOk(c)
    ensures LedgerOk(Acted(c, ans, reply, t1, t2))
  {
    var d := Decide(c.rec.base, ans, t1, t2);
    ReadFacts(c, c.rec.base);
    DecideSensible(c.rec.base, ans, c.clock, t1, t2);
    TakenLedger(c, d, ans.pod, reply, t2);
  }

  lemma TakenLedger(c: Cell, d: Decision, pod: PodAnswer, reply: Reply, now: Time)
    requires Bounded(c) && c.rec.Read? && LedgerOk(c) && Sensible(c.rec.base, d, pod)
    requires OfHist(c.hist, c.rec.base)
    requires c.rec.base.name == Current(c).name && c.rec.base.spec.git == Current(c).spec.git
    ensures LedgerOk(Taken(c, d, pod, reply, now))
  {
    var t, l := c.rec.base, c.ledger;
    TakenPosts(l, c.pod, t, d, pod, reply, Current(c).status.phase);
    TakenSight(l, c.pod, t, d, pod, reply, c.hist);
    TakenBranches(l, c.pod, t, d, pod, reply);
  }

  // ----- a write

  lemma WrittenLedger(c: Cell, reply: Reply)
    requires StoreOk(c) && c.rec.Persisting? && LedgerOk(c)
    ensures LedgerOk(Written(c, reply))
  {
    if Accepts(c, c.rec.base, reply) {
      BaseIsCurrent(c, c.rec.base, reply);
      AcceptedLedger(c, reply);
    } else {
      LedgerStays(c, Written(c, reply));
    }
  }

  lemma AcceptedLedger(c: Cell, reply: Reply)
    requires Bounded(c) && c.rec.Persisting? && LedgerOk(c) && Accepts(c, c.rec.base, reply)
    requires c.rec.base == Current(c) && RecOk(c.rec, c.hist, c.clock)
    ensures LedgerOk(Written(c, reply))
  {
  }

  /** Other writes leave the status alone. */
  lemma StoreLedger(c: Cell, base: Task, t: Task, reply: Reply)
    requires StoreOk(c) && LedgerOk(c) && OfHist(c.hist, base)
    requires t.status == base.status && t.name == base.name && t.spec.git == base.spec.git
    ensures LedgerOk(Store(c, base, t, reply))
    ensures Current(Store(c, base, t, reply)).status == Current(c).status
  {
  }

  lemma PushLedger(c: Cell, t: Task)
    requires Bounded(c) && LedgerOk(c)
    requires t.status == Current(c).status && t.name == Current(c).name && t.spec.git == Current(c).spec.git
    ensures LedgerOk(Push(c, t))
  {
  }

  /** Actions that ask for nothing and store nothing. */
  lemma LedgerStays(c: Cell, c': Cell)
    requires Bounded(c) && LedgerOk(c) && c'.hist == c.hist
    requires c'.ledger.posted == c.ledger.posted && c'.ledger.created == c.ledger.created
    requires c'.ledger.recorded == c.ledger.recorded && c'.ledger.writes == c.ledger.writes
    requires c'.ledger.sawSuccess == c.ledger.sawSuccess
    requires c'.ledger.lost + InFlight(c'.rec) == c.ledger.lost + InFlight(c.rec)
    requires (c'.rec == c.rec || !c'.rec.Persisting?) && (c'.pod == c.pod || c'.pod == None)
    ensures LedgerOk(c')
  {
    SightStays(c.ledger, c'.ledger, c.rec, c'.rec, c.hist);
    BranchesStay(c.ledger, c'.ledger, c.pod, c'.pod, Current(c).name, Current(c).spec.git);
  }

  lemma SightStays(l: Ledger, l': Ledger, rec: Rec, rec': Rec, hist: seq<Task>)
    requires SightOk(l, rec, hist) && l'.posted == l.posted && l'.sawSuccess == l.sawSuccess
    requires rec' == rec || !rec'.Persisting?
    ensures SightOk(l', rec', hist)
  {
  }

  lemma BranchesStay(l: Ledger, l': Ledger, pod: Option<Pod>, pod': Option<Pod>, name: string, git: GitSpec)
    requires BranchesOk(l, pod, name, git) && l'.posted == l.posted && l'.created == l.created
    requires pod' == pod || pod' == None
    ensures BranchesOk(l', pod', name, git)
  {
  }

  lemma FinalizerAddedLedger(c: Cell, reply: Reply)
    requires StoreOk(c) && LedgerOk(c) && c.rec.Read?
    ensures LedgerOk(FinalizerAdded(c, reply))
  {
    var t := c.rec.base.(finalizer := true);
    StoreLedger(c, c.rec.base, t, reply);
    LedgerStays(Store(c, c.rec.base, t, reply), FinalizerAdded(c, reply));
  }

  lemma ReleasedLedger(c: Cell, reply: Reply)
    requires StoreOk(c) && LedgerOk(c) && c.rec.Releasing?
    ensures LedgerOk(Released(c, reply))
  {
    var t := c.rec.base.(finalizer := false);
    StoreLedger(c, c.rec.base, t, reply);
    LedgerStays(Store(c, c.rec.base, t, reply), Released(c, reply));
  }

  lemma SlotGrantedLedger(c: Cell, base: Task, reply: Reply)
    requires StoreOk(c) && LedgerOk(c) && base in c.hist
    ensures LedgerOk(SlotGranted(c, base, reply))
  {
    assert OfHist(c.hist, base);
    StoreLedger(c, base, WithSlot(base), reply);
  }

  /** The steps of the controller itself. */
  lemma OwnStepKeepsLedger(m: Mode, c: Cell, a: Action)
    requires StoreOk(c) && LedgerOk(c) && Enabled(m, c, a)
    requires a.AddFinalizer? || a.Act? || a.Write? || a.Release? || a.GrantSlot?
    ensures LedgerOk(Apply(m, c, a))
  {
    match a
    case AddFinalizer(reply) => FinalizerAddedLedger(c, reply);
    case Act(ans, reply, t1, t2) => ActedLedger(c, ans, reply, t1, t2);
    case Write(reply) => WrittenLedger(c, reply);
    case Release(reply) => ReleasedLedger(c, reply);
    case GrantSlot(base, reply) => SlotGrantedLedger(c, base, reply);
  }

  lemma StepKeepsLedger(m: Mode, c: Cell, a: Action)
    requires StoreOk(c) && LedgerOk(c) && Enabled(m, c, a)
    ensures LedgerOk(Apply(m, c, a))
  {
    match a
    case Edit(spec) => PushLedger(c, Current(c).(spec := spec));
    case MarkDeleted => PushLedger(c, Current(c).(deleting := true));
    case Begin(_) => LedgerStays(c, Apply(m, c, a));
    case CleanPod(_, _) => LedgerStays(c, Apply(m, c, a));
    case Crash => LedgerStays(c, Apply(m, c, a));
    case LosePod => LedgerStays(c, Apply(m, c, a));
    case Tick(_) => LedgerStays(c, Apply(m, c, a));
    case Event => LedgerStays(c, Apply(m, c, a));
    case _ => OwnStepKeepsLedger(m, c, a);
  }

  // ----- wakeups

  /** An undeleted task that is not finished is being worked on or will be. */
  ghost predicate AwakeOk(c: Cell)
    requires Bounded(c)
  {
    c.live && !Current(c).deleting && !IsTerminal(Current(c).status.phase) ==> c.wake || c.rec != Idle
  }

  lemma StepKeepsAwake(m: Mode, c: Cell, a: Action)
    requires StoreOk(c) && AwakeOk(c) && Enabled(m, c, a)
    ensures AwakeOk(Apply(m, c, a))
  {
    match a
    case Act(ans, reply, t1, t2) => ActedAwake(c, ans, reply, t1, t2);
    case Write(reply) => WrittenAwake(c, reply);
    case GrantSlot(base, reply) => SlotGrantedFrame(c, base, reply);
    case AddFinalizer(reply) => FinalizerAddedFrame(c, reply);
    case Release(reply) => ReleasedAwake(c, reply);
    case _ => OtherStepKeepsAwake(m, c, a);
  }

  lemma OtherStepKeepsAwake(m: Mode, c: Cell, a: Action)
    requires Bounded(c) && AwakeOk(c) && Enabled(m, c, a)
    requires !a.Act? && !a.Write? && !a.GrantSlot? && !a.AddFinalizer? && !a.Release?
    ensures AwakeOk(Apply(m, c, a))
  {
  }

  lemma WrittenAwake(c: Cell, reply: Reply)
    requires StoreOk(c) && c.rec.Persisting?
    ensures AwakeOk(Written(c, reply))
  {
    WrittenFrame(c, reply);
  }

  lemma ReleasedAwake(c: Cell, reply: Reply)
    requires StoreOk(c) && c.rec.Releasing?
    ensures AwakeOk(Released(c, reply))
  {
    if Accepts(c, c.rec.base, reply) {
      BaseIsCurrent(c, c.rec.base, reply);
    }
  }

  /** A reconcile asks for nothing only when it has read a finished task, which then is finished. */
  lemma TakenAwake(c: Cell, d: Decision, pod: PodAnswer, reply: Reply, now: Time)
    requires Bounded(c) && c.rec.Read? && Sensible(c.rec.base, d, pod)
    requires IsTerminal(c.rec.base.status.phase) ==> IsTerminal(Current(c).status.phase)
    ensures AwakeOk(Taken(c, d, pod, reply, now))
  {
  }

  lemma ActedAwake(c: Cell, ans: Answers, reply: Reply, t1: Time, t2: Time)
    requires StoreOk(c) && c.rec.Read?
    ensures AwakeOk(Acted(c, ans, reply, t1, t2))
  {
    ReadFacts(c, c.rec.base);
    DecideSensible(c.rec.base, ans, c.clock, t1, t2);
    TakenAwake(c, Decide(c.rec.base, ans, t1, t2), ans.pod, reply, t2);
  }

  // ----- cleanup

  ghost predicate DropsFinalizer(hist: seq<Task>, i: nat)
    requires i + 1 < |hist|
  {
    hist[i].finalizer && !hist[i + 1].finalizer
  }

  /** The finalizer goes only once the recorded pod has been dealt with. */
  ghost predicate CleanupOk(c: Cell)
    requires Bounded(c)
  {
    && (c.live ==> c.ledger.cleanup == None)
    && (c.ledger.cleanup.Some? ==>
          (c.ledger.cleanup.value.asked <==>
           Current(c).status.podName != "" && c.ledger.cleanup.value.seen.PodFound?))
    && (c.ledger.cleanup == None ==> forall i: nat | i + 1 < |c.hist| :: !DropsFinalizer(c.hist, i))
  }

  /** Any accepted write that keeps the finalizer and the pod name, or comes too late to matter. */
  lemma PushCleanup(c: Cell, t: Task)
    requires Bounded(c) && CleanupOk(c) && c.live
    requires Current(c).finalizer ==> t.finalizer
    ensures CleanupOk(Push(c, t))
  {
    var c' := Push(c, t);
    forall i: nat | i + 1 < |c'.hist|
      ensures !DropsFinalizer(c'.hist, i)
    {
      if i + 1 < |c.hist| {
        assert !DropsFinalizer(c.hist, i);
      }
    }
  }

  lemma StoreCleanup(c: Cell, base: Task, t: Task, reply: Reply)
    requires StoreOk(c) && CleanupOk(c) && OfHist(c.hist, base)
    requires base.finalizer ==> t.finalizer
    ensures CleanupOk(Store(c, base, t, reply))
  {
    if Accepts(c, base, reply) {
      BaseIsCurrent(c, base, reply);
      PushCleanup(c, t);
    }
  }

  lemma ReleasedCleanup(c: Cell, reply: Reply)
    requires StoreOk(c) && CleanupOk(c) && c.rec.Releasing?
    ensures CleanupOk(Released(c, reply))
  {
  }

  /** Actions that neither store nor release anything. */
  lemma CleanupStays(c: Cell, c': Cell)
    requires Bounded(c) && CleanupOk(c)
    requires c'.hist == c.hist && c'.ledger.cleanup == c.ledger.cleanup && (c'.live ==> c.live)
    ensures CleanupOk(c')
  {
  }

  lemma TakenCleanup(c: Cell, d: Decision, pod: PodAnswer, reply: Reply, now: Time)
    requires Bounded(c) && CleanupOk(c) && c.rec.Read?
    ensures CleanupOk(Taken(c, d, pod, reply, now))
  {
  }

  lemma FinalizerAddedCleanup(c: Cell, reply: Reply)
    requires StoreOk(c) && CleanupOk(c) && c.rec.Read?
    ensures CleanupOk(FinalizerAdded(c, reply))
  {
    var t := c.rec.base.(finalizer := true);
    StoreCleanup(c, c.rec.base, t, reply);
    CleanupStays(Store(c, c.rec.base, t, reply), FinalizerAdded(c, reply));
  }

  lemma WrittenCleanup(c: Cell, reply: Reply)
    requires StoreOk(c) && CleanupOk(c) && c.rec.Persisting?
    ensures CleanupOk(Written(c, reply))
  {
    var t := c.rec.base.(status := c.rec.status);
    StoreCleanup(c, c.rec.base, t, reply);
    CleanupStays(Store(c, c.rec.base, t, reply), Written(c, reply));
  }

  lemma SlotGrantedCleanup(c: Cell, base: Task, reply: Reply)
    requires StoreOk(c) && CleanupOk(c) && base in c.hist
    ensures CleanupOk(SlotGranted(c, base, reply))
  {
    assert OfHist(c.hist, base);
    StoreCleanup(c, base, WithSlot(base), reply);
  }

  lemma StepKeepsCleanup(m: Mode, c: Cell, a: Action)
    requires StoreOk(c) && CleanupOk(c) && Enabled(m, c, a)
    ensures CleanupOk(Apply(m, c, a))
  {
    match a
    case AddFinalizer(reply) => FinalizerAddedCleanup(c, reply);
    case Act(ans, reply, t1, t2) =>
      TakenCleanup(c, Decide(c.rec.base, ans, t1, t2), ans.pod, reply, t2);
    case Write(reply) => WrittenCleanup(c, reply);
    case Release(reply) => ReleasedCleanup(c, reply);
    case GrantSlot(base, reply) => SlotGrantedCleanup(c, base, reply);
    case Edit(spec) => PushCleanup(c, Current(c).(spec := spec));
    case MarkDeleted =>
      if Current(c).finalizer {
        PushCleanup(c, Current(c).(deleting := true));
      } else {
        CleanupStays(c, DeletionMarked(c));
      }
    case _ => CleanupStays(c, Apply(m, c, a));
  }
}
