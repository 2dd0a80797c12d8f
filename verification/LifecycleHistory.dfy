/** The stored history of one task: what every version satisfies, how versions follow one another,
    and that every step keeps both. */
module LifecycleHistory {
  import opened AgentTypes
  import opened PodBuilder
  import opened GitOps
  import opened Handlers
  import opened Lifecycle

  // ----- one version

  /** A merge request can be addressed for this repository: its platform is one of the two that are known,
      GitHub if none is named, and its URL can be read for it. */
  predicate Addressable(git: GitSpec) {
    if git.platform == "" || git.platform == "github" then ParseGitHubRepo(git.repoURL).Success?
    else git.platform == "gitlab" && ParseGitLabProject(git.repoURL).Success?
  }

  /** Start and end are in order, and a timeout is only ever reported after its time. */
  ghost predicate TimesOk(t: Task, now: Time) {
    && (t.status.startTime.Some? ==>
          && t.status.startTime.value % SECOND == 0 && t.status.startTime.value <= now
          && t.status.podName != "" && t.status.branchName != ""
          && (t.status.endTime.Some? ==> t.status.startTime.value <= t.status.endTime.value))
    && (t.status.message.TimedOut? ==>
          && t.status.phase == Failed && t.status.startTime.Some?
          && t.status.startTime.value + TimeoutOf(t.spec) < now)
  }

  ghost predicate NamesOk(t: Task) {
    && (Rank(t.status.phase) <= 1 ==>
          t.status.podName == "" && t.status.branchName == "" && t.status.startTime == None)
    && (t.status.phase in {Running, CreatingMR, Succeeded} ==> t.status.podName == PodNameFor(t.name))
    && (t.status.podName != "" ==> t.status.podName == PodNameFor(t.name))
    && (t.status.branchName != "" ==> t.status.branchName == WorkBranchFor(t.name, t.spec.git))
  }

  ghost predicate StatusOk(t: Task, now: Time) {
    && t.status.phase != PushingBranch
    && (t.status.endTime.Some? <==> IsTerminal(t.status.phase))
    && (t.status.phase == Succeeded ==> Addressable(t.spec.git))
    && (IsActive(t.status.phase) || t.status.phase == Succeeded ==> MayStart(t) && t.spec.git.baseBranch != "")
    && NamesOk(t) && TimesOk(t, now)
  }

  /** The status a reconcile wants to write is a sound step forward from the object it read. */
  ghost predicate SoundMove(t: Task, status: TaskStatus, now: Time) {
    && StatusOk(t.(status := status), now)
    && Rank(t.status.phase) < Rank(status.phase)
    && (IsQueued(t.status.phase) && IsActive(status.phase) ==> MayStart(t))
    && (Rank(t.status.phase) >= 2 ==> status.startTime == t.status.startTime)
  }

  // ----- what handlers decide

  lemma PendingSound(t: Task, secret: Lookup, now: Time)
    requires StatusOk(t, now) && IsQueued(t.status.phase)
    ensures var n := DecidePending(t, secret, now); n.Persist? ==> SoundMove(t, n.status, now)
  {
  }

  lemma TruncateKeepsOrder(start: Time, now: Time)
    requires start % SECOND == 0 && start <= now
    ensures start <= Truncate(now)
  {
  }

  lemma FailSound(t: Task, status: TaskStatus, message: Message, now: Time)
    requires StatusOk(t, now) && !IsTerminal(t.status.phase)
    requires status == t.status || status == t.status.(exitCode := status.exitCode)
    requires message.TimedOut? ==>
               && t.status.startTime.Some?
               && t.status.startTime.value + TimeoutOf(t.spec) < now
    ensures SoundMove(t, Fail(status, message, now), now)
  {
  }

  lemma InitializingSound(t: Task, ans: Answers, now: Time)
    requires StatusOk(t, now) && t.status.phase == Initializing
    ensures var n := DecideInitializing(t, ans, now).next; n.Persist? ==> SoundMove(t, n.status, now)
  {
  }

  lemma RunningSound(t: Task, pod: PodAnswer, t1: Time, t2: Time)
    requires StatusOk(t, t1) && StatusOk(t, t2) && t.status.phase == Running && t1 <= t2
    ensures var n := DecideRunning(t, pod, t1, t2).next; n.Persist? ==> SoundMove(t, n.status, t2)
  {
  }

  lemma CreatingMRSound(t: Task, ans: Answers, now: Time)
    requires StatusOk(t, now) && t.status.phase == CreatingMR
    ensures var n := DecideCreatingMR(t, ans, now).next; n.Persist? ==> SoundMove(t, n.status, now)
  {
    FailSound(t, t.status, CredentialsUnresolved, now);
    FailSound(t, t.status, CredentialsNotConfigured, now);
    FailSound(t, t.status, MRNotCreated, now);
    if t.status.startTime.Some? {
      TruncateKeepsOrder(t.status.startTime.value, now);
    }
  }

  lemma StatusOkLater(t: Task, now: Time, later: Time)
    requires StatusOk(t, now) && now <= later
    ensures StatusOk(t, later)
  {
  }

  /** Whatever a reconcile decides to write is a sound step. */
  lemma DecideSound(t: Task, ans: Answers, now: Time, t1: Time, t2: Time)
    requires StatusOk(t, now) && now <= t1 <= t2
    ensures var n := Decide(t, ans, t1, t2).next; n.Persist? ==> SoundMove(t, n.status, t2)
  {
    StatusOkLater(t, now, t1);
    StatusOkLater(t, now, t2);
    match t.status.phase
    case Unset => PendingSound(t, ans.secret, t2);
    case Pending => PendingSound(t, ans.secret, t2);
    case Initializing => InitializingSound(t, ans, t2);
    case Running => RunningSound(t, ans.pod, t1, t2);
    case CreatingMR => CreatingMRSound(t, ans, t2);
    case _ =>
  }

  // ----- histories

  /** `u` is stored after `t`: what the author fixed stays, the phase moves forward or the status
      stays, and a deletion mark freezes the status. */
  ghost predicate Follows(t: Task, u: Task) {
    && u.name == t.name && u.created == t.created
    && u.spec.git == t.spec.git && u.spec.timeout == t.spec.timeout && u.spec.poolRef == t.spec.poolRef
    && Rank(t.status.phase) <= Rank(u.status.phase)
    && (Rank(t.status.phase) == Rank(u.status.phase) ==> t.status == u.status)
    && (t.deleting ==> u.deleting && u.status == t.status)
    && (Rank(t.status.phase) >= 2 ==> u.status.startTime == t.status.startTime)
    && (Granted(t) ==> Granted(u))
  }

  ghost predicate HistOk(hist: seq<Task>, now: Time) {
    && |hist| > 0
    && (forall i {:trigger hist[i]} | 0 <= i < |hist| :: hist[i].version == i && StatusOk(hist[i], now))
    && (forall i, j {:trigger Follows(hist[i], hist[j])} | 0 <= i <= j < |hist| :: Follows(hist[i], hist[j]))
  }

  lemma HistPush(hist: seq<Task>, t: Task, now: Time)
    requires HistOk(hist, now)
    requires StatusOk(t, now) && t.version == |hist| && Follows(hist[|hist| - 1], t)
    ensures HistOk(hist + [t], now)
  {
    var hist' := hist + [t];
    forall i, j | 0 <= i <= j < |hist'|
      ensures Follows(hist'[i], hist'[j])
    {
      if j < |hist| {
        assert Follows(hist[i], hist[j]);
      } else if i < |hist| {
        assert Follows(hist[i], hist[|hist| - 1]);
      }
    }
  }

  lemma HistLater(hist: seq<Task>, now: Time, later: Time)
    requires HistOk(hist, now) && now <= later
    ensures HistOk(hist, later)
  {
  }

  ghost predicate OfHist(hist: seq<Task>, t: Task) {
    t.version < |hist| && hist[t.version] == t
  }

  ghost predicate RecOk(rec: Rec, hist: seq<Task>, now: Time) {
    match rec
    case Idle => true
    case Read(base) => OfHist(hist, base)
    case Persisting(base, status, posted) =>
      && OfHist(hist, base) && !base.deleting && base.finalizer
      && SoundMove(base, status, now)
      && (posted ==> base.status.phase == CreatingMR && IsTerminal(status.phase))
    case Releasing(base, cleanup) =>
      && OfHist(hist, base) && base.deleting
      && (cleanup.asked <==> base.status.podName != "" && cleanup.seen.PodFound?)
  }

  ghost predicate StoreOk(c: Cell) {
    HistOk(c.hist, c.clock) && RecOk(c.rec, c.hist, c.clock)
  }

  // ----- steps

  lemma RecLater(rec: Rec, hist: seq<Task>, now: Time, later: Time)
    requires RecOk(rec, hist, now) && now <= later
    ensures RecOk(rec, hist, later)
  {
  }

  lemma RecPush(rec: Rec, hist: seq<Task>, t: Task, now: Time)
    requires RecOk(rec, hist, now)
    ensures RecOk(rec, hist + [t], now)
  {
  }

  /** An accepted write was based on the current version itself. */
  lemma BaseIsCurrent(c: Cell, base: Task, reply: Reply)
    requires StoreOk(c) && OfHist(c.hist, base) && Accepts(c, base, reply)
    ensures base == Current(c)
  {
  }

  lemma PushOk(c: Cell, t: Task)
    requires StoreOk(c)
    requires StatusOk(t, c.clock) && Follows(Current(c), t)
    ensures StoreOk(Push(c, t))
  {
    var t' := t.(version := |c.hist|);
    HistPush(c.hist, t', c.clock);
    RecPush(c.rec, c.hist, t', c.clock);
  }

  /** Any write based on a stored version, if it would be a sound successor of that version. */
  lemma StoreKeeps(c: Cell, base: Task, t: Task, reply: Reply)
    requires StoreOk(c) && OfHist(c.hist, base)
    requires StatusOk(t, c.clock) && Follows(base, t)
    ensures StoreOk(Store(c, base, t, reply))
    ensures Accepts(c, base, reply) ==> base == Current(c)
    ensures var c' := Store(c, base, t, reply); Accepts(c, base, reply) ==> OfHist(c'.hist, Current(c'))
  {
    if Accepts(c, base, reply) {
      BaseIsCurrent(c, base, reply);
      PushOk(c, t);
    }
  }

  lemma OfHistOk(c: Cell, t: Task)
    requires StoreOk(c) && OfHist(c.hist, t)
    ensures StatusOk(t, c.clock) && Follows(t, t)
  {
  }

  lemma FinalizerAddedOk(c: Cell, reply: Reply)
    requires StoreOk(c) && c.rec.Read?
    ensures StoreOk(FinalizerAdded(c, reply))
  {
    OfHistOk(c, c.rec.base);
    StoreKeeps(c, c.rec.base, c.rec.base.(finalizer := true), reply);
  }

  lemma ActedOk(c: Cell, ans: Answers, reply: Reply, t1: Time, t2: Time)
    requires StoreOk(c) && c.rec.Read? && !c.rec.base.deleting && c.rec.base.finalizer
    requires c.clock <= t1 <= t2
    ensures StoreOk(Acted(c, ans, reply, t1, t2))
    ensures Acted(c, ans, reply, t1, t2).hist == c.hist
  {
    OfHistOk(c, c.rec.base);
    DecideSound(c.rec.base, ans, c.clock, t1, t2);
    HistLater(c.hist, c.clock, t2);
  }

  lemma WrittenOk(c: Cell, reply: Reply)
    requires StoreOk(c) && c.rec.Persisting?
    ensures StoreOk(Written(c, reply))
  {
    StoreKeeps(c, c.rec.base, c.rec.base.(status := c.rec.status), reply);
  }

  lemma ReleasedOk(c: Cell, reply: Reply)
    requires StoreOk(c) && c.rec.Releasing?
    ensures StoreOk(Released(c, reply))
  {
    OfHistOk(c, c.rec.base);
    StoreKeeps(c, c.rec.base, c.rec.base.(finalizer := false), reply);
  }

  lemma SlotGrantedOk(c: Cell, base: Task, reply: Reply)
    requires StoreOk(c) && base in c.hist
    ensures StoreOk(SlotGranted(c, base, reply))
  {
    assert OfHist(c.hist, base);
    OfHistOk(c, base);
    StoreKeeps(c, base, WithSlot(base), reply);
  }

  lemma CurrentOk(c: Cell)
    requires StoreOk(c)
    ensures StatusOk(Current(c), c.clock) && Current(c).version == |c.hist| - 1
    ensures OfHist(c.hist, Current(c))
  {
  }

  // ----- writes that leave the status alone

  ghost predicate SameStatus(c: Cell, c': Cell) {
    && Bounded(c) && Bounded(c') && Current(c').status == Current(c).status
    && Current(c').deleting == Current(c).deleting && Current(c').spec.timeout == Current(c).spec.timeout
  }

  lemma StoreKeepsStatus(c: Cell, base: Task, t: Task, reply: Reply)
    requires StoreOk(c) && OfHist(c.hist, base)
    requires t.status == base.status && t.spec.timeout == base.spec.timeout && t.deleting == base.deleting
    ensures SameStatus(c, Store(c, base, t, reply))
  {
    if Accepts(c, base, reply) {
      BaseIsCurrent(c, base, reply);
    }
  }

  lemma FinalizerAddedFrame(c: Cell, reply: Reply)
    requires StoreOk(c) && c.rec.Read?
    ensures var c' := FinalizerAdded(c, reply);
            && SameStatus(c, c') && c'.live == c.live && c'.pod == c.pod && c'.ledger == c.ledger
            && c'.clock == c.clock && c'.begun == c.begun
            && if Accepts(c, c.rec.base, reply) && reply == Answered
               then c'.rec == Read(Current(c')) && c'.rec.base.status == c.rec.base.status
               else c'.rec == Idle && c'.wake
  {
    StoreKeepsStatus(c, c.rec.base, c.rec.base.(finalizer := true), reply);
    if Accepts(c, c.rec.base, reply) {
      BaseIsCurrent(c, c.rec.base, reply);
    }
  }

  lemma ReleasedFrame(c: Cell, reply: Reply)
    requires StoreOk(c) && c.rec.Releasing?
    ensures var c' := Released(c, reply);
            && SameStatus(c, c') && c'.rec == Idle && c'.pod == c.pod && c'.clock == c.clock
            && c'.begun == c.begun && c'.ledger.created == c.ledger.created
            && c'.ledger.outsideDeletes == c.ledger.outsideDeletes
  {
    StoreKeepsStatus(c, c.rec.base, c.rec.base.(finalizer := false), reply);
  }

  lemma SlotGrantedFrame(c: Cell, base: Task, reply: Reply)
    requires StoreOk(c) && base in c.hist
    ensures var c' := SlotGranted(c, base, reply); SameStatus(c, c') && c' == c.(hist := c'.hist)
  {
    assert OfHist(c.hist, base);
    StoreKeepsStatus(c, base, WithSlot(base), reply);
  }

  lemma StepKeepsStore(m: Mode, c: Cell, a: Action)
    requires StoreOk(c) && Enabled(m, c, a)
    ensures StoreOk(Apply(m, c, a))
  {
    CurrentOk(c);
    match a
    case Begin(i) =>
    case AddFinalizer(reply) => FinalizerAddedOk(c, reply);
    case Act(ans, reply, t1, t2) => ActedOk(c, ans, reply, t1, t2);
    case Write(reply) => WrittenOk(c, reply);
    case CleanPod(seen, reply) =>
    case Release(reply) => ReleasedOk(c, reply);
    case GrantSlot(base, reply) => SlotGrantedOk(c, base, reply);
    case Edit(spec) => PushOk(c, Current(c).(spec := spec));
    case MarkDeleted => PushOk(c, Current(c).(deleting := true));
    case Tick(now) => HistLater(c.hist, c.clock, now); RecLater(c.rec, c.hist, c.clock, now);
    case _ =>
  }

  lemma NewCellOk(t: Task, clock: Time)
    requires Fresh(t)
    ensures StoreOk(NewCell(t, clock))
  {
  }
}
