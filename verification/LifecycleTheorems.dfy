/** What holds of one task over every run, whatever is read late, refused, lost or interrupted. */
module LifecycleTheorems {
  import opened AgentTypes
  import opened PodBuilder
  import opened GitOps
  import opened Handlers
  import opened Lifecycle
  import opened LifecycleHistory
  import opened LifecycleLedger
  import opened LifecycleRuns

  ghost predicate Inv(c: Cell) {
    StoreOk(c) && LedgerOk(c) && AwakeOk(c) && CleanupOk(c)
  }

  lemma NewCellInv(t: Task, clock: Time)
    requires Fresh(t)
    ensures Inv(NewCell(t, clock))
  {
  }

  lemma StepKeepsInv(m: Mode, c: Cell, a: Action)
    requires Inv(c) && Enabled(m, c, a)
    ensures Inv(Apply(m, c, a))
  {
    StepKeepsStore(m, c, a);
    StepKeepsLedger(m, c, a);
    StepKeepsAwake(m, c, a);
    StepKeepsCleanup(m, c, a);
  }

  lemma {:induction false} RunKeepsInv(m: Mode, c: Cell, acts: seq<Action>)
    requires Inv(c) && Valid(m, c, acts)
    ensures Inv(After(m, c, acts))
    decreases |acts|
  {
    if acts != [] {
      StepKeepsInv(m, c, acts[0]);
      RunKeepsInv(m, Apply(m, c, acts[0]), acts[1..]);
    }
  }

  /** A task as some run from its creation has left it. */
  ghost predicate Reachable(m: Mode, c: Cell) {
    exists t: Task, clock: Time :: Fresh(t) && Leads(m, NewCell(t, clock), c)
  }

  lemma ReachableStep(m: Mode, c: Cell, a: Action)
    requires Reachable(m, c) && Bounded(c) && Enabled(m, c, a)
    ensures Reachable(m, Apply(m, c, a))
  {
    var t, clock :| Fresh(t) && Leads(m, NewCell(t, clock), c);
    LeadsStep(m, NewCell(t, clock), c, a);
  }

  lemma ReachableOn(m: Mode, c: Cell, acts: seq<Action>)
    requires Reachable(m, c) && Bounded(c) && Valid(m, c, acts)
    ensures Reachable(m, After(m, c, acts))
  {
    var t, clock :| Fresh(t) && Leads(m, NewCell(t, clock), c);
    LeadsOn(m, NewCell(t, clock), c, acts);
  }

  lemma NewCellReachable(m: Mode, t: Task, clock: Time)
    requires Fresh(t)
    ensures Reachable(m, NewCell(t, clock))
  {
    LeadsSelf(m, NewCell(t, clock));
  }

  lemma LeadsInv(m: Mode, t: Task, clock: Time, c: Cell)
    requires Fresh(t) && Leads(m, NewCell(t, clock), c)
    ensures Inv(c) && c.hist[0] == t
  {
    var acts :| Valid(m, NewCell(t, clock), acts) && After(m, NewCell(t, clock), acts) == c;
    NewCellInv(t, clock);
    RunKeepsInv(m, NewCell(t, clock), acts);
    HistGrows(m, NewCell(t, clock), acts);
  }

  lemma ReachableInv(m: Mode, c: Cell)
    requires Reachable(m, c)
    ensures Inv(c)
  {
    var t, clock :| Fresh(t) && Leads(m, NewCell(t, clock), c);
    LeadsInv(m, t, clock, c);
  }

  /** Stored phases only move forward; a finished status never changes; `PushingBranch` is never
      reached; and at most four status writes are ever accepted. */
  lemma PhasesMoveForward(m: Mode, c: Cell, i: nat, j: nat)
    requires Reachable(m, c) && i <= j < |c.hist|
    ensures Rank(c.hist[i].status.phase) <= Rank(c.hist[j].status.phase)
    ensures Rank(c.hist[i].status.phase) == Rank(c.hist[j].status.phase) || IsTerminal(c.hist[i].status.phase)
            ==> c.hist[i].status == c.hist[j].status
    ensures c.hist[i].status.phase != PushingBranch
    ensures c.ledger.writes <= 4
  {
    ReachableInv(m, c);
    assert Follows(c.hist[i], c.hist[j]);
  }

  /** A stored deletion mark stays and freezes the status, although reconciles that read an older
      version may still be under way. */
  lemma DeletionFreezesStatus(m: Mode, c: Cell, i: nat, j: nat)
    requires Reachable(m, c) && i <= j < |c.hist| && c.hist[i].deleting
    ensures c.hist[j].deleting && c.hist[j].status == c.hist[i].status
  {
    ReachableInv(m, c);
    assert Follows(c.hist[i], c.hist[j]);
  }

  /** A reconcile that has read the deletion mark takes no decision and writes no status; the finalizer
      goes only with an account of the recorded pod, and if that pod was found its deletion was asked
      for. */
  lemma DeletionIsOrderly(m: Mode, c: Cell, a: Action, i: nat)
    requires Reachable(m, c) && Enabled(m, c, a)
    ensures c.rec != Idle && c.rec.base.deleting ==> !a.Act? && !a.Write? && !a.AddFinalizer?
    ensures i + 1 < |c.hist| && DropsFinalizer(c.hist, i) ==> c.ledger.cleanup.Some?
    ensures c.ledger.cleanup.Some? ==>
              && !c.live
              && (c.ledger.cleanup.value.asked <==>
                  Current(c).status.podName != "" && c.ledger.cleanup.value.seen.PodFound?)
  {
    ReachableInv(m, c);
  }

  /** A deletion that finds the recorded pod removes it, if its request arrives, and only then. */
  lemma FoundPodIsDeleted(m: Mode, c: Cell, seen: PodAnswer, reply: Reply)
    requires Bounded(c) && Enabled(m, c, CleanPod(seen, reply))
    ensures var c' := Apply(m, c, CleanPod(seen, reply));
            && c'.rec == Releasing(c.rec.base, Cleanup(seen, c.rec.base.status.podName != "" && seen.PodFound?))
            && c'.pod == if c.rec.base.status.podName != "" && seen.PodFound? && reply != Dropped
                         then None else c.pod
  {
  }

  /** Merge requests are accounted for: each was recorded once and for all, lost with its status write,
      or is on its way to the store; and none is asked for unless the pod was seen to succeed. */
  lemma MergeRequestsAccounted(m: Mode, c: Cell)
    requires Reachable(m, c)
    ensures |c.ledger.posted| == c.ledger.recorded + c.ledger.lost + InFlight(c.rec)
    ensures c.ledger.recorded <= 1
    ensures c.rec == Idle ==> |c.ledger.posted| <= 1 + c.ledger.lost
    ensures c.ledger.posted != [] ==> c.ledger.sawSuccess
  {
    ReachableInv(m, c);
  }

  /** Every merge request names the branches that every pod of the task works on, and they are those the
      author asked for. */
  lemma BranchesAgree(m: Mode, c: Cell, i: nat, j: nat)
    requires Reachable(m, c) && i < |c.ledger.posted| && j < |c.ledger.created|
    ensures var opts, pod := c.ledger.posted[i].opts, c.ledger.created[j];
            && EnvValue(pod.env, "GIT_BRANCH") == Some(Literal(opts.sourceBranch))
            && EnvValue(pod.env, "TARGET_BRANCH") == Some(Literal(opts.targetBranch))
            && pod.cloneBranch == opts.sourceBranch
  {
    ReachableInv(m, c);
    assert AsksFor(c.ledger.posted[i], Current(c).name, Current(c).spec.git);
    assert WorksFor(c.ledger.created[j], Current(c).name, Current(c).spec.git);
  }

  /** Every merge request asks for what the author wrote, with the defaults that are documented, under some
      credential and at the address that follows. */
  lemma RequestsAsWritten(m: Mode, c: Cell, i: nat)
    requires Reachable(m, c) && i < |c.ledger.posted|
    ensures var opts, git := c.ledger.posted[i].opts, Current(c).spec.git;
            && opts.repoURL == git.repoURL && opts.token != ""
            && opts.platform == (if git.platform != "" then git.platform else "github")
            && opts.sourceBranch == (if git.workBranch != "" then git.workBranch else "kbrain/" + Current(c).name)
            && opts.targetBranch == (if git.targetBranch != "" then git.targetBranch else git.baseBranch)
            && RequestURL(opts) == Success(c.ledger.posted[i].address)
  {
    ReachableInv(m, c);
    assert AsksFor(c.ledger.posted[i], Current(c).name, Current(c).spec.git);
  }

  /** So a task that names no platform, with an ordinary GitHub URL, is posted to that repository. */
  lemma DefaultsToGitHub(m: Mode, c: Cell, i: nat, owner: string, repo: string, scheme: Scheme, suffixed: bool)
    requires Reachable(m, c) && i < |c.ledger.posted|
    requires Current(c).spec.git.platform == ""
    requires Current(c).spec.git.repoURL == PrintGitHub(owner, repo, scheme, suffixed)
    requires GitHubReadable(owner, repo, scheme, suffixed)
    ensures c.ledger.posted[i].address == "https://api.github.com/repos/" + owner + "/" + repo + "/pulls"
  {
    RequestsAsWritten(m, c, i);
    GitHubAddressed(c.ledger.posted[i].opts, owner, repo, scheme, suffixed);
  }

  /** Pods belong to the task they were created for. */
  lemma PodsAreOwned(m: Mode, c: Cell, j: nat)
    requires Reachable(m, c) && j < |c.ledger.created|
    ensures c.ledger.created[j].owner == Some(Current(c).name)
    ensures c.ledger.created[j].name == PodNameFor(Current(c).name)
  {
    ReachableInv(m, c);
    assert WorksFor(c.ledger.created[j], Current(c).name, Current(c).spec.git);
  }

  /** Nobody starts around the slot gate: a pooled task that is active, or got as far as succeeding, holds
      the slot its pool granted. */
  lemma StartedMeansGranted(m: Mode, c: Cell, i: nat)
    requires Reachable(m, c) && i < |c.hist|
    requires IsActive(c.hist[i].status.phase) || c.hist[i].status.phase == Succeeded
    ensures c.hist[i].spec.poolRef == "" || Granted(c.hist[i])
  {
    ReachableInv(m, c);
    assert StatusOk(c.hist[i], c.clock);
  }

  /** Every stored status is consistent. */
  lemma StatusIsConsistent(m: Mode, c: Cell, i: nat)
    requires Reachable(m, c) && i < |c.hist|
    ensures var s := c.hist[i].status;
            && (s.endTime.Some? <==> IsTerminal(s.phase))
            && (s.startTime.Some? ==> s.podName != "" && s.branchName != "")
            && (s.startTime.Some? && s.endTime.Some? ==> s.startTime.value <= s.endTime.value)
            && (s.phase in {Running, CreatingMR, Succeeded} ==> s.podName == PodNameFor(c.hist[i].name))
            && (IsQueued(s.phase) || s.phase == Initializing ==> s.podName == "" && s.startTime == None)
  {
    ReachableInv(m, c);
    assert StatusOk(c.hist[i], c.clock);
  }

  /** A task is reported as timed out only after its own timeout, or thirty minutes if its author's text
      gives none. */
  lemma NeverEarly(m: Mode, c: Cell, i: nat)
    requires Reachable(m, c) && i < |c.hist| && c.hist[i].status.message.TimedOut?
    ensures c.hist[i].status.phase == Failed && c.hist[i].status.startTime.Some?
    ensures match c.hist[i].spec.timeout
            case Some(d) => c.hist[i].status.startTime.value + d < c.clock
            case None => c.hist[i].status.startTime.value + 30 * 60 * SECOND < c.clock
  {
    ReachableInv(m, c);
    assert StatusOk(c.hist[i], c.clock);
  }

  /** A task that adopted a pod it found was given no start time, and then never times out. */
  lemma AdoptedNeverTimesOut(m: Mode, c: Cell, i: nat, j: nat)
    requires Reachable(m, c) && i <= j < |c.hist|
    requires c.hist[i].status.phase == Running && c.hist[i].status.startTime == None
    ensures !c.hist[j].status.message.TimedOut?
  {
    ReachableInv(m, c);
    assert Follows(c.hist[i], c.hist[j]);
    assert StatusOk(c.hist[j], c.clock);
  }

  /** Every unfinished task that is not being deleted is being reconciled or will be. */
  lemma NobodyIsStranded(m: Mode, c: Cell)
    requires Reachable(m, c)
    requires c.live && !Current(c).deleting && !IsTerminal(Current(c).status.phase)
    ensures c.wake || c.rec != Idle
  {
    ReachableInv(m, c);
  }

  /** A task whose platform or URL gives no address for merge requests never succeeds; the accepted
      platform `bitbucket` is one. */
  lemma UnaddressableNeverSucceeds(m: Mode, c: Cell, i: nat)
    requires Reachable(m, c) && i < |c.hist|
    requires c.hist[i].spec.git.platform == "bitbucket" || !Addressable(c.hist[i].spec.git)
    ensures c.hist[i].status.phase != Succeeded
  {
    ReachableInv(m, c);
    assert StatusOk(c.hist[i], c.clock);
  }
}
