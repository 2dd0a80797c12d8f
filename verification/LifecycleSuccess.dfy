/** Which tasks can succeed. */
module LifecycleSuccess {
  import opened AgentTypes
  import opened PodBuilder
  import opened GitOps
  import opened Handlers
  import opened Lifecycle
  import opened LifecycleHistory
  import opened LifecycleRuns
  import opened LifecycleTheorems

  const CREDENTIALS := SecretKeyRef("git", "token")

  /** The author fills in what a task needs and may still change. */
  function Completed(spec: TaskSpec): TaskSpec {
    spec.(description := "fix", apiKeySecretRef := None, gitCredentialsSecretRef := Some(CREDENTIALS))
  }

  const LOOKS_WELL := Answers(Found, PodNotFound, true, PodCreated, Success([("token", "secret")]), Success("url"))

  lemma AddressableURL(git: GitSpec)
    requires Addressable(git)
    ensures git.repoURL != ""
  {
    assert !HasSuffix("", GIT_SUFFIX) && !HasPrefix("", GITHUB_HTTPS) && !HasPrefix("", GITHUB_SSH);
    assert !HasPrefix("", HTTPS) && !HasPrefix("", SSH_USER);
  }

  /** An address does not depend on branches or token. */
  lemma AddressedRequest(t: Task, token: string)
    requires Addressable(t.spec.git)
    ensures RequestURL(MROptions(t, token)).Success?
  {
  }

  /** A task that waits for its next reconcile, in a given phase. */
  ghost predicate At(m: Mode, t: Task, clock: Time, c: Cell, phase: Phase) {
    && Leads(m, NewCell(t, clock), c) && Ready(c)
    && Current(c).status.phase == phase && Current(c).spec == Completed(t.spec)
  }

  /** Completed and granted its slot. */
  lemma Prepare(m: Mode, t: Task, clock: Time) returns (c: Cell)
    requires Fresh(t)
    ensures At(m, t, clock, c, Unset) && Granted(Current(c)) && c.pod == None
  {
    c := NewCell(t, clock);
    LeadsSelf(m, c);
    var edit := Edit(Completed(t.spec));
    LeadsStep(m, NewCell(t, clock), c, edit);
    c := Apply(m, c, edit);
    var grant := GrantSlot(Current(c), Answered);
    LeadsStep(m, NewCell(t, clock), c, grant);
    c := Apply(m, c, grant);
  }

  /** One reconcile takes the task on to the phase it decided for. */
  lemma Serve(m: Mode, t: Task, clock: Time, c: Cell, ans: Answers, phase: Phase) returns (c': Cell)
    requires At(m, t, clock, c, phase)
    requires ans.create == CreateAnswerFor(c.pod.Some?, Answered)
    requires DecisionOn(c, ans).next.Persist?
    ensures ServedBy(c, ans, c') && Leads(m, NewCell(t, clock), c')
    ensures var next := DecisionOn(c, ans).next.status.phase;
            !IsTerminal(next) ==> At(m, t, clock, c', next)
  {
    var acts := ServeOnce(m, c, ans);
    LeadsOn(m, NewCell(t, clock), c, acts);
    c' := After(m, c, acts);
  }

  lemma Initialize(m: Mode, t: Task, clock: Time) returns (c: Cell)
    requires Fresh(t) && Addressable(t.spec.git) && t.spec.git.baseBranch != ""
    ensures At(m, t, clock, c, Initializing) && c.pod == None
  {
    AddressableURL(t.spec.git);
    var start := Prepare(m, t, clock);
    assert MayStart(Base(start));
    assert DecisionOn(start, LOOKS_WELL) == Just(Persist(Advance(Current(start).status, Initializing, Validated)));
    c := Serve(m, t, clock, start, LOOKS_WELL, Unset);
  }

  lemma Run(m: Mode, t: Task, clock: Time) returns (c: Cell)
    requires Fresh(t) && Addressable(t.spec.git) && t.spec.git.baseBranch != ""
    ensures At(m, t, clock, c, Running) && c.pod.Some? && Current(c).status.podName != ""
  {
    var start := Initialize(m, t, clock);
    c := Serve(m, t, clock, start, LOOKS_WELL, Initializing);
  }

  lemma Finish(m: Mode, t: Task, clock: Time) returns (c: Cell)
    requires Fresh(t) && Addressable(t.spec.git) && t.spec.git.baseBranch != ""
    ensures At(m, t, clock, c, CreatingMR) && c.pod.Some?
  {
    var start := Run(m, t, clock);
    var ans := LOOKS_WELL.(pod := PodFound(PodSucceeded, None), create := AlreadyExists);
    c := Serve(m, t, clock, start, ans, Running);
  }

  lemma PostsWell(t: Task, ans: Answers, now: Time)
    requires t.status.phase == CreatingMR && t.spec.gitCredentialsSecretRef == Some(CREDENTIALS)
    requires Addressable(t.spec.git) && ans.credentials == Success([("token", "secret")]) && ans.post.Success?
    ensures var n := Decide(t, ans, now, now).next; n.Persist? && n.status.phase == Succeeded
  {
    assert ResolveSecret(Some(CREDENTIALS), ans.credentials) == Success("secret");
    AddressedRequest(t, "secret");
  }

  lemma Succeed(m: Mode, t: Task, clock: Time) returns (c: Cell)
    requires Fresh(t) && Addressable(t.spec.git) && t.spec.git.baseBranch != ""
    ensures Leads(m, NewCell(t, clock), c) && Current(c).status.phase == Succeeded
  {
    var start := Finish(m, t, clock);
    var ans := LOOKS_WELL.(create := AlreadyExists);
    PostsWell(Base(start), ans, start.clock);
    c := Serve(m, t, clock, start, ans, CreatingMR);
  }

  /** A new task can succeed, whatever it is short of otherwise, if and only if it has a base branch and its
      platform and URL give an address for merge requests. */
  lemma SucceedsExactly(m: Mode, t: Task, clock: Time)
    requires Fresh(t)
    ensures (exists c: Cell :: Leads(m, NewCell(t, clock), c) && Current(c).status.phase == Succeeded)
            <==> Addressable(t.spec.git) && t.spec.git.baseBranch != ""
  {
    if Addressable(t.spec.git) && t.spec.git.baseBranch != "" {
      var c := Succeed(m, t, clock);
    }
    forall c: Cell | Leads(m, NewCell(t, clock), c) && Current(c).status.phase == Succeeded
      ensures Addressable(t.spec.git) && t.spec.git.baseBranch != ""
    {
      LeadsInv(m, t, clock, c);
      CurrentOk(c);
      assert Follows(c.hist[0], c.hist[|c.hist| - 1]);
    }
  }
}
