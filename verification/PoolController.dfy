/** The pool's reconcile as it is written: list, categorise, sort in place, grant in a loop, report.
    Each of its calls leaves room for everyone else to act, and the whole is a run of the pool system. */
module PoolController {
  import opened AgentTypes
  import opened PoolView
  import opened PoolSystem
  import opened PoolSafety
  import opened PoolListing

  const REQUEUE_INTERVAL: Time := 10 * SECOND

  datatype Verdict = Done | RequeueAfter(delay: Time) | Retry

  datatype PoolStatus = PoolStatus(activeAgents: nat, queuedTasks: nat, completedTasks: nat,
                                   failedTasks: nat, activeTaskNames: seq<string>)

  /** `selector`: the pool picks its tasks by label rather than by reference. */
  class AgentPool {
    const name: string
    const selector: bool
    var maxConcurrency: int
    var status: PoolStatus

    constructor (name: string, selector: bool, maxConcurrency: int)
      ensures this.name == name && this.selector == selector && this.maxConcurrency == maxConcurrency
    {
      this.name, this.selector, this.maxConcurrency := name, selector, maxConcurrency;
      this.status := PoolStatus(0, 0, 0, 0, []);
    }
  }

  // ----- the store, seen from one reconcile

  /** Some run leads from one state to the other. */
  ghost predicate Reaches(c: Config, s: State, s': State)
    requires Bounded(s)
  {
    exists acts: seq<Action> :: Valid(c, s, acts) && After(c, s, acts) == s'
  }

  lemma ReachesStep(c: Config, s: State, a: Action)
    requires Bounded(s) && Enabled(c, s, a)
    ensures Reaches(c, s, Apply(c, s, a))
  {
    var s' := Apply(c, s, a);
    assert [a][1..] == [];
    assert Valid(c, s', []) && After(c, s', []) == s';
    assert Valid(c, s, [a]) && After(c, s, [a]) == s';
  }

  lemma {:induction false} ValidAppend(c: Config, s: State, first: seq<Action>, second: seq<Action>)
    requires Bounded(s) && Valid(c, s, first) && Valid(c, After(c, s, first), second)
    ensures Valid(c, s, first + second)
    ensures After(c, s, first + second) == After(c, After(c, s, first), second)
    decreases |first|
  {
    if first == [] {
      assert first + second == second;
    } else {
      assert (first + second)[0] == first[0] && (first + second)[1..] == first[1..] + second;
      ValidAppend(c, Apply(c, s, first[0]), first[1..], second);
    }
  }

  lemma ReachesOn(c: Config, s: State, s': State, s'': State)
    requires Bounded(s) && Bounded(s') && Reaches(c, s, s') && Reaches(c, s', s'')
    ensures Reaches(c, s, s'')
  {
    var first :| Valid(c, s, first) && After(c, s, first) == s';
    var second :| Valid(c, s', second) && After(c, s', second) == s'';
    ValidAppend(c, s, first, second);
  }

  lemma ReachesSelf(c: Config, s: State)
    requires Bounded(s)
    ensures Reaches(c, s, s)
  {
    assert Valid(c, s, []) && After(c, s, []) == s;
  }

  /** A task read in `v` is not newer than in `w`, and unchanged if its version is still current. */
  ghost predicate NotNewer(v: View, w: View, n: string)
    requires n in v
  {
    && n in w && v[n].task.version <= w[n].task.version
    && (v[n].task.version == w[n].task.version ==> v[n].task == w[n].task)
  }

  ghost predicate VersionsOk(v: View, w: View) {
    forall n {:trigger NotNewer(v, w, n)} | n in v :: NotNewer(v, w, n)
  }

  lemma VersionsAdvance(v: View, w: View, t: Task)
    requires VersionsOk(v, w) && StillCurrent(w, t)
    ensures VersionsOk(v, w[t.name := Entry(t.(version := t.version + 1), true)])
  {
    forall n | n in v
      ensures NotNewer(v, w[t.name := Entry(t.(version := t.version + 1), true)], n)
    {
      assert NotNewer(v, w, n);
    }
  }

  /** The store and the cache as the pool system has them. */
  ghost predicate Coherent(s: State, store: View, cached: View) {
    && Bounded(s) && store == Current(s) && cached == s.log[s.cache]
    && Keyed(store) && Keyed(cached) && Keyed(s.log[s.snap])
    && VersionsOk(cached, store) && VersionsOk(s.log[s.snap], store)
  }

  /** The object store behind the controller's client, with a cache in front of it. `s` is the pool
      system as the run so far has left it; `requests` are the updates asked for and `reported`
      the pool statuses sent, the last of them `acknowledged` or not. A method's contract only says what
      its own call does: others may act before and after it. */
  class Cluster {
    const c: Config
    /** The pool selects by label; otherwise the store itself filters by pool reference. */
    const byLabel: bool
    ghost var s: State
    ghost var requests: seq<Task>
    ghost var reported: seq<PoolStatus>
    ghost var acknowledged: bool
    var store: View
    var cached: View

    ghost predicate Valid()
      reads this
    {
      && Coherent(s, store, cached)
      && (!byLabel ==> Gated(cached, c.pool))
    }

    constructor (c: Config, byLabel: bool)
      ensures Valid() && this.c == c && this.byLabel == byLabel && s == INITIAL
      ensures requests == [] && reported == []
    {
      this.c, this.byLabel := c, byLabel;
      s := INITIAL;
      requests, reported, acknowledged := [], [], false;
      store, cached := map[], map[];
    }

    /** What the cache shows of the pool's tasks, in no particular order. */
    method List(limit: int) returns (items: seq<Task>)
      requires Valid() && s.pass == Idle && s.wake
      modifies this
      ensures Valid() && Reaches(c, old(s), s)
      ensures s.pass == Listed(limit) && IsListing(s.log[s.snap], items)
      ensures !byLabel ==> forall t | t in items :: t.spec.poolRef == c.pool
      ensures requests == old(requests) && reported == old(reported)
    {
      ReachesStep(c, s, PoolSystem.List(limit));
      s := Relisted(s, limit);
      items := [];
      var rest := LiveIn(cached);
      while rest != {}
        invariant rest <= LiveIn(cached)
        invariant forall i {:trigger items[i]} | 0 <= i < |items| ::
            IsListed(cached, items[i]) && items[i].name !in rest
        invariant NoRepeats(items)
        invariant |items| + |rest| == |LiveIn(cached)|
        decreases |rest|
      {
        var n :| n in rest;
        items := items + [cached[n].task];
        rest := rest - {n};
      }
    }

    /** The pass settles on the order in which it has sorted its queue. */
    ghost method Settle(queue: seq<Task>)
      requires Valid() && s.pass.Listed? && IsQueueOf(s.log[s.snap], queue)
      modifies this`s
      ensures Valid() && Reaches(c, old(s), s)
      ensures s.log[s.snap] == old(s.log[s.snap])
      ensures s.pass == Granting(old(s.pass.limit), queue, 0, {})
    {
      ReachesStep(c, s, Order(queue));
      s := s.(pass := Granting(s.pass.limit, queue, 0, {}));
    }

    /** An update of the next task of the queue, with its slot granted. */
    method Update(t: Task) returns (ok: bool)
      requires Valid() && s.pass.Granting?
      requires s.pass.next < PassQuota(s.pass, s.log[s.snap]) && IsQueueOf(s.log[s.snap], s.pass.queue)
      requires t == WithSlot(s.pass.queue[s.pass.next])
      modifies this
      ensures Valid() && Reaches(c, old(s), s)
      ensures s.log[s.snap] == old(s.log[s.snap])
      ensures s.pass == old(s.pass).(next := old(s.pass.next) + 1,
                                     failed := if ok then old(s.pass.failed) else old(s.pass.failed) + {t.name})
      ensures requests == old(requests) + [t] && reported == old(reported)
    {
      var reply: Reply := *;
      ok := reply == Answered && StillCurrent(store, t);
      UpdateFacts(c, s, reply, store, cached);
      store := StoreAfter(store, t, reply);
      s := GrantTried(s, reply);
      requests := requests + [t];
    }

    /** The pool's own status, written at the end of a pass. */
    method UpdateStatus(status: PoolStatus) returns (ok: bool)
      requires Valid() && PassDone(s.pass, s.log[s.snap])
      modifies this
      ensures Valid() && Reaches(c, old(s), s)
      ensures s.pass == Idle
      ensures requests == old(requests) && reported == old(reported) + [status] && acknowledged == ok
      ensures s.wake || (ok && QueuedIn(old(s.log[s.snap])) == {})
    {
      var reply: Reply := *;
      ok := reply == Answered;
      ReachesStep(c, s, Finish(reply));
      s := Finished(s, reply);
      reported, acknowledged := reported + [status], ok;
    }
  }

  /** What the store itself makes of an update of `t`: refused unless current, silent when nothing
      changes. */
  function StoreAfter(store: View, t: Task, reply: Reply): View {
    if reply != Dropped && StillCurrent(store, t) && store[t.name].task != t
    then store[t.name := Entry(t.(version := t.version + 1), true)] else store
  }

  /** The store's own rule for an update is the system's grant. */
  lemma UpdateIsGrant(s: State, reply: Reply, store: View, cached: View, base: Task)
    requires Coherent(s, store, cached)
    requires s.pass.Granting? && s.pass.next < |s.pass.queue| && base == s.pass.queue[s.pass.next]
    requires WasRead(s.log[s.snap], base)
    ensures Coherent(GrantTried(s, reply), StoreAfter(store, WithSlot(base), reply), cached)
    ensures (reply != Dropped && StillCurrent(store, WithSlot(base))) == GrantLands(s, reply)
  {
    CurrentAfterGrant(s, reply);
    UpdateOfCurrent(s.log[s.snap], store, base);
    UpdateVersions(cached, store, WithSlot(base), reply);
    UpdateVersions(s.log[s.snap], store, WithSlot(base), reply);
  }

  lemma UpdateVersions(v: View, store: View, t: Task, reply: Reply)
    requires VersionsOk(v, store) && Keyed(store)
    ensures VersionsOk(v, StoreAfter(store, t, reply)) && Keyed(StoreAfter(store, t, reply))
  {
    if StillCurrent(store, t) {
      VersionsAdvance(v, store, t);
    }
  }

  /** If the version read is current, an update with the slot granted changes the stored task exactly
      when the slot was not granted before. */
  lemma UpdateOfCurrent(snapshot: View, store: View, base: Task)
    requires VersionsOk(snapshot, store) && WasRead(snapshot, base)
    ensures StillCurrent(store, base) ==>
              store[base.name].task == base && (WithSlot(base) == base <==> Granted(base))
  {
    assert NotNewer(snapshot, store, base.name);
    assert Granted(base) ==> WithSlot(base).annotations == base.annotations;
    assert !Granted(base) ==> Granted(WithSlot(base));
  }

  lemma UpdateFacts(c: Config, s: State, reply: Reply, store: View, cached: View)
    requires Coherent(s, store, cached) && s.pass.Granting?
    requires s.pass.next < PassQuota(s.pass, s.log[s.snap]) && IsQueueOf(s.log[s.snap], s.pass.queue)
    ensures var t, s' := WithSlot(s.pass.queue[s.pass.next]), GrantTried(s, reply);
            && Coherent(s', StoreAfter(store, t, reply), cached)
            && Reaches(c, s, s')
            && s'.log[s'.snap] == s.log[s.snap]
            && s'.pass == s.pass.(next := s.pass.next + 1,
                 failed := if reply == Answered && StillCurrent(store, t) then s.pass.failed
                           else s.pass.failed + {t.name})
  {
    var base := s.pass.queue[s.pass.next];
    assert WasRead(s.log[s.snap], base);
    UpdateIsGrant(s, reply, store, cached, base);
    CurrentAfterGrant(s, reply);
    ReachesStep(c, s, Grant(reply));
  }

  // ----- the reconcile

  /** Whatever the library sort makes of it: rearranged and in order, ties as they fall. */
  method SortByCreation(a: array<Task>)
    modifies a
    ensures Sorted(a[..]) && multiset(a[..]) == multiset(old(a[..]))
  {
    var i := 0;
    while i < a.Length
      invariant 0 <= i <= a.Length
      invariant Sorted(a[..i]) && multiset(a[..]) == multiset(old(a[..]))
    {
      Insert(a, i);
      i := i + 1;
    }
    assert a[..a.Length] == a[..];
  }

  /** One more element finds its place among those already in order. */
  method Insert(a: array<Task>, i: nat)
    requires i < a.Length && Sorted(a[..i])
    modifies a
    ensures Sorted(a[..i + 1]) && multiset(a[..]) == multiset(old(a[..]))
  {
    var j := i;
    while j > 0 && a[j].created < a[j - 1].created
      invariant 0 <= j <= i
      invariant multiset(a[..]) == multiset(old(a[..]))
      invariant InOrderBut(a[..], i, j)
    {
      Swap(a, j);
      j := j - 1;
    }
  }

  /** `s` is in order up to `i`, except that the element at `j` may belong further down. */
  ghost predicate InOrderBut(s: seq<Task>, i: nat, j: nat) {
    j <= i < |s|
    && (forall p, q {:trigger s[p], s[q]} | 0 <= p < q <= i && q != j :: s[p].created <= s[q].created)
  }

  method Swap(a: array<Task>, j: nat)
    requires 0 < j < a.Length
    modifies a
    ensures a[..] == old(a[..])[j := old(a[j - 1])][j - 1 := old(a[j])]
    ensures multiset(a[..]) == multiset(old(a[..]))
  {
    a[j], a[j - 1] := a[j - 1], a[j];
  }

  /** The tasks that belong to a pool: what the list call returned, filtered once more. */
  method ListPoolTasks(cluster: Cluster, pool: AgentPool) returns (result: seq<Task>)
    requires cluster.Valid() && cluster.s.pass == Idle && cluster.s.wake
    requires cluster.c.pool == pool.name && cluster.byLabel == pool.selector
    modifies cluster
    ensures cluster.Valid() && Reaches(cluster.c, old(cluster.s), cluster.s)
    ensures cluster.s.pass == Listed(pool.maxConcurrency)
    ensures cluster.requests == old(cluster.requests) && cluster.reported == old(cluster.reported)
    ensures IsListing(cluster.s.log[cluster.s.snap], result)
    ensures !pool.selector ==> forall t | t in result :: t.spec.poolRef == pool.name
  {
    var items := cluster.List(pool.maxConcurrency);
    result := [];
    for i := 0 to |items|
      invariant result == items[..i]
    {
      if pool.selector || items[i].spec.poolRef == pool.name {
        result := result + [items[i]];
      }
    }
    assert items[..|items|] == items;
  }

  /** Four lists by phase, in the order of the listing. */
  method Categorize(tasks: seq<Task>)
    returns (active: seq<Task>, pending: seq<Task>, completed: seq<Task>, failed: seq<Task>)
    ensures active == Select(tasks, ActiveTask) && pending == Select(tasks, QueuedTask)
    ensures completed == Select(tasks, CompletedTask) && failed == Select(tasks, FailedTask)
  {
    active, pending, completed, failed := [], [], [], [];
    for i := 0 to |tasks|
      invariant active == Select(tasks[..i], ActiveTask) && pending == Select(tasks[..i], QueuedTask)
      invariant completed == Select(tasks[..i], CompletedTask) && failed == Select(tasks[..i], FailedTask)
    {
      var task := tasks[i];
      forall k { SelectNext(tasks, i, k); }
      match task.status.phase {
        case Running | Initializing | PushingBranch | CreatingMR => active := active + [task];
        case Unset | Pending => pending := pending + [task];
        case Succeeded => completed := completed + [task];
        case Failed => failed := failed + [task];
      }
    }
    assert tasks[..|tasks|] == tasks;
  }

  /** The updates a pass asks for: the head of its queue, each with its slot granted. */
  function GrantRequests(queue: seq<Task>, quota: nat): seq<Task>
    requires quota <= |queue|
  {
    seq(quota, i requires 0 <= i < quota => WithSlot(queue[i]))
  }

  /** Grants slots to the oldest queued tasks, going on past refusals. */
  method GrantSlots(cluster: Cluster, pending: array<Task>, slotsAvailable: int, ghost tasks: seq<Task>)
    requires cluster.Valid() && cluster.s.pass.Listed?
    requires slotsAvailable == cluster.s.pass.limit - |ActiveIn(cluster.s.log[cluster.s.snap])|
    requires slotsAvailable > 0
    requires IsListing(cluster.s.log[cluster.s.snap], tasks) && pending[..] == Select(tasks, QueuedTask)
    modifies cluster, pending
    ensures cluster.Valid() && Reaches(cluster.c, old(cluster.s), cluster.s)
    ensures cluster.s.log[cluster.s.snap] == old(cluster.s.log[cluster.s.snap])
    ensures cluster.s.pass.Granting? && cluster.s.pass.limit == old(cluster.s.pass.limit)
    ensures PassDone(cluster.s.pass, cluster.s.log[cluster.s.snap])
    ensures IsQueueOf(cluster.s.log[cluster.s.snap], cluster.s.pass.queue)
    ensures cluster.requests
            == old(cluster.requests) + GrantRequests(cluster.s.pass.queue, cluster.s.pass.next)
    ensures cluster.reported == old(cluster.reported)
  {
    ghost var s0, snapshot := cluster.s, cluster.s.log[cluster.s.snap];
    SortByCreation(pending);
    ghost var queue := pending[..];
    SortedIsQueue(snapshot, tasks, queue);
    cluster.Settle(queue);
    var toGrant := slotsAvailable;
    if toGrant > pending.Length {
      toGrant := pending.Length;
    }
    ghost var s1 := cluster.s;
    GrantHead(cluster, pending, toGrant);
    ReachesOn(cluster.c, s0, s1, cluster.s);
  }

  /** The grant loop: the annotation is set in the slice and sent, and a refusal is passed over. */
  method GrantHead(cluster: Cluster, pending: array<Task>, toGrant: nat)
    requires cluster.Valid() && cluster.s.pass.Granting?
    requires cluster.s.pass.queue == pending[..] && cluster.s.pass.next == 0
    requires IsQueueOf(cluster.s.log[cluster.s.snap], pending[..])
    requires toGrant == PassQuota(cluster.s.pass, cluster.s.log[cluster.s.snap])
    modifies cluster, pending
    ensures cluster.Valid() && Reaches(cluster.c, old(cluster.s), cluster.s)
    ensures cluster.s.log[cluster.s.snap] == old(cluster.s.log[cluster.s.snap])
    ensures cluster.s.pass.Granting?
    ensures cluster.s.pass == old(cluster.s.pass).(next := toGrant, failed := cluster.s.pass.failed)
    ensures cluster.requests == old(cluster.requests) + GrantRequests(old(pending[..]), toGrant)
    ensures cluster.reported == old(cluster.reported)
  {
    ghost var s0, snapshot, queue := cluster.s, cluster.s.log[cluster.s.snap], pending[..];
    ReachesSelf(cluster.c, s0);
    for i := 0 to toGrant
      invariant cluster.Valid() && Reaches(cluster.c, s0, cluster.s)
      invariant cluster.s.log[cluster.s.snap] == snapshot
      invariant cluster.s.pass.Granting? && cluster.s.pass == s0.pass.(next := i, failed := cluster.s.pass.failed)
      invariant pending[i..] == queue[i..]
      invariant cluster.requests == old(cluster.requests) + GrantRequests(queue, i)
      invariant cluster.reported == old(cluster.reported)
    {
      assert pending[i] == pending[i..][0];
      pending[i] := WithSlot(pending[i]);
      ghost var s1 := cluster.s;
      var ok := cluster.Update(pending[i]);
      ReachesOn(cluster.c, s0, s1, cluster.s);
      if !ok {
        continue;
      }
    }
  }

  /** Grants slots if there are any and somebody waits. */
  method GrantIfFree(cluster: Cluster, pending: seq<Task>, slotsAvailable: int, ghost tasks: seq<Task>)
    requires cluster.Valid() && cluster.s.pass.Listed?
    requires slotsAvailable == cluster.s.pass.limit - |ActiveIn(cluster.s.log[cluster.s.snap])|
    requires IsListing(cluster.s.log[cluster.s.snap], tasks) && pending == Select(tasks, QueuedTask)
    modifies cluster
    ensures cluster.Valid() && Reaches(cluster.c, old(cluster.s), cluster.s)
    ensures cluster.s.log[cluster.s.snap] == old(cluster.s.log[cluster.s.snap])
    ensures PassDone(cluster.s.pass, cluster.s.log[cluster.s.snap])
    ensures cluster.s.pass.limit == old(cluster.s.pass.limit)
    ensures cluster.s.pass.Granting? ==> IsQueueOf(cluster.s.log[cluster.s.snap], cluster.s.pass.queue)
    ensures cluster.requests == old(cluster.requests)
            + (if cluster.s.pass.Granting? then GrantRequests(cluster.s.pass.queue, cluster.s.pass.next) else [])
    ensures slotsAvailable <= 0 ==> cluster.requests == old(cluster.requests)
    ensures cluster.reported == old(cluster.reported)
  {
    ListingCounts(cluster.s.log[cluster.s.snap], tasks);
    if slotsAvailable > 0 && |pending| > 0 {
      var slice := new Task[|pending|](i requires 0 <= i < |pending| => pending[i]);
      assert slice[..] == pending;
      GrantSlots(cluster, slice, slotsAvailable, tasks);
    } else {
      ReachesSelf(cluster.c, cluster.s);
    }
  }

  function NamesInOrder(tasks: seq<Task>): seq<string> {
    seq(|tasks|, i requires 0 <= i < |tasks| => tasks[i].name)
  }

  /** What the pool reports about a listing. */
  function StatusOf(listing: seq<Task>): PoolStatus {
    PoolStatus(|Select(listing, ActiveTask)|, |Select(listing, QueuedTask)|,
               |Select(listing, CompletedTask)|, |Select(listing, FailedTask)|,
               NamesInOrder(Select(listing, ActiveTask)))
  }

  /** The report counts the view it was listed from: every live task once, under its own phase, and the
      active ones by name. */
  lemma ReportCountsView(v: View, listing: seq<Task>)
    requires IsListing(v, listing)
    ensures var r := StatusOf(listing);
            && r.activeAgents == |PhasesIn(v, ACTIVE_PHASES)| && r.queuedTasks == |PhasesIn(v, {Unset, Pending})|
            && r.completedTasks == |PhasesIn(v, {Succeeded})| && r.failedTasks == |PhasesIn(v, {Failed})|
            && r.activeAgents + r.queuedTasks + r.completedTasks + r.failedTasks == |LiveIn(v)|
    ensures forall n :: n in StatusOf(listing).activeTaskNames <==> n in PhasesIn(v, ACTIVE_PHASES)
  {
    ListingCounts(v, listing);
    SelectCounts(v, listing, CompletedTask);
    SelectCounts(v, listing, FailedTask);
    KindsOfView(v);
    SelectNames(v, listing, ActiveTask);
    ReportNames(Select(listing, ActiveTask));
  }

  lemma ReportNames(tasks: seq<Task>)
    ensures forall n :: n in NamesInOrder(tasks) <==> n in NamesOf(tasks)
  {
    var names := NamesInOrder(tasks);
    forall n | n in NamesOf(tasks)
      ensures n in names
    {
      var i :| 0 <= i < |tasks| && tasks[i].name == n;
      assert names[i] == n;
    }
  }

  /** The end of a pass: the status is written, and the pool comes back while anyone waits. */
  method Report(cluster: Cluster, pool: AgentPool, ghost listing: seq<Task>, active: seq<Task>,
                pending: seq<Task>, completed: seq<Task>, failed: seq<Task>)
    returns (verdict: Verdict)
    requires cluster.Valid() && PassDone(cluster.s.pass, cluster.s.log[cluster.s.snap])
    requires IsListing(cluster.s.log[cluster.s.snap], listing)
    requires active == Select(listing, ActiveTask) && pending == Select(listing, QueuedTask)
    requires completed == Select(listing, CompletedTask) && failed == Select(listing, FailedTask)
    modifies cluster, pool
    ensures cluster.Valid() && Reaches(cluster.c, old(cluster.s), cluster.s)
    ensures cluster.s.pass == Idle && cluster.requests == old(cluster.requests)
    ensures cluster.reported == old(cluster.reported) + [StatusOf(listing)]
    ensures pool.maxConcurrency == old(pool.maxConcurrency) && pool.status == StatusOf(listing)
    ensures verdict == if !cluster.acknowledged then Retry
                       else if pool.status.queuedTasks > 0 then RequeueAfter(10 * SECOND) else Done
    ensures pool.status.queuedTasks > 0 ==> cluster.s.wake
  {
    ListingCounts(cluster.s.log[cluster.s.snap], listing);
    pool.status := PoolStatus(|active|, |pending|, |completed|, |failed|, NamesInOrder(active));
    var ok := cluster.UpdateStatus(pool.status);
    if !ok {
      return Retry;
    }
    if |pending| > 0 {
      return RequeueAfter(REQUEUE_INTERVAL);
    }
    return Done;
  }

  /** One pass of the pool controller. */
  method Reconcile(cluster: Cluster, pool: AgentPool)
    returns (verdict: Verdict, ghost listing: seq<Task>, ghost last: State)
    requires cluster.Valid() && cluster.s.pass == Idle && cluster.s.wake
    requires cluster.c.pool == pool.name && cluster.byLabel == pool.selector
    modifies cluster, pool
    // The pass is a run of the pool system, up to its last state before the report and to the end.
    ensures cluster.Valid() && Bounded(last)
    ensures Reaches(cluster.c, old(cluster.s), last) && Reaches(cluster.c, last, cluster.s)
    ensures cluster.s.pass == Idle
    // It has gone through all the grants the listing calls for, oldest first, and asked for no others.
    ensures IsListing(last.log[last.snap], listing) && PassDone(last.pass, last.log[last.snap])
    ensures last.pass.limit == old(pool.maxConcurrency)
    ensures last.pass.Granting? ==> IsQueueOf(last.log[last.snap], last.pass.queue)
    ensures cluster.requests == old(cluster.requests)
            + (if last.pass.Granting? then GrantRequests(last.pass.queue, last.pass.next) else [])
    // While active tasks are at the limit, lowered or not, it asks for none.
    ensures |Select(listing, ActiveTask)| >= pool.maxConcurrency ==> cluster.requests == old(cluster.requests)
    // It reports on that listing, and comes back while anyone waits.
    ensures cluster.reported == old(cluster.reported) + [StatusOf(listing)]
    ensures pool.maxConcurrency == old(pool.maxConcurrency) && pool.status == StatusOf(listing)
    ensures verdict == if !cluster.acknowledged then Retry
                       else if pool.status.queuedTasks > 0 then RequeueAfter(10 * SECOND) else Done
    ensures pool.status.queuedTasks > 0 ==> cluster.s.wake
  {
    var tasks := ListPoolTasks(cluster, pool);
    var active, pending, completed, failed := Categorize(tasks);
    ghost var s1 := cluster.s;
    ListingCounts(cluster.s.log[cluster.s.snap], tasks);
    GrantIfFree(cluster, pending, pool.maxConcurrency - |active|, tasks);
    ReachesOn(cluster.c, old(cluster.s), s1, cluster.s);
    listing, last := tasks, cluster.s;
    verdict := Report(cluster, pool, tasks, active, pending, completed, failed);
  }
}
