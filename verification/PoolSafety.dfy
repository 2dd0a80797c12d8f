/** What every step of the pool system keeps, and what follows over whole runs. */
module PoolSafety {
  import opened AgentTypes
  import opened PoolView
  import opened PoolSystem

  /** Every state of the history is well formed, and later states follow from earlier ones. */
  ghost predicate HistoryOk(c: Config, log: seq<View>) {
    && |log| > 0
    && (forall i {:trigger WellFormed(c, log[i])} | 0 <= i < |log| :: WellFormed(c, log[i]))
    && (forall i, j {:trigger Later(log[i], log[j])} | 0 <= i <= j < |log| :: Later(log[i], log[j]))
  }

  ghost predicate WellFormed(c: Config, v: View) {
    Keyed(v) && (c.distinct ==> Distinct(v)) && (c.gated ==> Gated(v, c.pool))
  }

  /** Since the last snapshot, whoever is busy has room in that snapshot, and the room is within the
      largest limit read so far. */
  ghost predicate RoomOk(log: seq<View>, snap: nat, high: int)
    requires snap < |log|
  {
    && |Room(log[snap], high)| <= high
    && (forall u {:trigger BusyFits(log[snap], log[u], high)} | snap <= u < |log| ::
          BusyFits(log[snap], log[u], high))
  }

  /** What a grant loop has achieved: each task it passed holds its slot or had its grant refused. */
  ghost predicate PassOk(pass: Pass, snapshot: View, now: View, high: int) {
    && (pass != Idle ==> pass.limit <= high)
    && (pass.Granting? ==>
          && IsQueueOf(snapshot, pass.queue)
          && pass.next <= PassQuota(pass, snapshot)
          && forall i {:trigger pass.queue[i]} | 0 <= i < pass.next :: Settled(pass.failed, now, pass.queue[i].name))
  }

  ghost predicate Settled(failed: set<string>, now: View, n: string) {
    n in failed || (n in now && Granted(now[n].task))
  }

  /** Queued tasks in the cache are never forgotten. */
  ghost predicate WakeOk(wake: bool, pass: Pass, cached: View, snapshot: View) {
    QueuedIn(cached) != {} ==> wake || (pass != Idle && QueuedIn(snapshot) != {})
  }

  /** What holds of every run, whoever is listed and however stamps tie. */
  ghost predicate Core(c: Config, s: State) {
    && Bounded(s)
    && HistoryOk(c, s.log)
    && PassOk(s.pass, s.log[s.snap], Current(s), s.high)
    && (c.gated ==> WakeOk(s.wake, s.pass, s.log[s.cache], s.log[s.snap]))
  }

  /** What holds besides when every task waits at the gate and stamps are distinct. */
  ghost predicate Inv(c: Config, s: State) {
    Core(c, s) && RoomOk(s.log, s.snap, s.high)
  }

  // ----- history

  lemma HistoryGrows(c: Config, log: seq<View>, v: View)
    requires HistoryOk(c, log)
    requires WellFormed(c, v)
    requires Later(log[|log| - 1], v)
    ensures HistoryOk(c, log + [v])
  {
    var log' := log + [v];
    forall i | 0 <= i < |log'|
      ensures WellFormed(c, log'[i]) && Later(log'[i], v)
    {
      if i < |log| {
        assert WellFormed(c, log[i]) && Later(log[i], log[|log| - 1]);
        LaterTransitive(log[i], log[|log| - 1], v);
      }
    }
    forall i, j | 0 <= i <= j < |log'|
      ensures Later(log'[i], log'[j])
    {
      if j < |log| {
        assert Later(log[i], log[j]);
      }
    }
  }

  lemma UpdateIsLater(c: Config, v: View, n: string, e: Entry)
    requires WellFormed(c, v)
    requires n in v && LaterVersion(v[n].task, e.task) && (e.live ==> v[n].live)
    ensures var w := v[n := e]; WellFormed(c, w) && Later(v, w)
  {
  }

  lemma CreateIsLater(c: Config, v: View, t: Task)
    requires WellFormed(c, v)
    requires CanCreate(c, v, t)
    ensures var w := v[t.name := Entry(t, true)];
            WellFormed(c, w) && Later(v, w)
  {
  }

  // ----- who becomes busy

  /** Nobody is busy at `w` who was not at `v`. */
  ghost predicate NoneAdded(v: View, w: View) {
    forall n {:trigger IsBusyIn(w, n)} | IsBusyIn(w, n) :: IsBusyIn(v, n)
  }

  lemma ChangeKeepsBusy(v: View, n: string, e: Entry, pool: string)
    requires n in v && v[n].live && v[n].task.spec.poolRef == pool && pool != ""
    requires WritesOver(v[n].task, e.task)
    ensures NoneAdded(v, v[n := e])
  {
  }

  lemma CreateKeepsBusy(v: View, t: Task)
    requires t.name !in v && t.status == FRESH_STATUS && !Granted(t)
    ensures NoneAdded(v, v[t.name := Entry(t, true)])
  {
  }

  lemma GrantAddsOne(v: View, t: Task)
    requires StillCurrent(v, t) && v[t.name].task == t
    ensures forall n {:trigger IsBusyIn(AfterGrant(v, t), n)} |
              IsBusyIn(AfterGrant(v, t), n) :: IsBusyIn(v, n) || n == t.name
    ensures t.name in AfterGrant(v, t) && Granted(AfterGrant(v, t)[t.name].task)
  {
  }

  // ----- the queue and the window

  function NamesOf(queue: seq<Task>): (names: set<string>) {
    set i | 0 <= i < |queue| :: queue[i].name
  }

  lemma {:induction false} NamesCount(queue: seq<Task>)
    ensures |NamesOf(queue)| <= |queue|
    ensures NoRepeats(queue) ==> |NamesOf(queue)| == |queue|
  {
    if queue != [] {
      var front, last := queue[..|queue| - 1], queue[|queue| - 1].name;
      NamesCount(front);
      NamesOfLast(front, queue[|queue| - 1]);
      assert front + [queue[|queue| - 1]] == queue;
    }
  }

  lemma NamesOfLast(front: seq<Task>, t: Task)
    ensures NamesOf(front + [t]) == NamesOf(front) + {t.name}
    ensures NoRepeats(front + [t]) ==> NoRepeats(front) && t.name !in NamesOf(front)
  {
    var queue := front + [t];
    assert forall i | 0 <= i < |front| :: queue[i] == front[i];
    assert queue[|front|] == t;
  }

  lemma {:induction false} SameSize<T>(a: set<T>, b: set<T>)
    requires a <= b && |a| == |b|
    ensures a == b
  {
    if x :| x in b && x !in a {
      SubsetSize(a, b - {x});
    }
  }

  /** The queue holds everyone who is queued. */
  lemma QueueNames(v: View, queue: seq<Task>)
    requires IsQueueOf(v, queue)
    ensures NamesOf(queue) == QueuedIn(v)
  {
    NamesCount(queue);
    forall n | n in NamesOf(queue)
      ensures n in QueuedIn(v)
    {
      var i :| 0 <= i < |queue| && queue[i].name == n;
      assert WasRead(v, queue[i]);
    }
    SameSize(NamesOf(queue), QueuedIn(v));
  }

  /** The head of the queue, as far as the free slots reach, is next in line. */
  lemma HeadHasTurn(v: View, queue: seq<Task>, i: nat, limit: int)
    requires Keyed(v) && IsQueueOf(v, queue)
    requires i < |queue| && |ActiveIn(v)| + i < limit
    ensures HasTurn(v, limit, queue[i].name)
  {
    var n := queue[i].name;
    QueueNames(v, queue);
    forall m | m in Before(v, n)
      ensures m in NamesOf(queue[..i])
    {
      assert m in QueuedIn(v);
      var k :| 0 <= k < |queue| && queue[k].name == m;
      assert v[m].task == queue[k] && k < i;
      assert queue[..i][k].name == m;
    }
    SubsetSize(Before(v, n), NamesOf(queue[..i]));
    NamesCount(queue[..i]);
  }

  // ----- steps

  /** A history that grows within the room keeps the room. */
  lemma HistoryFits(log: seq<View>, snap: nat, high: int, v: View)
    requires snap < |log| && RoomOk(log, snap, high)
    requires BusyFits(log[snap], v, high)
    ensures RoomOk(log + [v], snap, high)
  {
    var log' := log + [v];
    forall u | snap <= u < |log'|
      ensures BusyFits(log'[snap], log'[u], high)
    {
      if u < |log| {
        assert BusyFits(log[snap], log[u], high);
      }
    }
  }

  /** A grant loop keeps what it has achieved while tasks evolve. */
  lemma PassStays(pass: Pass, snapshot: View, v: View, w: View, high: int)
    requires PassOk(pass, snapshot, v, high) && Later(v, w)
    ensures PassOk(pass, snapshot, w, high)
  {
  }

  lemma CurrentBusy(s: State)
    requires Bounded(s) && RoomOk(s.log, s.snap, s.high)
    ensures BusyFits(s.log[s.snap], Current(s), s.high)
  {
  }

  lemma CoreView(c: Config, s: State)
    requires Core(c, s)
    ensures WellFormed(c, Current(s)) && Later(s.log[s.snap], Current(s))
  {
  }

  /** A later state of the tasks is added to the history. */
  lemma PushKeepsCore(c: Config, s: State, v: View)
    requires Core(c, s)
    requires WellFormed(c, v) && Later(Current(s), v)
    ensures Core(c, Push(s, v))
  {
    if v != Current(s) {
      HistoryGrows(c, s.log, v);
      PassStays(s.pass, s.log[s.snap], Current(s), v, s.high);
    }
  }

  lemma PushKeepsRoom(s: State, v: View)
    requires Bounded(s) && RoomOk(s.log, s.snap, s.high)
    requires BusyFits(s.log[s.snap], v, s.high)
    ensures var s' := Push(s, v); RoomOk(s'.log, s'.snap, s'.high)
  {
    if v != Current(s) {
      HistoryFits(s.log, s.snap, s.high, v);
    }
  }

  /** Nobody becomes busy, so everybody still fits. */
  lemma QuietPushKeepsRoom(s: State, v: View)
    requires Bounded(s) && RoomOk(s.log, s.snap, s.high)
    requires NoneAdded(Current(s), v)
    ensures var s' := Push(s, v); RoomOk(s'.log, s'.snap, s'.high)
  {
    CurrentBusy(s);
    PushKeepsRoom(s, v);
  }

  /** An action that leaves the tasks and the snapshot alone. */
  lemma SameHistory(c: Config, s: State, s': State)
    requires Core(c, s) && Bounded(s')
    requires s'.log == s.log && s'.snap == s.snap
    requires PassOk(s'.pass, s.log[s.snap], Current(s), s'.high)
    requires c.gated ==> WakeOk(s'.wake, s'.pass, s.log[s'.cache], s.log[s.snap])
    ensures Core(c, s')
  {
  }

  // ----- writes and new tasks

  lemma ChangeKeepsCore(c: Config, s: State, n: string, e: Entry)
    requires Core(c, s) && CanChange(Current(s), n, e)
    ensures Core(c, Push(s, Current(s)[n := e]))
  {
    CoreView(c, s);
    UpdateIsLater(c, Current(s), n, e);
    PushKeepsCore(c, s, Current(s)[n := e]);
  }

  lemma CreateKeepsCore(c: Config, s: State, t: Task)
    requires Core(c, s) && CanCreate(c, Current(s), t)
    ensures Core(c, Push(s, Current(s)[t.name := Entry(t, true)]))
  {
    CoreView(c, s);
    CreateIsLater(c, Current(s), t);
    PushKeepsCore(c, s, Current(s)[t.name := Entry(t, true)]);
  }

  // ----- the cache

  /** Newly queued tasks come with an event for the pool. */
  lemma DeliveryWakes(c: Config, v: View, w: View)
    requires Gated(w, c.pool)
    requires QueuedIn(w) != {} && QueuedIn(v) == {}
    ensures Notifies(v, w, c.pool)
  {
    var n :| n in QueuedIn(w);
    assert n !in QueuedIn(v);
    assert c.pool in MapTaskToPool(w[n].task);
  }

  lemma DeliverKeepsCore(c: Config, s: State, k: nat)
    requires Core(c, s) && s.cache <= k < |s.log|
    ensures Core(c, Delivered(c, s, k))
  {
    assert WellFormed(c, s.log[k]);
    if c.gated && QueuedIn(s.log[k]) != {} && QueuedIn(s.log[s.cache]) == {} {
      DeliveryWakes(c, s.log[s.cache], s.log[k]);
    }
    SameHistory(c, s, Delivered(c, s, k));
  }

  lemma ListKeepsCore(c: Config, s: State, limit: int)
    requires Core(c, s)
    ensures Core(c, Relisted(s, limit))
  {
  }

  /** Listing anew: the room moves to the newer snapshot and grows with the limit. */
  lemma RoomMoves(c: Config, log: seq<View>, snap: nat, cache: nat, low: int, high: int)
    requires c.distinct
    requires HistoryOk(c, log) && snap <= cache < |log| && low <= high
    requires RoomOk(log, snap, low)
    ensures RoomOk(log, cache, high)
  {
    forall k | cache <= k < |log|
      ensures BusyFits(log[cache], log[k], high)
    {
      assert BusyFits(log[snap], log[cache], low) && BusyFits(log[snap], log[k], low);
      assert Later(log[snap], log[cache]) && Later(log[cache], log[k]);
      FitsLater(log[snap], log[cache], log[k], low, high);
    }
    assert WellFormed(c, log[cache]);
    assert BusyFits(log[snap], log[cache], low);
    RoomBounded(log[snap], log[cache], low, high);
  }

  lemma FitsLater(u: View, v: View, w: View, low: int, high: int)
    requires Later(u, v) && Later(v, w) && low <= high
    requires |Room(u, low)| <= low && BusyFits(u, v, low) && BusyFits(u, w, low)
    ensures BusyFits(v, w, high)
  {
    Resnapshot(u, v, w, low);
    forall n | IsBusyIn(w, n)
      ensures InRoom(v, high, n)
    {
      RoomGrows(v, low, high, n);
    }
  }

  lemma RoomBounded(u: View, v: View, low: int, high: int)
    requires Distinct(v) && low <= high
    requires |Room(u, low)| <= low && BusyFits(u, v, low)
    ensures |Room(v, high)| <= high
  {
    RoomFits(v, high);
    ActiveInRoom(u, v, low);
    SubsetSize(ActiveIn(v), Room(u, low));
  }

  // ----- grants

  /** The task a grant loop has reached, if its version is still current, is as it was read. */
  lemma GrantTarget(c: Config, s: State)
    requires Core(c, s) && s.pass.Granting? && s.pass.next < |s.pass.queue|
    requires StillCurrent(Current(s), s.pass.queue[s.pass.next])
    ensures var t := s.pass.queue[s.pass.next];
            t.name in Current(s) && Current(s)[t.name] == Entry(t, true)
  {
    var t := s.pass.queue[s.pass.next];
    CoreView(c, s);
    assert WasRead(s.log[s.snap], t);
    assert LaterVersion(s.log[s.snap][t.name].task, Current(s)[t.name].task);
  }

  /** And it has its turn. */
  lemma GrantHasTurn(c: Config, s: State)
    requires Core(c, s) && s.pass.Granting? && s.pass.next < PassQuota(s.pass, s.log[s.snap])
    ensures InRoom(s.log[s.snap], s.high, s.pass.queue[s.pass.next].name)
  {
    assert WellFormed(c, s.log[s.snap]);
    HeadHasTurn(s.log[s.snap], s.pass.queue, s.pass.next, s.pass.limit);
    RoomGrows(s.log[s.snap], s.pass.limit, s.high, s.pass.queue[s.pass.next].name);
  }

  lemma GrantLandsCore(c: Config, s: State)
    requires Core(c, s) && s.pass.Granting? && s.pass.next < |s.pass.queue|
    requires StillCurrent(Current(s), s.pass.queue[s.pass.next])
    ensures Core(c, Push(s, AfterGrant(Current(s), s.pass.queue[s.pass.next])))
  {
    var t, v := s.pass.queue[s.pass.next], Current(s);
    GrantTarget(c, s);
    if !Granted(t) {
      CoreView(c, s);
      GrantIsLater(c, v, t);
      PushKeepsCore(c, s, AfterGrant(v, t));
    }
  }

  lemma GrantIsLater(c: Config, v: View, t: Task)
    requires WellFormed(c, v) && t.name in v && v[t.name] == Entry(t, true) && !Granted(t)
    ensures var w := AfterGrant(v, t); WellFormed(c, w) && Later(v, w)
  {
    var granted := WithSlot(t).(version := t.version + 1);
    assert LaterVersion(t, granted);
    UpdateIsLater(c, v, t.name, Entry(granted, true));
  }

  lemma GrantWrittenCore(c: Config, s: State, reply: Reply)
    requires Core(c, s) && s.pass.Granting? && s.pass.next < |s.pass.queue|
    ensures var s' := GrantWritten(s, reply);
            Core(c, s') && Settled(NextTurn(s, reply).failed, Current(s'), s.pass.queue[s.pass.next].name)
  {
    if GrantLands(s, reply) {
      GrantLandsCore(c, s);
      GrantTarget(c, s);
      GrantAddsOne(Current(s), s.pass.queue[s.pass.next]);
    }
  }

  lemma GrantKeepsCore(c: Config, s: State, reply: Reply)
    requires Core(c, s) && s.pass.Granting? && s.pass.next < PassQuota(s.pass, s.log[s.snap])
    ensures Core(c, GrantTried(s, reply))
  {
    GrantWrittenCore(c, s, reply);
    GrantWrittenFrame(s, reply);
    TurnTaken(c, GrantWritten(s, reply), NextTurn(s, reply));
  }

  /** The write of a grant adds to the history and touches nothing else. */
  lemma GrantWrittenFrame(s: State, reply: Reply)
    requires Bounded(s) && s.pass.Granting? && s.pass.next < |s.pass.queue|
    ensures var mid := GrantWritten(s, reply);
            mid == s.(log := mid.log) && mid.log[s.snap] == s.log[s.snap]
  {
  }

  /** The loop moves on past a task that is settled. */
  lemma TurnTaken(c: Config, s: State, pass': Pass)
    requires Core(c, s) && s.pass.Granting? && pass'.Granting?
    requires s.pass.next < PassQuota(s.pass, s.log[s.snap])
    requires pass' == s.pass.(next := s.pass.next + 1, failed := pass'.failed)
    requires s.pass.failed <= pass'.failed
    requires Settled(pass'.failed, Current(s), s.pass.queue[s.pass.next].name)
    ensures Core(c, s.(pass := pass'))
  {
    PassAdvances(s.pass, pass', s.log[s.snap], Current(s), s.high);
    SameHistory(c, s, s.(pass := pass'));
  }

  lemma PassAdvances(pass: Pass, pass': Pass, snapshot: View, now: View, high: int)
    requires PassOk(pass, snapshot, now, high) && pass.Granting? && pass'.Granting?
    requires pass.next < PassQuota(pass, snapshot)
    requires pass' == pass.(next := pass.next + 1, failed := pass'.failed)
    requires pass.failed <= pass'.failed && Settled(pass'.failed, now, pass.queue[pass.next].name)
    ensures PassOk(pass', snapshot, now, high)
  {
    forall i | 0 <= i < pass'.next
      ensures Settled(pass'.failed, now, pass'.queue[i].name)
    {
      if i < pass.next {
        assert Settled(pass.failed, now, pass.queue[i].name);
      }
    }
  }

  /** What the store shows after the grant the loop has come to; snapshots stay as they were. */
  lemma CurrentAfterGrant(s: State, reply: Reply)
    requires Bounded(s) && s.pass.Granting? && s.pass.next < |s.pass.queue|
    ensures Current(GrantTried(s, reply))
            == if GrantLands(s, reply) then AfterGrant(Current(s), s.pass.queue[s.pass.next])
               else Current(s)
    ensures var s' := GrantTried(s, reply);
            && s'.snap == s.snap && s'.cache == s.cache
            && s'.log[s.snap] == s.log[s.snap] && s'.log[s.cache] == s.log[s.cache]
  {
  }

  lemma GrantKeepsRoom(c: Config, s: State, reply: Reply)
    requires Inv(c, s) && s.pass.Granting? && s.pass.next < PassQuota(s.pass, s.log[s.snap])
    ensures var s' := GrantTried(s, reply); RoomOk(s'.log, s'.snap, s'.high)
  {
    if GrantLands(s, reply) {
      GrantTarget(c, s);
      GrantHasTurn(c, s);
      GrantAddsOne(Current(s), s.pass.queue[s.pass.next]);
      CurrentBusy(s);
      PushKeepsRoom(s, AfterGrant(Current(s), s.pass.queue[s.pass.next]));
    }
  }

  // ----- every step

  lemma StepKeepsCore(c: Config, s: State, a: Action)
    requires Core(c, s) && Enabled(c, s, a)
    ensures Core(c, Apply(c, s, a))
  {
    match a
    case Change(n, e) => ChangeKeepsCore(c, s, n, e);
    case Create(t) => CreateKeepsCore(c, s, t);
    case Deliver(k) => DeliverKeepsCore(c, s, k);
    case List(limit) => ListKeepsCore(c, s, limit);
    case Grant(reply) => GrantKeepsCore(c, s, reply);
    case _ => SameHistory(c, s, Apply(c, s, a));
  }

  lemma StepKeepsRoom(c: Config, s: State, a: Action)
    requires c.gated && c.distinct
    requires Inv(c, s) && Enabled(c, s, a)
    ensures var s' := Apply(c, s, a); RoomOk(s'.log, s'.snap, s'.high)
  {
    match a
    case Change(n, e) =>
      CoreView(c, s);
      ChangeKeepsBusy(Current(s), n, e, c.pool);
      QuietPushKeepsRoom(s, Current(s)[n := e]);
    case Create(t) =>
      CreateKeepsBusy(Current(s), t);
      QuietPushKeepsRoom(s, Current(s)[t.name := Entry(t, true)]);
    case List(limit) => RoomMoves(c, s.log, s.snap, s.cache, s.high, Relisted(s, limit).high);
    case Grant(reply) => GrantKeepsRoom(c, s, reply);
    case _ =>
  }

  lemma StepKeepsInv(c: Config, s: State, a: Action)
    requires c.gated && c.distinct
    requires Inv(c, s) && Enabled(c, s, a)
    ensures Inv(c, Apply(c, s, a))
  {
    StepKeepsCore(c, s, a);
    StepKeepsRoom(c, s, a);
  }

  // ----- runs

  lemma InitialInv(c: Config)
    ensures Inv(c, INITIAL)
  {
    assert QueuedIn(map[]) == {} && Room(map[], 0) == {};
    assert BusyFits(map[], map[], 0);
  }

  lemma {:induction false} RunKeepsCore(c: Config, s: State, acts: seq<Action>)
    requires Core(c, s) && Valid(c, s, acts)
    ensures Core(c, After(c, s, acts))
    decreases |acts|
  {
    if acts != [] {
      StepKeepsCore(c, s, acts[0]);
      RunKeepsCore(c, Apply(c, s, acts[0]), acts[1..]);
    }
  }

  lemma {:induction false} RunKeepsInv(c: Config, s: State, acts: seq<Action>)
    requires c.gated && c.distinct
    requires Inv(c, s) && Valid(c, s, acts)
    ensures Inv(c, After(c, s, acts))
    decreases |acts|
  {
    if acts != [] {
      StepKeepsInv(c, s, acts[0]);
      RunKeepsInv(c, Apply(c, s, acts[0]), acts[1..]);
    }
  }

  ghost predicate IsRun(c: Config, acts: seq<Action>) {
    Valid(c, INITIAL, acts)
  }

  /** The state a run from the empty store leads to. */
  ghost function Reached(c: Config, acts: seq<Action>): (s: State)
    requires IsRun(c, acts)
    ensures Bounded(s)
  {
    After(c, INITIAL, acts)
  }

  lemma ReachedCore(c: Config, acts: seq<Action>)
    requires IsRun(c, acts)
    ensures Core(c, Reached(c, acts))
  {
    InitialInv(c);
    RunKeepsCore(c, INITIAL, acts);
  }

  lemma ReachedInv(c: Config, acts: seq<Action>)
    requires c.gated && c.distinct && IsRun(c, acts)
    ensures Inv(c, Reached(c, acts))
  {
    InitialInv(c);
    RunKeepsInv(c, INITIAL, acts);
  }

  /** The concurrency bound: in every run, tasks that are active or hold an unused slot never exceed
      the largest limit a pass has read. */
  lemma ConcurrencyBound(c: Config, acts: seq<Action>)
    requires c.gated && c.distinct && IsRun(c, acts)
    ensures |Busy(Current(Reached(c, acts)))| <= Reached(c, acts).high
  {
    ReachedInv(c, acts);
    var s := Reached(c, acts);
    CurrentBusy(s);
    BusyInRoom(s.log[s.snap], Current(s), s.high);
    SubsetSize(Busy(Current(s)), Room(s.log[s.snap], s.high));
  }

  ghost predicate LimitsWithin(acts: seq<Action>, max: int) {
    forall i | 0 <= i < |acts| && acts[i].List? :: acts[i].limit <= max
  }

  lemma {:induction false} HighWithin(c: Config, s: State, acts: seq<Action>, max: int)
    requires Bounded(s) && Valid(c, s, acts) && LimitsWithin(acts, max) && s.high <= max
    ensures After(c, s, acts).high <= max
    decreases |acts|
  {
    if acts != [] {
      HighWithin(c, Apply(c, s, acts[0]), acts[1..], max);
    }
  }

  /** With a fixed limit the bound is that limit. */
  lemma FixedLimitBound(c: Config, acts: seq<Action>, max: nat)
    requires c.gated && c.distinct && IsRun(c, acts)
    requires LimitsWithin(acts, max)
    ensures |Busy(Current(Reached(c, acts)))| <= max
  {
    ConcurrencyBound(c, acts);
    HighWithin(c, INITIAL, acts, max);
  }
}
