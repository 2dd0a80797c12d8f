/** Order of service, conservation of slots and wakeups of the pool over whole runs. */
module PoolTheorems {
  import opened AgentTypes
  import opened PoolView
  import opened PoolSystem
  import opened PoolSafety

  // ----- runs

  lemma {:induction false} ValidSnoc(c: Config, s: State, acts: seq<Action>, a: Action)
    requires Bounded(s) && Valid(c, s, acts) && Enabled(c, After(c, s, acts), a)
    ensures Valid(c, s, acts + [a]) && After(c, s, acts + [a]) == Apply(c, After(c, s, acts), a)
    decreases |acts|
  {
    if acts == [] {
      assert acts + [a] == [a];
      assert Valid(c, Apply(c, s, a), []);
    } else {
      assert (acts + [a])[0] == acts[0] && (acts + [a])[1..] == acts[1..] + [a];
      ValidSnoc(c, Apply(c, s, acts[0]), acts[1..], a);
    }
  }

  /** Tasks only ever evolve along a run. */
  lemma {:induction false} RunIsLater(c: Config, s: State, acts: seq<Action>)
    requires Core(c, s) && Valid(c, s, acts)
    ensures Later(Current(s), Current(After(c, s, acts)))
    ensures s.high <= After(c, s, acts).high
    decreases |acts|
  {
    assert Later(Current(s), Current(s));
    if acts != [] {
      var s' := Apply(c, s, acts[0]);
      StepKeepsCore(c, s, acts[0]);
      StepGrowsLog(c, s, acts[0]);
      assert Later(s'.log[|s.log| - 1], Current(s'));
      RunIsLater(c, s', acts[1..]);
      LaterTransitive(Current(s), Current(s'), Current(After(c, s', acts[1..])));
    }
  }

  lemma StepGrowsLog(c: Config, s: State, a: Action)
    requires Bounded(s) && Enabled(c, s, a)
    ensures s.log <= Apply(c, s, a).log && s.high <= Apply(c, s, a).high
  {
  }

  // ----- the line

  /** Whoever holds an unused slot is next in line, at every moment of every run. */
  lemma SlotsAreInTurn(c: Config, acts: seq<Action>, n: string)
    requires c.gated && c.distinct && IsRun(c, acts)
    requires var v := Current(Reached(c, acts)); IsQueuedIn(v, n) && Granted(v[n].task)
    ensures HasTurn(Current(Reached(c, acts)), Reached(c, acts).high, n)
  {
    ReachedInv(c, acts);
    RoomNow(c, Reached(c, acts));
    assert IsBusyIn(Current(Reached(c, acts)), n);
  }

  /** Everyone who is busy now has room now, and the room is within the limit. */
  ghost predicate RoomHolds(v: View, high: int) {
    BusyFits(v, v, high) && |Room(v, high)| <= high
  }

  lemma RoomNow(c: Config, s: State)
    requires c.distinct && Inv(c, s)
    ensures RoomHolds(Current(s), s.high)
  {
    RoomMoves(c, s.log, s.snap, |s.log| - 1, s.high, s.high);
    assert BusyFits(s.log[|s.log| - 1], s.log[|s.log| - 1], s.high);
  }

  /** A task that has its turn keeps it until it leaves the queue, whatever happens. */
  lemma {:induction false} TurnIsKept(c: Config, s: State, acts: seq<Action>, n: string)
    requires c.gated && c.distinct
    requires Inv(c, s) && Valid(c, s, acts)
    requires HasTurn(Current(s), s.high, n)
    requires IsQueuedIn(Current(After(c, s, acts)), n)
    ensures HasTurn(Current(After(c, s, acts)), After(c, s, acts).high, n)
    decreases |acts|
  {
    if acts != [] {
      var s' := Apply(c, s, acts[0]);
      StepKeepsInv(c, s, acts[0]);
      StepKeepsName(c, s, acts[0], n);
      QueuedMidway(c, s', acts[1..], n);
      TurnIsKeptByStep(c, s, acts[0], n);
      TurnIsKept(c, s', acts[1..], n);
    }
  }

  lemma StepKeepsName(c: Config, s: State, a: Action, n: string)
    requires Bounded(s) && Enabled(c, s, a) && n in Current(s)
    ensures n in Current(Apply(c, s, a))
  {
  }

  /** Someone queued at the end of a run was queued all along. */
  lemma QueuedMidway(c: Config, s: State, acts: seq<Action>, n: string)
    requires Core(c, s) && Valid(c, s, acts) && n in Current(s)
    requires IsQueuedIn(Current(After(c, s, acts)), n)
    ensures IsQueuedIn(Current(s), n)
  {
    RunIsLater(c, s, acts);
    QueuedBefore(Current(s), Current(After(c, s, acts)), n);
  }

  lemma TurnIsKeptByStep(c: Config, s: State, a: Action, n: string)
    requires c.gated && c.distinct
    requires Inv(c, s) && Enabled(c, s, a)
    requires HasTurn(Current(s), s.high, n)
    requires IsQueuedIn(Current(Apply(c, s, a)), n)
    ensures HasTurn(Current(Apply(c, s, a)), Apply(c, s, a).high, n)
  {
    var s' := Apply(c, s, a);
    StepKeepsCore(c, s, a);
    StepGrowsLog(c, s, a);
    RoomNow(c, s);
    assert Later(s'.log[|s.log| - 1], s'.log[|s'.log| - 1]);
    StepStartsOnlyBusy(c, s, a);
    TurnStaysAt(Current(s), Current(s'), s.high, s'.high, n);
  }

  lemma TurnStaysAt(v: View, w: View, low: int, high: int, n: string)
    requires Later(v, w) && low <= high && RoomHolds(v, low) && OnlyBusyActive(v, w)
    requires HasTurn(v, low, n) && IsQueuedIn(w, n)
    ensures HasTurn(w, high, n)
  {
    forall m | m in ActiveIn(w)
      ensures m in Room(v, low)
    {
      assert IsBusyIn(v, m);
    }
    TurnStays(v, w, low, n);
  }

  /** Only a task that was busy at `v` is active at `w`. */
  ghost predicate OnlyBusyActive(v: View, w: View) {
    forall n {:trigger IsActiveIn(w, n)} | IsActiveIn(w, n) :: IsBusyIn(v, n)
  }

  lemma StepStartsOnlyBusy(c: Config, s: State, a: Action)
    requires c.gated && c.distinct
    requires Core(c, s) && Enabled(c, s, a)
    ensures OnlyBusyActive(Current(s), Current(Apply(c, s, a)))
  {
    match a
    case Change(n, e) =>
      CoreView(c, s);
      ChangeKeepsBusy(Current(s), n, e, c.pool);
      PushStartsOnlyBusy(s, Current(s)[n := e]);
    case Create(t) =>
      CreateKeepsBusy(Current(s), t);
      PushStartsOnlyBusy(s, Current(s)[t.name := Entry(t, true)]);
    case Grant(reply) => GrantStartsNobody(c, s, reply);
    case _ => QuietStartsNobody(c, s, a);
  }

  lemma PushStartsOnlyBusy(s: State, v: View)
    requires Bounded(s) && NoneAdded(Current(s), v)
    ensures OnlyBusyActive(Current(s), Current(Push(s, v)))
  {
    forall n | IsActiveIn(v, n)
      ensures IsBusyIn(Current(s), n)
    {
      assert IsBusyIn(v, n);
    }
  }

  lemma QuietStartsNobody(c: Config, s: State, a: Action)
    requires Bounded(s) && Enabled(c, s, a) && !a.Change? && !a.Create? && !a.Grant?
    ensures OnlyBusyActive(Current(s), Current(Apply(c, s, a)))
  {
    assert Current(Apply(c, s, a)) == Current(s);
  }

  lemma GrantStartsNobody(c: Config, s: State, reply: Reply)
    requires Core(c, s) && s.pass.Granting? && s.pass.next < |s.pass.queue|
    ensures OnlyBusyActive(Current(s), Current(GrantTried(s, reply)))
  {
    CurrentAfterGrant(s, reply);
    if GrantLands(s, reply) {
      GrantTarget(c, s);
    }
  }

  // ----- first come, first served

  /** When a grant is accepted, everyone created earlier has left the queue, holds a slot already, or
      had its own grant refused in the same pass. */
  lemma NoOvertaking(c: Config, acts: seq<Action>, reply: Reply, m: string)
    requires IsRun(c, acts)
    requires Enabled(c, Reached(c, acts), Grant(reply))
    requires GrantLands(Reached(c, acts), reply)
    requires var s := Reached(c, acts);
             m in Current(s) && Current(s)[m].task.created < s.pass.queue[s.pass.next].created
    ensures var s := Reached(c, acts);
            || !IsQueuedIn(Current(s), m)
            || Granted(Current(s)[m].task)
            || m in s.pass.failed
  {
    ReachedCore(c, acts);
    var s := Reached(c, acts);
    if IsQueuedIn(Current(s), m) {
      var k := PlaceOfEarlier(c, s, m);
      assert Settled(s.pass.failed, Current(s), s.pass.queue[k].name);
    }
  }

  /** A waiting task older than the one the loop has come to was passed by the loop. */
  lemma PlaceOfEarlier(c: Config, s: State, m: string) returns (k: nat)
    requires Core(c, s) && s.pass.Granting? && s.pass.next < |s.pass.queue|
    requires IsQueuedIn(Current(s), m)
    requires Current(s)[m].task.created < s.pass.queue[s.pass.next].created
    ensures k < s.pass.next && s.pass.queue[k].name == m
  {
    CoreView(c, s);
    EarlierWasQueued(s.log[s.snap], Current(s), s.pass.queue[s.pass.next], m);
    k := PlaceInQueue(s.log[s.snap], s.pass.queue, m);
    assert WasRead(s.log[s.snap], s.pass.queue[k]);
    assert LaterVersion(s.log[s.snap][m].task, Current(s)[m].task);
  }

  lemma EarlierWasQueued(snapshot: View, now: View, t: Task, m: string)
    requires Later(snapshot, now) && WasRead(snapshot, t)
    requires IsQueuedIn(now, m) && now[m].task.created < t.created
    ensures IsQueuedIn(snapshot, m)
  {
    assert m in snapshot;
    QueuedBefore(snapshot, now, m);
  }

  lemma PlaceInQueue(v: View, queue: seq<Task>, m: string) returns (k: nat)
    requires IsQueueOf(v, queue) && IsQueuedIn(v, m)
    ensures k < |queue| && queue[k].name == m
  {
    QueueNames(v, queue);
    assert m in QueuedIn(v);
    k :| 0 <= k < |queue| && queue[k].name == m;
  }

  // ----- no idle slots

  /** The slots held once a pass has granted its share, counted on the snapshot it worked from. */
  ghost function Holders(s: State): set<string>
    requires Bounded(s) && s.pass.Granting? && s.pass.next <= |s.pass.queue|
  {
    SlotHolders(s.log[s.snap]) + NamesOf(s.pass.queue[..s.pass.next])
  }

  ghost predicate HoldsSlotQueued(v: View, n: string) {
    IsQueuedIn(v, n) && Granted(v[n].task)
  }

  ghost function SlotHolders(v: View): set<string> {
    set n | n in v && HoldsSlotQueued(v, n)
  }

  /** A pass that has done all its granting. */
  ghost predicate GrantingDone(s: State)
    requires Bounded(s)
  {
    s.pass.Granting? && PassDone(s.pass, s.log[s.snap])
  }

  /** A pass that leaves someone without a slot has handed out every slot there was under its limit, and
      each grant holds unless it was refused. */
  lemma NoIdleSlots(c: Config, acts: seq<Action>, waiting: string)
    requires IsRun(c, acts) && GrantingDone(Reached(c, acts))
    requires IsQueuedIn(Reached(c, acts).log[Reached(c, acts).snap], waiting)
    requires waiting !in Holders(Reached(c, acts))
    ensures var s := Reached(c, acts);
            && |ActiveIn(s.log[s.snap])| + |Holders(s)| >= s.pass.limit
            && forall i | 0 <= i < s.pass.next ::
                 s.pass.queue[i].name in s.pass.failed || HoldsSlot(Current(s), s.pass.queue[i].name)
  {
    ReachedCore(c, acts);
    var s := Reached(c, acts);
    HeadTaken(s.log[s.snap], s.pass, waiting);
    SubsetSize(NamesOf(s.pass.queue[..s.pass.next]), Holders(s));
    forall i | 0 <= i < s.pass.next
      ensures s.pass.queue[i].name in s.pass.failed || HoldsSlot(Current(s), s.pass.queue[i].name)
    {
      assert Settled(s.pass.failed, Current(s), s.pass.queue[i].name);
    }
  }

  /** And no more than those, when no pass has read a larger limit and the snapshot is within it. */
  lemma NoSlotTooMany(c: Config, acts: seq<Action>, waiting: string)
    requires c.gated && c.distinct
    requires IsRun(c, acts) && GrantingDone(Reached(c, acts))
    requires Reached(c, acts).pass.limit == Reached(c, acts).high
    requires |ActiveIn(Reached(c, acts).log[Reached(c, acts).snap])| <= Reached(c, acts).pass.limit
    requires IsQueuedIn(Reached(c, acts).log[Reached(c, acts).snap], waiting)
    requires waiting !in Holders(Reached(c, acts))
    ensures var s := Reached(c, acts);
            |ActiveIn(s.log[s.snap])| + |Holders(s)| == s.pass.limit
  {
    ReachedInv(c, acts);
    var s := Reached(c, acts);
    HeadTaken(s.log[s.snap], s.pass, waiting);
    HoldersAreHead(c, s);
  }

  /** A finished pass that leaves someone out has granted to as many as there was room for. */
  lemma HeadTaken(snapshot: View, pass: Pass, waiting: string)
    requires pass.Granting? && IsQueueOf(snapshot, pass.queue) && pass.next == PassQuota(pass, snapshot)
    requires IsQueuedIn(snapshot, waiting) && waiting !in NamesOf(pass.queue[..pass.next])
    ensures var head := NamesOf(pass.queue[..pass.next]);
            && |ActiveIn(snapshot)| + |head| >= pass.limit
            && (|ActiveIn(snapshot)| <= pass.limit ==> |ActiveIn(snapshot)| + |head| == pass.limit)
  {
    var k := PlaceInQueue(snapshot, pass.queue, waiting);
    forall i | 0 <= i < pass.next
      ensures pass.queue[i].name != waiting
    {
      assert pass.queue[i] == pass.queue[..pass.next][i];
    }
    assert NoRepeats(pass.queue[..pass.next]);
    NamesCount(pass.queue[..pass.next]);
  }

  ghost predicate HoldsSlot(v: View, n: string) {
    n in v && Granted(v[n].task)
  }

  lemma HoldersAreHead(c: Config, s: State)
    requires c.distinct && Inv(c, s) && GrantingDone(s) && s.pass.limit == s.high
    ensures Holders(s) == NamesOf(s.pass.queue[..s.pass.next])
  {
    var snapshot := s.log[s.snap];
    assert WellFormed(c, snapshot);
    assert BusyFits(snapshot, s.log[s.snap], s.high);
    forall n | n in SlotHolders(snapshot)
      ensures n in NamesOf(s.pass.queue[..s.pass.next])
    {
      assert HoldsSlotQueued(snapshot, n) && IsBusyIn(snapshot, n);
      TurnsAreHead(snapshot, s.pass.queue, s.pass.limit, n);
    }
  }

  /** Only the head of the queue is next in line. */
  lemma TurnsAreHead(v: View, queue: seq<Task>, limit: int, n: string)
    requires Keyed(v) && Distinct(v) && IsQueueOf(v, queue)
    requires HasTurn(v, limit, n)
    ensures n in NamesOf(queue[..Quota(limit, |ActiveIn(v)|, |queue|)])
  {
    QueueNames(v, queue);
    assert n in QueuedIn(v);
    var k :| 0 <= k < |queue| && queue[k].name == n;
    forall m | m in NamesOf(queue[..k])
      ensures m in Before(v, n)
    {
      var i :| 0 <= i < k && queue[..k][i].name == m;
      assert WasRead(v, queue[i]) && WasRead(v, queue[k]);
    }
    assert NoRepeats(queue[..k]);
    NamesCount(queue[..k]);
    SubsetSize(NamesOf(queue[..k]), Before(v, n));
    assert queue[..Quota(limit, |ActiveIn(v)|, |queue|)][k].name == n;
  }

  /** Nothing takes a granted slot away, whatever limits are read. */
  lemma SlotsAreKept(c: Config, s: State, acts: seq<Action>, n: string)
    requires Core(c, s) && Valid(c, s, acts)
    requires n in Current(s) && Granted(Current(s)[n].task)
    ensures n in Current(After(c, s, acts)) && Granted(Current(After(c, s, acts))[n].task)
  {
    RunIsLater(c, s, acts);
    assert LaterVersion(Current(s)[n].task, Current(After(c, s, acts))[n].task);
  }

  /** The pool is running or will run again, unless its cache shows no queued task. */
  ghost predicate IsAwake(s: State)
    requires Bounded(s)
  {
    QueuedIn(s.log[s.cache]) != {} ==> s.wake || s.pass != Idle
  }

  /** Work is never forgotten: while the pool's cache shows a queued task, the pool is running or will
      run again; and what the cache does not show yet is still to be delivered. */
  lemma PoolStaysAwake(c: Config, acts: seq<Action>)
    requires c.gated && IsRun(c, acts)
    ensures var s := Reached(c, acts);
            && IsAwake(s)
            && (QueuedIn(Current(s)) != {} ==> s.wake || s.pass != Idle || s.cache < |s.log| - 1)
  {
    ReachedCore(c, acts);
  }
}
