/** One state of the tasks a pool lists: who is queued, who is active, and whose turn it is. */
module PoolView {
  import opened AgentTypes

  /** A task stays in the view after its removal, so that names are never taken twice. */
  datatype Entry = Entry(task: Task, live: bool)

  type View = map<string, Entry>

  ghost predicate Keyed(v: View) {
    forall n | n in v :: v[n].task.name == n
  }

  /** No two tasks carry the same creation stamp. */
  ghost predicate Distinct(v: View) {
    forall m, n | m in v && n in v && m != n :: v[m].task.created != v[n].task.created
  }

  /** Every task names the pool, so that it waits at the slot gate. */
  ghost predicate Gated(v: View, pool: string) {
    forall n | n in v :: v[n].task.spec.poolRef == pool
  }

  predicate IsQueuedIn(v: View, n: string) {
    n in v && v[n].live && IsQueued(v[n].task.status.phase)
  }

  function QueuedIn(v: View): set<string> {
    set n | n in v && IsQueuedIn(v, n)
  }

  predicate IsActiveIn(v: View, n: string) {
    n in v && v[n].live && IsActive(v[n].task.status.phase)
  }

  function ActiveIn(v: View): set<string> {
    set n | n in v && IsActiveIn(v, n)
  }

  predicate IsAhead(v: View, m: string, n: string) {
    n in v && IsQueuedIn(v, m) && v[m].task.created < v[n].task.created
  }

  /** The queued tasks created before `n`. */
  function Before(v: View, n: string): set<string> {
    set m | m in v && IsAhead(v, m, n)
  }

  /** It is the turn of `n` under a limit: counting the active tasks and everyone ahead, there is room
      for one more. */
  predicate HasTurn(v: View, limit: int, n: string) {
    IsQueuedIn(v, n) && |ActiveIn(v)| + |Before(v, n)| < limit
  }

  /** An active task, or one that holds a slot but has not started yet. */
  predicate IsBusyIn(v: View, n: string) {
    IsActiveIn(v, n) || (IsQueuedIn(v, n) && Granted(v[n].task))
  }

  function Busy(v: View): set<string> {
    set n | n in v && IsBusyIn(v, n)
  }

  /** Whoever may be busy under a limit: the active tasks and those next in line. */
  predicate InRoom(v: View, limit: int, n: string) {
    IsActiveIn(v, n) || HasTurn(v, limit, n)
  }

  function Room(v: View, limit: int): set<string> {
    set n | n in v && InRoom(v, limit, n)
  }

  /** Whoever is busy at `w` has room at `v`. */
  ghost predicate BusyFits(v: View, w: View, limit: int) {
    forall n {:trigger IsBusyIn(w, n)} | IsBusyIn(w, n) :: InRoom(v, limit, n)
  }

  /** `w` is a later state of the tasks in `v`: tasks evolve, and no newcomer is older than they are. */
  ghost predicate Later(v: View, w: View) {
    && v.Keys <= w.Keys
    && (forall n | n in v :: LaterVersion(v[n].task, w[n].task) && (w[n].live ==> v[n].live))
    && (forall m, n | m in v && n in w && n !in v :: v[m].task.created <= w[n].task.created)
  }

  lemma LaterTransitive(u: View, v: View, w: View)
    requires Later(u, v) && Later(v, w)
    ensures Later(u, w)
  {
  }

  /** Someone who is queued later was queued earlier, unless new. */
  lemma QueuedBefore(v: View, w: View, n: string)
    requires Later(v, w) && n in v && IsQueuedIn(w, n)
    ensures IsQueuedIn(v, n)
    ensures Before(w, n) <= Before(v, n)
  {
  }

  /** With distinct stamps, active tasks and those next in line fit in the limit; and with nobody next in
      line only the active tasks remain. */
  lemma RoomFits(v: View, limit: int)
    requires Distinct(v)
    ensures |Room(v, limit)| <= limit || Room(v, limit) == ActiveIn(v)
  {
    var next := set n | n in v && HasTurn(v, limit, n);
    assert Room(v, limit) == ActiveIn(v) + next;
    if next != {} {
      var n := Youngest(v, next);
      OthersAhead(v, next, n);
      SubsetSize(next - {n}, Before(v, n));
      assert |ActiveIn(v) + next| <= |ActiveIn(v)| + |next - {n}| + 1;
    }
  }

  lemma OthersAhead(v: View, next: set<string>, n: string)
    requires Distinct(v) && n in next && n in v
    requires forall m | m in next :: IsQueuedIn(v, m) && v[m].task.created <= v[n].task.created
    ensures next - {n} <= Before(v, n)
  {
  }

  lemma {:induction false} Youngest(v: View, s: set<string>) returns (n: string)
    requires s != {} && s <= v.Keys
    ensures n in s && forall m | m in s :: v[m].task.created <= v[n].task.created
    decreases |s|
  {
    n :| n in s;
    if s != {n} {
      var k := Youngest(v, s - {n});
      n := if v[n].task.created < v[k].task.created then k else n;
    }
  }

  lemma {:induction false} SubsetSize<T>(a: set<T>, b: set<T>)
    requires a <= b
    ensures |a| <= |b|
  {
    if a != {} {
      var x :| x in a;
      SubsetSize(a - {x}, b - {x});
    }
  }

  /** Two disjoint groups and one more, all within a set, leave the two groups one short of it. */
  lemma OneShort<T>(a: set<T>, b: set<T>, x: T, all: set<T>)
    requires a !! b && x !in a + b && x in all && a <= all && b <= all
    ensures |a| + |b| < |all|
  {
    assert |a + b| == |a| + |b|;
    SubsetSize(a + b, all - {x});
  }

  /** Whoever is ahead of a task that has its turn has its turn. */
  lemma AheadHasTurn(v: View, limit: int, n: string, m: string)
    requires HasTurn(v, limit, n) && m in Before(v, n)
    ensures HasTurn(v, limit, m)
  {
    SubsetSize(Before(v, m), Before(v, n));
  }

  lemma AheadInRoom(v: View, w: View, limit: int, n: string)
    requires Later(v, w) && n in v && HasTurn(v, limit, n) && IsQueuedIn(w, n)
    ensures Before(w, n) <= Room(v, limit)
  {
    QueuedBefore(v, w, n);
    forall m | m in Before(w, n)
      ensures m in Room(v, limit)
    {
      AheadHasTurn(v, limit, n, m);
    }
  }

  lemma QueuedNotActive(w: View, n: string)
    requires IsQueuedIn(w, n)
    ensures ActiveIn(w) !! Before(w, n) && n !in ActiveIn(w) + Before(w, n)
  {
  }

  /** The line never closes on a waiting task: if only tasks with room have become active since, a task
      whose turn it was is still next. */
  lemma TurnStays(v: View, w: View, limit: int, n: string)
    requires Later(v, w)
    requires |Room(v, limit)| <= limit
    requires ActiveIn(w) <= Room(v, limit)
    requires HasTurn(v, limit, n) && IsQueuedIn(w, n)
    ensures HasTurn(w, limit, n)
  {
    AheadInRoom(v, w, limit, n);
    QueuedNotActive(w, n);
    OneShort(ActiveIn(w), Before(w, n), n, Room(v, limit));
  }

  lemma RoomGrows(v: View, low: int, high: int, n: string)
    requires low <= high && InRoom(v, low, n)
    ensures InRoom(v, high, n)
  {
  }

  /** Someone busy later and not active now is queued now. */
  lemma BusyWasQueued(v: View, w: View, n: string)
    requires Later(v, w) && n in v && IsBusyIn(w, n) && !IsActiveIn(v, n)
    ensures IsQueuedIn(v, n)
  {
    assert LaterVersion(v[n].task, w[n].task);
  }

  lemma ActiveInRoom(u: View, v: View, limit: int)
    requires BusyFits(u, v, limit)
    ensures ActiveIn(v) <= Room(u, limit)
  {
    forall n | n in ActiveIn(v)
      ensures n in Room(u, limit)
    {
      assert IsBusyIn(v, n);
    }
  }

  lemma BusyInRoom(u: View, v: View, limit: int)
    requires BusyFits(u, v, limit)
    ensures Busy(v) <= Room(u, limit)
  {
    forall n | n in Busy(v)
      ensures n in Room(u, limit)
    {
      assert IsBusyIn(v, n);
    }
  }

  lemma StaysInRoom(u: View, v: View, w: View, limit: int, n: string)
    requires Later(u, v) && Later(v, w)
    requires |Room(u, limit)| <= limit && ActiveIn(v) <= Room(u, limit)
    requires IsBusyIn(w, n) && InRoom(u, limit, n)
    ensures InRoom(v, limit, n)
  {
    assert n in u && n in v;
    if !IsActiveIn(v, n) {
      BusyWasQueued(v, w, n);
      QueuedHadTurn(u, v, limit, n);
      TurnStays(u, v, limit, n);
    }
  }

  lemma QueuedHadTurn(u: View, v: View, limit: int, n: string)
    requires Later(u, v) && InRoom(u, limit, n) && IsQueuedIn(v, n)
    ensures HasTurn(u, limit, n)
  {
    QueuedBefore(u, v, n);
  }

  /** Taking a newer snapshot loses nobody: whoever is busy at `w` and had room at `u` has room at the
      state `v` between them. */
  lemma Resnapshot(u: View, v: View, w: View, limit: int)
    requires Later(u, v) && Later(v, w)
    requires |Room(u, limit)| <= limit
    requires BusyFits(u, v, limit) && BusyFits(u, w, limit)
    ensures BusyFits(v, w, limit)
  {
    ActiveInRoom(u, v, limit);
    forall n | IsBusyIn(w, n)
      ensures InRoom(v, limit, n)
    {
      StaysInRoom(u, v, w, limit, n);
    }
  }
}
