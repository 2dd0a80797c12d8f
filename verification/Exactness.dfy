/** The concurrency bound needs the slot gate and distinct creation stamps: without either, the operator
    has a run that breaks it, under every limit. */
module Exactness {
  import opened AgentTypes
  import opened Handlers
  import opened PoolView
  import opened Operator
  import PT = PoolTheorems
  import LR = LifecycleRuns

  // ----- runs under one limit

  /** Every pass reads the same limit. */
  ghost predicate FixedLimit(acts: seq<Action>, max: int) {
    forall i {:trigger acts[i]} | 0 <= i < |acts| :: KeepsLimit(acts[i], max)
  }

  predicate KeepsLimit(a: Action, max: int) {
    a.OnPool? && a.move.List? ==> a.move.limit == max
  }

  /** A world that some run under that limit leads to. */
  ghost predicate Gets(m: L.Mode, c: P.Config, max: int, w: World) {
    exists acts: seq<Action> ::
      Valid(m, c, INITIAL, acts) && FixedLimit(acts, max) && After(m, c, INITIAL, acts) == w
  }

  lemma {:induction false} RunExtends(m: L.Mode, c: P.Config, w: World, acts: seq<Action>, a: Action)
    requires AllBounded(w) && Valid(m, c, w, acts) && Enabled(m, c, After(m, c, w, acts), a)
    ensures Valid(m, c, w, acts + [a]) && After(m, c, w, acts + [a]) == Apply(m, c, After(m, c, w, acts), a)
    decreases |acts|
  {
    if acts == [] {
      assert acts + [a] == [a];
      assert Valid(m, c, Apply(m, c, w, a), []);
    } else {
      assert (acts + [a])[0] == acts[0] && (acts + [a])[1..] == acts[1..] + [a];
      RunExtends(m, c, Apply(m, c, w, acts[0]), acts[1..], a);
    }
  }

  lemma GetsStep(m: L.Mode, c: P.Config, max: int, w: World, a: Action)
    requires AllBounded(w) && Gets(m, c, max, w) && Enabled(m, c, w, a) && KeepsLimit(a, max)
    ensures Gets(m, c, max, Apply(m, c, w, a))
  {
    var acts :| Valid(m, c, INITIAL, acts) && FixedLimit(acts, max) && After(m, c, INITIAL, acts) == w;
    RunExtends(m, c, INITIAL, acts, a);
    assert FixedLimit(acts + [a], max);
  }

  lemma GetsInv(m: L.Mode, c: P.Config, max: int, w: World)
    requires Gets(m, c, max, w)
    ensures Inv(c, w)
  {
    var acts :| Valid(m, c, INITIAL, acts) && FixedLimit(acts, max) && After(m, c, INITIAL, acts) == w;
    InitialInv(c);
    RunKeepsInv(m, c, INITIAL, acts);
  }

  /** The pool does something other than granting; the tasks stay as they are. */
  lemma PoolMoves(m: L.Mode, c: P.Config, max: int, w: World, move: P.Action) returns (w': World)
    requires AllBounded(w) && Gets(m, c, max, w)
    requires P.Enabled(c, w.pool, move) && !move.Change? && !move.Create? && !move.Grant?
    requires move.List? ==> move.limit == max
    ensures AllBounded(w') && Gets(m, c, max, w')
    ensures w' == World(w.cells, P.Apply(c, w.pool, move))
  {
    GetsStep(m, c, max, w, OnPool(move));
    w' := Apply(m, c, w, OnPool(move));
  }

  // ----- tasks

  const SPEC := TaskSpec("fix", "cloud", "m", "aider", GitSpec("r", "main", "", "", ""),
                         None, None, None, "")
  const ANSWERS := Answers(Found, PodNotFound, true, PodCreated, Failure, Failure)

  function Name(i: nat): (name: string)
    ensures |name| == i
  {
    seq(i, _ => 'a')
  }

  /** The tasks of the runs below: without the gate they name no pool, with ties they share a stamp. */
  function Newcomer(c: P.Config, i: nat): Task {
    Task(Name(i), if c.distinct then i else 0, 0, map[], false, false,
         SPEC.(poolRef := if c.gated then c.pool else ""), FRESH_STATUS)
  }

  function Names(k: nat): set<string> {
    set i | 0 <= i < k :: Name(i)
  }

  lemma {:induction false} NamesCount(k: nat)
    ensures |Names(k)| == k
  {
    if k > 0 {
      NamesCount(k - 1);
      assert Names(k) == Names(k - 1) + {Name(k - 1)};
      assert forall i | 0 <= i < k - 1 :: Name(i) != Name(k - 1);
    }
  }

  /** A task that waits, like the newcomers, granted or not. */
  ghost predicate Waits(c: P.Config, cell: L.Cell, i: nat) {
    && LR.Ready(cell) && L.Current(cell).status == FRESH_STATUS
    && L.Current(cell).name == Name(i) && L.Current(cell).created == Newcomer(c, i).created
    && L.Current(cell).spec == Newcomer(c, i).spec
  }

  ghost predicate Peopled(c: P.Config, cells: map<string, L.Cell>, k: nat) {
    cells.Keys == Names(k) && forall i | 0 <= i < k :: Name(i) in cells && Waits(c, cells[Name(i)], i)
  }

  /** One pass over an empty store, under the limit. */
  lemma FirstPass(m: L.Mode, c: P.Config, max: int) returns (w: World)
    ensures AllBounded(w) && Gets(m, c, max, w) && w.cells == map[] && w.pool.pass == P.Idle
  {
    assert Valid(m, c, INITIAL, []) && FixedLimit([], max) && After(m, c, INITIAL, []) == INITIAL;
    w := PoolMoves(m, c, max, INITIAL, P.List(max));
    assert ActiveIn(map[]) == {} && QueuedIn(map[]) == {};
    w := PoolMoves(m, c, max, w, P.Finish(Answered));
  }

  lemma {:induction false} Populate(m: L.Mode, c: P.Config, max: int, k: nat) returns (w: World)
    ensures AllBounded(w) && Gets(m, c, max, w) && w.pool.pass == P.Idle
    ensures Peopled(c, w.cells, k)
    ensures forall i | 0 <= i < k :: !Granted(L.Current(w.cells[Name(i)]))
  {
    if k == 0 {
      w := FirstPass(m, c, max);
    } else {
      var before := Populate(m, c, max, k - 1);
      var t := Newcomer(c, k - 1);
      NewcomerWelcome(m, c, max, before, k - 1);
      GetsStep(m, c, max, before, NewTask(t, 0));
      w := Apply(m, c, before, NewTask(t, 0));
      assert w.cells == before.cells[t.name := L.NewCell(t, 0)];
      assert Names(k) == Names(k - 1) + {Name(k - 1)};
      forall i | 0 <= i < k
        ensures Name(i) in w.cells && Waits(c, w.cells[Name(i)], i) && !Granted(L.Current(w.cells[Name(i)]))
      {
        if i < k - 1 {
          assert Name(i) != t.name;
        }
      }
    }
  }

  lemma NewcomerWelcome(m: L.Mode, c: P.Config, max: int, w: World, k: nat)
    requires AllBounded(w) && Gets(m, c, max, w) && Peopled(c, w.cells, k)
    ensures Enabled(m, c, w, NewTask(Newcomer(c, k), 0))
  {
    GetsInv(m, c, max, w);
    var v := P.Current(w.pool);
    assert Name(k) !in Names(k);
    forall n | n in v
      ensures v[n].task.created <= Newcomer(c, k).created
      ensures c.distinct ==> v[n].task.created < Newcomer(c, k).created
    {
      assert Stands(v, n, w.cells[n]);
      var i :| 0 <= i < k && n == Name(i);
      assert Waits(c, w.cells[n], i);
    }
  }

  // ----- tasks that have passed the gate all start

  /** A run of one task is a run of the operator. */
  lemma {:induction false} TaskMoves(m: L.Mode, c: P.Config, max: int, w: World, n: string,
                                     acts: seq<L.Action>) returns (w': World)
    requires AllBounded(w) && Gets(m, c, max, w) && n in w.cells && L.Bounded(w.cells[n])
    requires L.Valid(m, w.cells[n], acts) && LR.OwnSteps(acts)
    ensures AllBounded(w') && Gets(m, c, max, w')
    ensures w'.cells == w.cells[n := L.After(m, w.cells[n], acts)] && w'.pool.pass == w.pool.pass
    decreases |acts|
  {
    if acts == [] {
      w' := w;
    } else {
      var a := OnTask(n, acts[0]);
      GetsStep(m, c, max, w, a);
      var next := Apply(m, c, w, a);
      w' := TaskMoves(m, c, max, next, n, acts[1..]);
    }
  }

  ghost predicate AllActive(cells: map<string, L.Cell>, i: nat) {
    forall j | 0 <= j < i :: Name(j) in cells && IsActiveTask(cells[Name(j)])
  }

  ghost predicate RestMayStart(c: P.Config, cells: map<string, L.Cell>, i: nat, k: nat) {
    forall j | i <= j < k ::
      Name(j) in cells && Waits(c, cells[Name(j)], j) && MayStart(L.Current(cells[Name(j)]))
  }

  lemma StartOne(m: L.Mode, c: P.Config, max: int, w: World, i: nat) returns (w': World)
    requires AllBounded(w) && Gets(m, c, max, w)
    requires Name(i) in w.cells && Waits(c, w.cells[Name(i)], i) && MayStart(L.Current(w.cells[Name(i)]))
    ensures AllBounded(w') && Gets(m, c, max, w') && w'.pool.pass == w.pool.pass
    ensures w'.cells.Keys == w.cells.Keys && IsActiveTask(w'.cells[Name(i)])
    ensures forall n | n in w.cells && n != Name(i) :: w'.cells[n] == w.cells[n]
  {
    var cell := w.cells[Name(i)];
    var ans := ANSWERS.(create := L.CreateAnswerFor(cell.pod.Some?, Answered));
    assert MayStart(LR.Base(cell));
    var acts := LR.ServeOnce(m, cell, ans);
    w' := TaskMoves(m, c, max, w, Name(i), acts);
  }

  lemma {:induction false} StartAll(m: L.Mode, c: P.Config, max: int, w: World, i: nat, k: nat)
    returns (w': World)
    requires AllBounded(w) && Gets(m, c, max, w) && i <= k && w.cells.Keys == Names(k)
    requires AllActive(w.cells, i) && RestMayStart(c, w.cells, i, k)
    ensures AllBounded(w') && Gets(m, c, max, w') && w'.pool.pass == w.pool.pass
    ensures w'.cells.Keys == Names(k) && AllActive(w'.cells, k)
    decreases k - i
  {
    if i == k {
      w' := w;
    } else {
      var next := StartOne(m, c, max, w, i);
      assert forall j | 0 <= j < k && j != i :: Name(j) != Name(i);
      w' := StartAll(m, c, max, next, i + 1, k);
    }
  }

  lemma CountActive(w: World, k: nat)
    requires w.cells.Keys == Names(k) && AllActive(w.cells, k)
    ensures |ActiveTasks(w)| == k
  {
    NamesCount(k);
    assert ActiveTasks(w) == Names(k);
  }

  // ----- a pass over waiting tasks

  function Place(k: nat, reversed: bool, i: nat): nat
    requires i < k
  {
    if reversed then k - 1 - i else i
  }

  /** The waiting tasks, in one order or the other; with one stamp, both are sorted. */
  ghost function Queue(cells: map<string, L.Cell>, k: nat, reversed: bool): seq<Task>
    requires forall i | 0 <= i < k :: Name(i) in cells && L.Bounded(cells[Name(i)])
  {
    seq(k, i requires 0 <= i < k => L.Current(cells[Name(Place(k, reversed, i))]))
  }

  lemma QueueShape(c: P.Config, cells: map<string, L.Cell>, k: nat, reversed: bool)
    requires !c.distinct && Peopled(c, cells, k)
    ensures P.NoRepeats(Queue(cells, k, reversed)) && P.Sorted(Queue(cells, k, reversed))
  {
    var queue := Queue(cells, k, reversed);
    forall i | 0 <= i < k
      ensures queue[i].name == Name(Place(k, reversed, i)) && queue[i].created == 0
    {
      assert Waits(c, cells[Name(Place(k, reversed, i))], Place(k, reversed, i));
    }
    forall i, j | 0 <= i < j < k
      ensures queue[i].name != queue[j].name
    {
      assert |queue[i].name| == Place(k, reversed, i) && |queue[j].name| == Place(k, reversed, j);
    }
  }

  lemma QueueRead(c: P.Config, v: View, cells: map<string, L.Cell>, k: nat, reversed: bool)
    requires Agrees(v, cells) && Peopled(c, cells, k)
    ensures forall i {:trigger Queue(cells, k, reversed)[i]} | 0 <= i < k ::
              P.WasRead(v, Queue(cells, k, reversed)[i])
  {
    forall i | 0 <= i < k
      ensures P.WasRead(v, Queue(cells, k, reversed)[i])
    {
      var j := Place(k, reversed, i);
      assert Stands(v, Name(j), cells[Name(j)]) && Waits(c, cells[Name(j)], j);
    }
  }

  lemma AllQueued(c: P.Config, v: View, cells: map<string, L.Cell>, k: nat)
    requires Agrees(v, cells) && Peopled(c, cells, k)
    ensures QueuedIn(v) == Names(k) && ActiveIn(v) == {}
  {
    forall n | n in v
      ensures IsQueuedIn(v, n) && !IsActiveIn(v, n)
    {
      assert Stands(v, n, cells[n]);
      var i :| 0 <= i < k && n == Name(i);
      assert Waits(c, cells[n], i);
    }
  }

  lemma QueueOk(c: P.Config, v: View, cells: map<string, L.Cell>, k: nat, reversed: bool)
    requires !c.distinct && Agrees(v, cells) && Peopled(c, cells, k)
    ensures P.IsQueueOf(v, Queue(cells, k, reversed)) && ActiveIn(v) == {}
  {
    QueueShape(c, cells, k, reversed);
    QueueRead(c, v, cells, k, reversed);
    AllQueued(c, v, cells, k);
    NamesCount(k);
  }

  /** A pass lists the tasks as they stand. */
  lemma ListAll(m: L.Mode, c: P.Config, max: int, w: World) returns (w': World)
    requires AllBounded(w) && Gets(m, c, max, w) && w.pool.pass == P.Idle
    ensures AllBounded(w') && Gets(m, c, max, w') && w'.cells == w.cells
    ensures w'.pool.pass == P.Listed(max) && w'.pool.log[w'.pool.snap] == P.Current(w.pool)
  {
    w' := PoolMoves(m, c, max, w, P.Deliver(|w.pool.log| - 1));
    w' := PoolMoves(m, c, max, w', P.Poke);
    w' := PoolMoves(m, c, max, w', P.List(max));
  }

  /** A pass has listed the waiting tasks and sorted them one way or the other. */
  lemma BeginPass(m: L.Mode, c: P.Config, max: nat, w: World, k: nat, reversed: bool) returns (w': World)
    requires !c.distinct && AllBounded(w) && Gets(m, c, max, w) && Peopled(c, w.cells, k)
    requires w.pool.pass == P.Idle && k > max
    ensures AllBounded(w') && Gets(m, c, max, w') && w'.cells == w.cells
    ensures w'.pool.pass == P.Granting(max, Queue(w.cells, k, reversed), 0, {})
    ensures P.PassQuota(w'.pool.pass, w'.pool.log[w'.pool.snap]) == max
  {
    GetsInv(m, c, max, w);
    QueueOk(c, P.Current(w.pool), w.cells, k, reversed);
    var listed := ListAll(m, c, max, w);
    w' := PoolMoves(m, c, max, listed, P.Order(Queue(w.cells, k, reversed)));
  }

  /** The grant the loop has come to is accepted. */
  lemma GrantOne(m: L.Mode, c: P.Config, max: int, w: World, i: nat) returns (w': World)
    requires AllBounded(w) && Gets(m, c, max, w) && w.pool.pass.Granting?
    requires w.pool.pass.next < P.PassQuota(w.pool.pass, w.pool.log[w.pool.snap])
    requires Name(i) in w.cells && Waits(c, w.cells[Name(i)], i)
    requires L.Current(w.cells[Name(i)]) == w.pool.pass.queue[w.pool.pass.next]
    ensures AllBounded(w') && Gets(m, c, max, w')
    ensures w'.cells.Keys == w.cells.Keys && Waits(c, w'.cells[Name(i)], i)
    ensures Granted(L.Current(w'.cells[Name(i)]))
    ensures forall n | n in w.cells && n != Name(i) :: w'.cells[n] == w.cells[n]
    ensures w'.pool.pass.Granting? && w'.pool.pass == w.pool.pass.(next := w.pool.pass.next + 1,
                                                                   failed := w'.pool.pass.failed)
    ensures w'.pool.log[w'.pool.snap] == w.pool.log[w.pool.snap]
  {
    GetsStep(m, c, max, w, OnPool(P.Grant(Answered)));
    w' := Apply(m, c, w, OnPool(P.Grant(Answered)));
    PS.CurrentAfterGrant(w.pool, Answered);
    GrantedWaits(c, w.cells[Name(i)], i);
  }

  lemma GrantedWaits(c: P.Config, cell: L.Cell, i: nat)
    requires Waits(c, cell, i)
    ensures var cell' := L.SlotGranted(cell, L.Current(cell), Answered);
            Waits(c, cell', i) && Granted(L.Current(cell'))
  {
  }

  /** The loop has granted to the first `i` of the tasks; the others are as they were listed. */
  ghost predicate GrantedTo(c: P.Config, w: World, i: nat, k: nat) {
    && i <= k && Peopled(c, w.cells, k)
    && (forall j | 0 <= j < i :: Granted(L.Current(w.cells[Name(j)])))
    && w.pool.pass.Granting? && |w.pool.pass.queue| == k && w.pool.pass.next == i
    && (forall j | i <= j < k :: L.Current(w.cells[Name(j)]) == w.pool.pass.queue[j])
  }

  lemma {:induction false} GrantMany(m: L.Mode, c: P.Config, max: nat, w: World, i: nat, k: nat)
    returns (w': World)
    requires AllBounded(w) && Gets(m, c, max, w) && i <= max < k && GrantedTo(c, w, i, k)
    requires P.PassQuota(w.pool.pass, w.pool.log[w.pool.snap]) == max
    ensures AllBounded(w') && Gets(m, c, max, w') && GrantedTo(c, w', max, k)
    ensures P.PassDone(w'.pool.pass, w'.pool.log[w'.pool.snap])
    decreases max - i
  {
    if i == max {
      w' := w;
    } else {
      var next := GrantOne(m, c, max, w, i);
      GrantedNext(c, w, next, i, k);
      w' := GrantMany(m, c, max, next, i + 1, k);
    }
  }

  lemma GrantedNext(c: P.Config, w: World, w': World, i: nat, k: nat)
    requires i < k && GrantedTo(c, w, i, k) && w'.cells.Keys == w.cells.Keys
    requires Waits(c, w'.cells[Name(i)], i) && Granted(L.Current(w'.cells[Name(i)]))
    requires forall n | n in w.cells && n != Name(i) :: w'.cells[n] == w.cells[n]
    requires w'.pool.pass.Granting? && w'.pool.pass == w.pool.pass.(next := i + 1, failed := w'.pool.pass.failed)
    ensures GrantedTo(c, w', i + 1, k)
  {
    forall j | 0 <= j < k
      ensures Name(j) in w'.cells && Waits(c, w'.cells[Name(j)], j)
      ensures j < i + 1 ==> Granted(L.Current(w'.cells[Name(j)]))
      ensures j >= i + 1 ==> L.Current(w'.cells[Name(j)]) == w'.pool.pass.queue[j]
    {
      if j != i {
        assert Name(j) != Name(i) && w'.cells[Name(j)] == w.cells[Name(j)];
      }
    }
  }

  // ----- the runs that break the bound

  ghost predicate AllGranted(cells: map<string, L.Cell>, k: nat) {
    forall i | 0 <= i < k :: Name(i) in cells && L.Bounded(cells[Name(i)]) && Granted(L.Current(cells[Name(i)]))
  }

  /** The first pass grants to all but the last of the tied tasks. */
  lemma PassOne(m: L.Mode, c: P.Config, max: nat, w: World) returns (w': World)
    requires !c.distinct && AllBounded(w) && Gets(m, c, max, w)
    requires w.pool.pass == P.Idle && Peopled(c, w.cells, max + 1)
    ensures AllBounded(w') && Gets(m, c, max, w') && Peopled(c, w'.cells, max + 1)
    ensures w'.pool.pass == P.Idle && AllGranted(w'.cells, max)
  {
    w' := BeginPass(m, c, max, w, max + 1, false);
    w' := GrantMany(m, c, max, w', 0, max + 1);
    w' := PoolMoves(m, c, max, w', P.Finish(Answered));
  }

  /** The sort compares stamps only, so the second pass may find the last of them first. */
  lemma PassTwo(m: L.Mode, c: P.Config, max: nat, w: World) returns (w': World)
    requires max >= 1 && !c.distinct && AllBounded(w) && Gets(m, c, max, w)
    requires w.pool.pass == P.Idle && Peopled(c, w.cells, max + 1)
    requires AllGranted(w.cells, max)
    ensures AllBounded(w') && Gets(m, c, max, w') && Peopled(c, w'.cells, max + 1)
    ensures AllGranted(w'.cells, max + 1)
  {
    var again := BeginPass(m, c, max, w, max + 1, true);
    assert Place(max + 1, true, 0) == max;
    w' := GrantOne(m, c, max, again, max);
    LastGranted(c, again.cells, w'.cells, max);
  }

  lemma LastGranted(c: P.Config, cells: map<string, L.Cell>, cells': map<string, L.Cell>, k: nat)
    requires Peopled(c, cells, k + 1) && AllGranted(cells, k) && cells'.Keys == cells.Keys
    requires Waits(c, cells'[Name(k)], k) && Granted(L.Current(cells'[Name(k)]))
    requires forall n | n in cells && n != Name(k) :: cells'[n] == cells[n]
    ensures Peopled(c, cells', k + 1) && AllGranted(cells', k + 1)
  {
    forall j | 0 <= j < k + 1
      ensures Name(j) in cells' && Waits(c, cells'[Name(j)], j) && Granted(L.Current(cells'[Name(j)]))
    {
      if j != k {
        assert Name(j) != Name(k) && cells'[Name(j)] == cells[Name(j)];
      }
    }
  }

  lemma GrantedMayStart(c: P.Config, cells: map<string, L.Cell>, k: nat)
    requires Peopled(c, cells, k) && AllGranted(cells, k)
    ensures RestMayStart(c, cells, 0, k)
  {
  }

  lemma TiedGrants(m: L.Mode, c: P.Config, max: nat) returns (w: World)
    requires max >= 1 && !c.distinct
    ensures AllBounded(w) && Gets(m, c, max, w)
    ensures w.cells.Keys == Names(max + 1) && RestMayStart(c, w.cells, 0, max + 1)
  {
    var start := Populate(m, c, max, max + 1);
    var one := PassOne(m, c, max, start);
    w := PassTwo(m, c, max, one);
    GrantedMayStart(c, w.cells, max + 1);
  }

  /** With ties, two passes under the limit `max` grant to `max + 1` tasks, and all of them start. */
  lemma TiedRun(m: L.Mode, c: P.Config, max: nat) returns (w: World)
    requires max >= 1 && !c.distinct
    ensures Gets(m, c, max, w) && |ActiveTasks(w)| == max + 1
  {
    var granted := TiedGrants(m, c, max);
    w := StartAll(m, c, max, granted, 0, max + 1);
    CountActive(w, max + 1);
  }

  /** Without the gate nothing holds the tasks back: the next pass lists `max + 1` active ones. */
  lemma UngatedRun(m: L.Mode, c: P.Config, max: nat) returns (w: World)
    requires !c.gated
    ensures AllBounded(w) && Gets(m, c, max, w) && |ActiveTasks(w)| == max + 1
    ensures w.pool.pass == P.Listed(max) && |ActiveIn(w.pool.log[w.pool.snap])| == max + 1
  {
    var ready := Populate(m, c, max, max + 1);
    var started := StartAll(m, c, max, ready, 0, max + 1);
    w := ListAll(m, c, max, started);
    CountActive(w, max + 1);
    GetsInv(m, c, max, started);
    ListedActive(P.Current(started.pool), started);
  }

  lemma ListedActive(v: View, w: World)
    requires Agrees(v, w.cells)
    ensures ActiveIn(v) == ActiveTasks(w)
  {
    forall n | n in v
      ensures IsActiveIn(v, n) <==> IsActiveTask(w.cells[n])
    {
      assert Stands(v, n, w.cells[n]);
    }
  }

  // ----- the exact condition

  lemma {:induction false} HighFixed(m: L.Mode, c: P.Config, w: World, acts: seq<Action>, max: int)
    requires AllBounded(w) && Valid(m, c, w, acts) && FixedLimit(acts, max) && w.pool.high <= max
    ensures After(m, c, w, acts).pool.high <= max
    decreases |acts|
  {
    if acts != [] {
      assert KeepsLimit(acts[0], max);
      HighFixed(m, c, Apply(m, c, w, acts[0]), acts[1..], max);
    }
  }

  lemma BoundHolds(m: L.Mode, c: P.Config, max: nat, w: World)
    requires c.gated && c.distinct && Gets(m, c, max, w)
    ensures |ActiveTasks(w)| <= max
  {
    var acts :| Valid(m, c, INITIAL, acts) && FixedLimit(acts, max) && After(m, c, INITIAL, acts) == w;
    ActiveWithinLimit(m, c, acts);
    HighFixed(m, c, INITIAL, acts, max);
  }

  /** Whatever the limit, the number of active tasks stays within it in every run of the operator if and only
      if every listed task waits at the gate and no two tasks share a creation stamp. */
  lemma BoundExactly(m: L.Mode, c: P.Config, max: nat)
    requires max >= 1
    ensures (forall w: World | Gets(m, c, max, w) :: |ActiveTasks(w)| <= max) <==> c.gated && c.distinct
  {
    if c.gated && c.distinct {
      forall w: World | Gets(m, c, max, w)
        ensures |ActiveTasks(w)| <= max
      {
        BoundHolds(m, c, max, w);
      }
    } else {
      var w;
      if c.gated {
        w := TiedRun(m, c, max);
      } else {
        w := UngatedRun(m, c, max);
      }
    }
  }

  // ----- wakeups

  /** A listed task that names no pool can wait with nobody to wake the pool. */
  lemma AsleepRun(c: P.Config) returns (acts: seq<P.Action>)
    requires !c.gated
    ensures PS.IsRun(c, acts) && !PT.IsAwake(PS.Reached(c, acts))
  {
    var t := Newcomer(c, 0);
    var s := P.INITIAL;
    acts := [];
    PT.ValidSnoc(c, P.INITIAL, acts, P.List(1));
    acts, s := acts + [P.List(1)], P.Apply(c, s, P.List(1));
    assert ActiveIn(map[]) == {} && QueuedIn(map[]) == {};
    PT.ValidSnoc(c, P.INITIAL, acts, P.Finish(Answered));
    acts, s := acts + [P.Finish(Answered)], P.Apply(c, s, P.Finish(Answered));
    PT.ValidSnoc(c, P.INITIAL, acts, P.Create(t));
    acts, s := acts + [P.Create(t)], P.Apply(c, s, P.Create(t));
    assert s.log == [map[], map[t.name := Entry(t, true)]];
    PT.ValidSnoc(c, P.INITIAL, acts, P.Deliver(1));
    acts, s := acts + [P.Deliver(1)], P.Apply(c, s, P.Deliver(1));
    assert t.name in QueuedIn(s.log[1]);
  }

  /** The pool never sleeps on waiting tasks, in any run, if and only if every listed task names it. */
  lemma AwakeExactly(c: P.Config)
    ensures (forall acts: seq<P.Action> | PS.IsRun(c, acts) :: PT.IsAwake(PS.Reached(c, acts))) <==> c.gated
  {
    if c.gated {
      forall acts: seq<P.Action> | PS.IsRun(c, acts)
        ensures PT.IsAwake(PS.Reached(c, acts))
      {
        PT.PoolStaysAwake(c, acts);
      }
    } else {
      var acts := AsleepRun(c);
    }
  }
}
