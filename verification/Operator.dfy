/** The whole operator: the pool controller and every task's reconciles, acting on one store. */
module Operator {
  import opened AgentTypes
  import opened PoolView
  import P = PoolSystem
  import PS = PoolSafety
  import L = Lifecycle
  import LH = LifecycleHistory
  import LL = LifecycleLedger
  import LT = LifecycleTheorems

  datatype World = World(cells: map<string, L.Cell>, pool: P.State)

  datatype Action =
    | OnTask(name: string, act: L.Action)
    | NewTask(task: Task, clock: Time)
    | OnPool(move: P.Action)

  const INITIAL := World(map[], P.INITIAL)

  function EntryOf(c: L.Cell): Entry
    requires L.Bounded(c)
  {
    Entry(L.Current(c), c.live)
  }

  ghost predicate AllBounded(w: World) {
    P.Bounded(w.pool) && forall n {:trigger L.Bounded(w.cells[n])} | n in w.cells :: L.Bounded(w.cells[n])
  }

  /** The pool lists the tasks as they are stored, and each of them is sound. */
  ghost predicate Agrees(v: View, cells: map<string, L.Cell>) {
    && v.Keys == cells.Keys
    && forall n {:trigger Stands(v, n, cells[n])} | n in cells :: Stands(v, n, cells[n])
  }

  ghost predicate Stands(v: View, n: string, c: L.Cell) {
    LT.Inv(c) && n in v && v[n] == EntryOf(c)
  }

  ghost predicate Inv(c: P.Config, w: World) {
    AllBounded(w) && Agrees(P.Current(w.pool), w.cells) && PS.Core(c, w.pool)
  }

  /** The pool's grants reach a task through the store. */
  ghost function TargetAfter(w: World, reply: Reply): (cells: map<string, L.Cell>)
    requires AllBounded(w) && w.pool.pass.Granting? && w.pool.pass.next < |w.pool.pass.queue|
  {
    var t := w.pool.pass.queue[w.pool.pass.next];
    if t.name in w.cells && L.Bounded(w.cells[t.name])
    then w.cells[t.name := L.SlotGranted(w.cells[t.name], t, reply)] else w.cells
  }

  ghost predicate Enabled(m: L.Mode, c: P.Config, w: World, a: Action)
    requires AllBounded(w)
  {
    match a
    case OnTask(n, act) =>
      n in w.cells && !act.GrantSlot? && L.Bounded(w.cells[n]) && L.Enabled(m, w.cells[n], act)
    case NewTask(t, _) => L.Fresh(t) && t.name !in w.cells && P.CanCreate(c, P.Current(w.pool), t)
    case OnPool(move) => !move.Change? && !move.Create? && P.Enabled(c, w.pool, move)
  }

  /** The world after one cell has changed. */
  ghost function WithCell(w: World, n: string, c: L.Cell): World
    requires AllBounded(w) && L.Bounded(c)
  {
    World(w.cells[n := c], P.Push(w.pool, P.Current(w.pool)[n := EntryOf(c)]))
  }

  ghost function Apply(m: L.Mode, c: P.Config, w: World, a: Action): (w': World)
    requires AllBounded(w) && Enabled(m, c, w, a)
    ensures AllBounded(w')
  {
    match a
    case OnTask(n, act) => WithCell(w, n, L.Apply(m, w.cells[n], act))
    case NewTask(t, clock) => WithCell(w, t.name, L.NewCell(t, clock))
    case OnPool(move) =>
      World(if move.Grant? then TargetAfter(w, move.reply) else w.cells, P.Apply(c, w.pool, move))
  }

  ghost predicate Valid(m: L.Mode, c: P.Config, w: World, acts: seq<Action>)
    requires AllBounded(w)
    decreases |acts|
  {
    acts == [] || (Enabled(m, c, w, acts[0]) && Valid(m, c, Apply(m, c, w, acts[0]), acts[1..]))
  }

  ghost function After(m: L.Mode, c: P.Config, w: World, acts: seq<Action>): (w': World)
    requires AllBounded(w) && Valid(m, c, w, acts)
    ensures AllBounded(w')
    decreases |acts|
  {
    if acts == [] then w else After(m, c, Apply(m, c, w, acts[0]), acts[1..])
  }

  // ----- a reconcile of a task, as the pool sees it

  /** A step that leaves the stored task alone. */
  lemma NoWrite(c: L.Cell)
    requires LH.StoreOk(c)
    ensures WritesOver(L.Current(c), L.Current(c))
  {
  }

  /** What the pool may see of a step of a task. */
  ghost predicate SeenAsWrite(c: L.Cell, c': L.Cell)
    requires L.Bounded(c) && L.Bounded(c')
  {
    && WritesOver(L.Current(c), L.Current(c'))
    && (!c.live ==> EntryOf(c') == EntryOf(c))
    && (c'.live ==> c.live)
  }

  lemma FinalizerAddedIsWrite(c: L.Cell, reply: Reply)
    requires LH.StoreOk(c) && c.rec.Read?
    ensures SeenAsWrite(c, L.FinalizerAdded(c, reply))
  {
  }

  lemma WrittenIsWrite(c: L.Cell, reply: Reply)
    requires LH.StoreOk(c) && c.rec.Persisting?
    ensures SeenAsWrite(c, L.Written(c, reply))
  {
  }

  lemma ReleasedIsWrite(c: L.Cell, reply: Reply)
    requires LH.StoreOk(c) && c.rec.Releasing?
    ensures SeenAsWrite(c, L.Released(c, reply))
  {
  }

  /** Whatever a reconcile or an author does to a task, the pool sees an ordinary write, and nothing
      once the task is gone. */
  lemma StepIsWrite(m: L.Mode, c: L.Cell, a: L.Action)
    requires LH.StoreOk(c) && L.Enabled(m, c, a) && !a.GrantSlot?
    ensures SeenAsWrite(c, L.Apply(m, c, a))
  {
    NoWrite(c);
    match a
    case AddFinalizer(reply) => FinalizerAddedIsWrite(c, reply);
    case Write(reply) => WrittenIsWrite(c, reply);
    case Release(reply) => ReleasedIsWrite(c, reply);
    case Edit(spec) => EditIsWrite(c, spec);
    case MarkDeleted => MarkIsWrite(c);
    case _ =>
  }

  lemma EditIsWrite(c: L.Cell, spec: TaskSpec)
    requires LH.StoreOk(c) && c.live
    requires spec.git == L.Current(c).spec.git && spec.timeout == L.Current(c).spec.timeout
    requires spec.poolRef == L.Current(c).spec.poolRef
    ensures SeenAsWrite(c, L.Push(c, L.Current(c).(spec := spec)))
  {
  }

  lemma MarkIsWrite(c: L.Cell)
    requires LH.StoreOk(c) && c.live
    ensures SeenAsWrite(c, L.DeletionMarked(c))
  {
  }

  // ----- steps of the whole

  lemma AgreesUpdate(v: View, cells: map<string, L.Cell>, n: string, cell: L.Cell)
    requires Agrees(v, cells) && LT.Inv(cell)
    ensures Agrees(v[n := EntryOf(cell)], cells[n := cell])
  {
    var v', cells' := v[n := EntryOf(cell)], cells[n := cell];
    forall k | k in cells'
      ensures Stands(v', k, cells'[k])
    {
      if k != n {
        assert Stands(v, k, cells[k]);
      }
    }
  }

  lemma AgreesBounded(v: View, cells: map<string, L.Cell>, pool: P.State)
    requires Agrees(v, cells) && P.Bounded(pool)
    ensures AllBounded(World(cells, pool))
  {
    forall n | n in cells
      ensures L.Bounded(cells[n])
    {
      assert Stands(v, n, cells[n]);
    }
  }

  /** The pool's view after one cell has changed. */
  lemma CellReplaced(c: P.Config, w: World, n: string, cell: L.Cell)
    requires Inv(c, w) && LT.Inv(cell)
    requires PS.Core(c, P.Push(w.pool, P.Current(w.pool)[n := EntryOf(cell)]))
    ensures Inv(c, WithCell(w, n, cell))
  {
    var v := P.Current(w.pool)[n := EntryOf(cell)];
    AgreesUpdate(P.Current(w.pool), w.cells, n, cell);
    AgreesBounded(v, w.cells[n := cell], P.Push(w.pool, v));
  }

  lemma TaskStep(m: L.Mode, c: P.Config, w: World, n: string, act: L.Action)
    requires Inv(c, w) && Enabled(m, c, w, OnTask(n, act))
    ensures Inv(c, WithCell(w, n, L.Apply(m, w.cells[n], act)))
  {
    var cell, v := w.cells[n], P.Current(w.pool);
    var cell' := L.Apply(m, cell, act);
    assert Stands(v, n, cell);
    LT.StepKeepsInv(m, cell, act);
    StepIsWrite(m, cell, act);
    if cell.live {
      PS.ChangeKeepsCore(c, w.pool, n, EntryOf(cell'));
    } else {
      assert v[n := EntryOf(cell')] == v;
    }
    CellReplaced(c, w, n, cell');
  }

  lemma NewCellStep(c: P.Config, w: World, t: Task, cell: L.Cell)
    requires Inv(c, w) && P.CanCreate(c, P.Current(w.pool), t)
    requires LT.Inv(cell) && L.Current(cell) == t && cell.live
    ensures Inv(c, WithCell(w, t.name, cell))
  {
    NewcomerSeen(c, w.pool, t, cell);
    CellReplaced(c, w, t.name, cell);
  }

  lemma NewcomerSeen(c: P.Config, pool: P.State, t: Task, cell: L.Cell)
    requires PS.Core(c, pool) && P.CanCreate(c, P.Current(pool), t)
    requires L.Bounded(cell) && L.Current(cell) == t && cell.live
    ensures PS.Core(c, P.Push(pool, P.Current(pool)[t.name := EntryOf(cell)]))
  {
    PS.CreateKeepsCore(c, pool, t);
  }

  /** A grant does to the task what the pool believes it does. */
  lemma GrantOnCell(m: L.Mode, cell: L.Cell, v: View, t: Task, reply: Reply)
    requires LT.Inv(cell) && t.name in v && v[t.name] == EntryOf(cell)
    requires reply != Dropped && P.StillCurrent(v, t) && v[t.name].task == t
    ensures LT.Inv(L.SlotGranted(cell, t, reply))
    ensures P.AfterGrant(v, t) == v[t.name := EntryOf(L.SlotGranted(cell, t, reply))]
  {
    LH.CurrentOk(cell);
    assert t in cell.hist;
    LT.StepKeepsInv(m, cell, L.GrantSlot(t, reply));
    var cell' := L.SlotGranted(cell, t, reply);
    if !Granted(t) {
      assert L.Current(cell') == WithSlot(t).(version := t.version + 1);
    }
  }

  /** A refused grant changes nothing on either side. */
  lemma RefusedOnCell(cell: L.Cell, v: View, t: Task, reply: Reply)
    requires LT.Inv(cell) && t.name in v && v[t.name] == EntryOf(cell)
    requires reply == Dropped || !P.StillCurrent(v, t)
    ensures L.SlotGranted(cell, t, reply) == cell
  {
  }

  lemma GrantLanded(m: L.Mode, c: P.Config, w: World, reply: Reply)
    requires Inv(c, w) && w.pool.pass.Granting?
    requires w.pool.pass.next < P.PassQuota(w.pool.pass, w.pool.log[w.pool.snap])
    requires P.GrantLands(w.pool, reply)
    ensures Agrees(P.AfterGrant(P.Current(w.pool), w.pool.pass.queue[w.pool.pass.next]), TargetAfter(w, reply))
  {
    var t, v := w.pool.pass.queue[w.pool.pass.next], P.Current(w.pool);
    var cell := w.cells[t.name];
    assert Stands(v, t.name, cell);
    PS.GrantTarget(c, w.pool);
    GrantOnCell(m, cell, v, t, reply);
    AgreesUpdate(v, w.cells, t.name, L.SlotGranted(cell, t, reply));
  }

  lemma GrantRefused(w: World, reply: Reply)
    requires AllBounded(w) && Agrees(P.Current(w.pool), w.cells)
    requires w.pool.pass.Granting? && w.pool.pass.next < |w.pool.pass.queue|
    requires !P.GrantLands(w.pool, reply)
    ensures TargetAfter(w, reply) == w.cells
  {
    var t, v := w.pool.pass.queue[w.pool.pass.next], P.Current(w.pool);
    if t.name in w.cells {
      assert Stands(v, t.name, w.cells[t.name]);
      RefusedOnCell(w.cells[t.name], v, t, reply);
    }
  }

  lemma GrantAgrees(m: L.Mode, c: P.Config, w: World, reply: Reply)
    requires Inv(c, w) && w.pool.pass.Granting?
    requires w.pool.pass.next < P.PassQuota(w.pool.pass, w.pool.log[w.pool.snap])
    ensures Agrees(P.Current(P.GrantTried(w.pool, reply)), TargetAfter(w, reply))
  {
    PS.CurrentAfterGrant(w.pool, reply);
    if P.GrantLands(w.pool, reply) {
      GrantLanded(m, c, w, reply);
    } else {
      GrantRefused(w, reply);
    }
  }

  lemma Joined(c: P.Config, cells: map<string, L.Cell>, pool: P.State)
    requires PS.Core(c, pool) && Agrees(P.Current(pool), cells)
    ensures Inv(c, World(cells, pool))
  {
    AgreesBounded(P.Current(pool), cells, pool);
  }

  lemma GrantStep(m: L.Mode, c: P.Config, w: World, reply: Reply)
    requires Inv(c, w) && w.pool.pass.Granting?
    requires w.pool.pass.next < P.PassQuota(w.pool.pass, w.pool.log[w.pool.snap])
    ensures Inv(c, World(TargetAfter(w, reply), P.GrantTried(w.pool, reply)))
  {
    PS.GrantKeepsCore(c, w.pool, reply);
    GrantAgrees(m, c, w, reply);
    Joined(c, TargetAfter(w, reply), P.GrantTried(w.pool, reply));
  }

  /** The pool's other steps leave the tasks alone. */
  lemma PoolStep(c: P.Config, w: World, move: P.Action)
    requires Inv(c, w)
    requires P.Enabled(c, w.pool, move) && !move.Change? && !move.Create? && !move.Grant?
    ensures Inv(c, World(w.cells, P.Apply(c, w.pool, move)))
  {
    PS.StepKeepsCore(c, w.pool, move);
    assert P.Apply(c, w.pool, move).log == w.pool.log;
    AgreesBounded(P.Current(w.pool), w.cells, P.Apply(c, w.pool, move));
  }

  lemma StepKeepsInv(m: L.Mode, c: P.Config, w: World, a: Action)
    requires Inv(c, w) && Enabled(m, c, w, a)
    ensures Inv(c, Apply(m, c, w, a))
  {
    match a
    case OnTask(n, act) => TaskStep(m, c, w, n, act);
    case NewTask(t, clock) =>
      var cell := L.NewCell(t, clock);
      LT.NewCellInv(t, clock);
      NewCellStep(c, w, t, cell);
    case OnPool(move) =>
      if move.Grant? {
        GrantStep(m, c, w, move.reply);
      } else {
        PoolStep(c, w, move);
      }
  }

  lemma InitialInv(c: P.Config)
    ensures Inv(c, INITIAL)
  {
  }

  lemma {:induction false} RunKeepsInv(m: L.Mode, c: P.Config, w: World, acts: seq<Action>)
    requires Inv(c, w) && Valid(m, c, w, acts)
    ensures Inv(c, After(m, c, w, acts))
    decreases |acts|
  {
    if acts != [] {
      StepKeepsInv(m, c, w, acts[0]);
      RunKeepsInv(m, c, Apply(m, c, w, acts[0]), acts[1..]);
    }
  }

  // ----- each part sees a run of its own

  /** What one step of the operator is for the pool: one of its own moves, a write to a task or a new
      task, or nothing. */
  lemma PoolSeesStep(m: L.Mode, c: P.Config, w: World, a: Action) returns (moves: seq<P.Action>)
    requires Inv(c, w) && Enabled(m, c, w, a)
    ensures |moves| <= 1
    ensures moves == [] ==> Apply(m, c, w, a).pool == w.pool
    ensures moves != [] ==> P.Enabled(c, w.pool, moves[0])
                            && Apply(m, c, w, a).pool == P.Apply(c, w.pool, moves[0])
  {
    match a
    case OnTask(n, act) =>
      assert Stands(P.Current(w.pool), n, w.cells[n]);
      StepIsWrite(m, w.cells[n], act);
      var e := EntryOf(L.Apply(m, w.cells[n], act));
      if w.cells[n].live {
        moves := [P.Change(n, e)];
      } else {
        assert P.Current(w.pool)[n := e] == P.Current(w.pool);
        moves := [];
      }
    case NewTask(t, clock) => moves := [P.Create(t)];
    case OnPool(move) => moves := [move];
  }

  /** Every run of the operator is, for the pool, a run of the pool system: whatever holds of those runs
      holds of the pool here. */
  lemma {:induction false} PoolSeesRun(m: L.Mode, c: P.Config, w: World, acts: seq<Action>)
    returns (moves: seq<P.Action>)
    requires Inv(c, w) && Valid(m, c, w, acts)
    ensures P.Valid(c, w.pool, moves) && P.After(c, w.pool, moves) == After(m, c, w, acts).pool
    decreases |acts|
  {
    if acts == [] {
      moves := [];
    } else {
      var first := PoolSeesStep(m, c, w, acts[0]);
      StepKeepsInv(m, c, w, acts[0]);
      var rest := PoolSeesRun(m, c, Apply(m, c, w, acts[0]), acts[1..]);
      moves := first + rest;
      if first != [] {
        assert moves[0] == first[0] && moves[1..] == rest;
      } else {
        assert moves == rest;
      }
    }
  }

  /** What one step of the operator is for a task: one of its own actions, or nothing. */
  lemma TaskSeesStep(m: L.Mode, c: P.Config, w: World, a: Action, n: string)
    requires Inv(c, w) && Enabled(m, c, w, a) && n in w.cells
    requires LT.Reachable(m, w.cells[n])
    ensures n in Apply(m, c, w, a).cells && LT.Reachable(m, Apply(m, c, w, a).cells[n])
  {
    match a
    case OnTask(k, act) =>
      if k == n {
        LT.ReachableStep(m, w.cells[n], act);
      }
    case NewTask(_, _) =>
    case OnPool(move) =>
      if move.Grant? {
        TaskSeesGrant(m, c, w, move.reply, n);
      }
  }

  lemma TaskSeesGrant(m: L.Mode, c: P.Config, w: World, reply: Reply, n: string)
    requires Inv(c, w) && n in w.cells && LT.Reachable(m, w.cells[n])
    requires w.pool.pass.Granting? && w.pool.pass.next < P.PassQuota(w.pool.pass, w.pool.log[w.pool.snap])
    ensures n in TargetAfter(w, reply) && LT.Reachable(m, TargetAfter(w, reply)[n])
  {
    if !P.GrantLands(w.pool, reply) {
      GrantRefused(w, reply);
    } else if w.pool.pass.queue[w.pool.pass.next].name == n {
      GrantHitsCurrent(c, w, reply);
      CellSeesGrant(m, w.cells[n], w.pool.pass.queue[w.pool.pass.next], reply);
    }
  }

  /** A grant that is accepted was made out for the task as it stands. */
  lemma GrantHitsCurrent(c: P.Config, w: World, reply: Reply)
    requires Inv(c, w) && w.pool.pass.Granting?
    requires w.pool.pass.next < P.PassQuota(w.pool.pass, w.pool.log[w.pool.snap])
    requires P.GrantLands(w.pool, reply)
    ensures var t := w.pool.pass.queue[w.pool.pass.next];
            t.name in w.cells && L.Bounded(w.cells[t.name]) && L.Current(w.cells[t.name]) == t
  {
    PS.GrantTarget(c, w.pool);
    var t := w.pool.pass.queue[w.pool.pass.next];
    assert Stands(P.Current(w.pool), t.name, w.cells[t.name]);
  }

  lemma CellSeesGrant(m: L.Mode, cell: L.Cell, t: Task, reply: Reply)
    requires L.Bounded(cell) && L.Current(cell) == t && LT.Reachable(m, cell)
    ensures LT.Reachable(m, L.SlotGranted(cell, t, reply))
  {
    assert t in cell.hist;
    LT.ReachableStep(m, cell, L.GrantSlot(t, reply));
  }

  ghost predicate AllReachable(m: L.Mode, cells: map<string, L.Cell>) {
    forall n {:trigger cells[n]} | n in cells :: LT.Reachable(m, cells[n])
  }

  lemma StepKeepsReachable(m: L.Mode, c: P.Config, w: World, a: Action)
    requires Inv(c, w) && Enabled(m, c, w, a) && AllReachable(m, w.cells)
    ensures AllReachable(m, Apply(m, c, w, a).cells)
  {
    var cells := Apply(m, c, w, a).cells;
    forall n | n in cells
      ensures LT.Reachable(m, cells[n])
    {
      if n in w.cells {
        TaskSeesStep(m, c, w, a, n);
      } else {
        LT.NewCellReachable(m, a.task, a.clock);
      }
    }
  }

  lemma {:induction false} RunKeepsReachable(m: L.Mode, c: P.Config, w: World, acts: seq<Action>)
    requires Inv(c, w) && Valid(m, c, w, acts) && AllReachable(m, w.cells)
    ensures AllReachable(m, After(m, c, w, acts).cells)
    decreases |acts|
  {
    if acts != [] {
      StepKeepsInv(m, c, w, acts[0]);
      StepKeepsReachable(m, c, w, acts[0]);
      RunKeepsReachable(m, c, Apply(m, c, w, acts[0]), acts[1..]);
    }
  }

  /** Every run of the operator is, for each task, a run of its lifecycle: whatever holds of those runs
      holds of the tasks here, the pool's grants included. */
  lemma TasksSeeRuns(m: L.Mode, c: P.Config, acts: seq<Action>, n: string)
    requires Valid(m, c, INITIAL, acts)
    requires n in After(m, c, INITIAL, acts).cells
    ensures LT.Reachable(m, After(m, c, INITIAL, acts).cells[n])
  {
    InitialInv(c);
    RunKeepsReachable(m, c, INITIAL, acts);
  }

  // ----- what the operator guarantees

  ghost predicate IsActiveTask(c: L.Cell) {
    L.Bounded(c) && c.live && IsActive(L.Current(c).status.phase)
  }

  /** The tasks of a world that have started and are not finished. */
  ghost function ActiveTasks(w: World): set<string> {
    set n | n in w.cells && IsActiveTask(w.cells[n])
  }

  lemma ActiveTasksAreBusy(v: View, w: World)
    requires Agrees(v, w.cells)
    ensures ActiveTasks(w) <= Busy(v)
  {
    forall n | n in ActiveTasks(w)
      ensures n in Busy(v)
    {
      assert Stands(v, n, w.cells[n]);
    }
  }

  /** In every run of the whole operator, the number of active tasks is within the largest limit its
      pool has read. */
  lemma ActiveWithinLimit(m: L.Mode, c: P.Config, acts: seq<Action>)
    requires c.gated && c.distinct && Valid(m, c, INITIAL, acts)
    ensures |ActiveTasks(After(m, c, INITIAL, acts))| <= After(m, c, INITIAL, acts).pool.high
  {
    InitialInv(c);
    RunKeepsInv(m, c, INITIAL, acts);
    var moves := PoolSeesRun(m, c, INITIAL, acts);
    PS.ConcurrencyBound(c, moves);
    var w := After(m, c, INITIAL, acts);
    ActiveTasksAreBusy(P.Current(w.pool), w);
    SubsetSize(ActiveTasks(w), Busy(P.Current(w.pool)));
  }

  ghost function TotalWrites(cells: map<string, L.Cell>, names: set<string>): nat
    requires names <= cells.Keys
    decreases |names|
  {
    if names == {} then 0
    else
      var n :| n in names;
      cells[n].ledger.writes + TotalWrites(cells, names - {n})
  }

  lemma {:induction false} WritesAddUp(cells: map<string, L.Cell>, names: set<string>)
    requires names <= cells.Keys
    requires forall n | n in names :: cells[n].ledger.writes <= 4
    ensures TotalWrites(cells, names) <= 4 * |names|
    decreases |names|
  {
    if names != {} {
      var n :| n in names && TotalWrites(cells, names)
                             == cells[n].ledger.writes + TotalWrites(cells, names - {n});
      WritesAddUp(cells, names - {n});
    }
  }

  /** All tasks together see at most four status writes each. */
  lemma StatusWritesBounded(m: L.Mode, c: P.Config, acts: seq<Action>)
    requires Valid(m, c, INITIAL, acts)
    ensures var w := After(m, c, INITIAL, acts); TotalWrites(w.cells, w.cells.Keys) <= 4 * |w.cells.Keys|
  {
    InitialInv(c);
    RunKeepsInv(m, c, INITIAL, acts);
    var w := After(m, c, INITIAL, acts);
    forall n | n in w.cells.Keys
      ensures w.cells[n].ledger.writes <= 4
    {
      assert Stands(P.Current(w.pool), n, w.cells[n]);
      LL.FewWrites(w.cells[n]);
    }
    WritesAddUp(w.cells, w.cells.Keys);
  }
}
