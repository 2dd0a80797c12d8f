/** The pool controller beside everyone else who writes tasks: a state machine over the history of
    the tasks the pool lists. */
module PoolSystem {
  import opened AgentTypes
  import opened PoolView

  /** `gated`: every listed task names the pool. `distinct`: creation stamps never tie. */
  datatype Setup = Setup(pool: string, gated: bool, distinct: bool)
  type Config = c: Setup | c.pool != "" witness Setup("pool", true, true)

  /** A run of the pool controller. `queue` is the sorted list of queued tasks as they were read,
      `next` the index of the grant loop, `failed` the tasks whose grant was refused so far. */
  datatype Pass =
    | Idle
    | Listed(limit: int)
    | Granting(limit: int, queue: seq<Task>, next: nat, failed: set<string>)

  /** `log` holds every state the tasks have been in; `cache` is the one the controller's cache
      shows, `snap` the one it last listed, `high` the largest limit it ever read. `wake` says that
      the controller will run again. */
  datatype State = State(log: seq<View>, cache: nat, snap: nat, high: int, pass: Pass, wake: bool)

  datatype Action =
    | Change(name: string, entry: Entry)
    | Create(task: Task)
    | Deliver(to: nat)
    | Poke
    | List(limit: int)
    | Order(queue: seq<Task>)
    | Grant(reply: Reply)
    | Finish(reply: Reply)
    | Crash

  const INITIAL := State([map[]], 0, 0, 0, Idle, true)

  predicate Bounded(s: State) {
    |s.log| > 0 && s.snap <= s.cache < |s.log|
  }

  function Current(s: State): View
    requires |s.log| > 0
  {
    s.log[|s.log| - 1]
  }

  /** How many slots a pass hands out. */
  function Quota(limit: int, active: nat, queued: nat): (quota: nat)
    ensures quota <= queued
    ensures quota > 0 ==> active + quota <= limit
    ensures quota < queued ==> active + quota >= limit
  {
    var slots := limit - active;
    if slots <= 0 then 0 else if slots > queued then queued else slots
  }

  /** The queued tasks of `v`, each once, oldest first; ties come in any order. */
  ghost predicate IsQueueOf(v: View, queue: seq<Task>) {
    && (forall i {:trigger queue[i]} | 0 <= i < |queue| :: WasRead(v, queue[i]))
    && NoRepeats(queue)
    && Sorted(queue)
    && |queue| == |QueuedIn(v)|
  }

  /** `t` is queued in `v`, exactly as it stands there. */
  ghost predicate WasRead(v: View, t: Task) {
    IsQueuedIn(v, t.name) && v[t.name].task == t
  }

  ghost predicate NoRepeats(queue: seq<Task>) {
    forall i, j {:trigger queue[i], queue[j]} | 0 <= i < j < |queue| :: queue[i].name != queue[j].name
  }

  ghost predicate Sorted(queue: seq<Task>) {
    forall i, j {:trigger queue[i], queue[j]} | 0 <= i < j < |queue| :: queue[i].created <= queue[j].created
  }

  predicate StillCurrent(v: View, t: Task) {
    t.name in v && v[t.name].live && v[t.name].task.version == t.version
  }

  /** The pools an event on a task wakes. */
  function MapTaskToPool(t: Task): (pools: seq<string>)
    ensures forall p :: p in pools <==> p == t.spec.poolRef && p != ""
  {
    if t.spec.poolRef == "" then [] else [t.spec.poolRef]
  }

  predicate Notifies(v: View, w: View, pool: string) {
    exists n | n in w :: (n !in v || v[n] != w[n]) && pool in MapTaskToPool(w[n].task)
  }

  // ----- what each action needs and does

  ghost predicate CanChange(v: View, n: string, e: Entry) {
    n in v && v[n].live && WritesOver(v[n].task, e.task)
  }

  /** A new task arrives without a phase and without a slot, under a name never used before. */
  ghost predicate CanCreate(c: Config, v: View, t: Task) {
    && t.name !in v && t.status == FRESH_STATUS && !Granted(t)
    && (c.gated ==> t.spec.poolRef == c.pool)
    && (forall m | m in v :: v[m].task.created <= t.created)
    && (c.distinct ==> forall m | m in v :: v[m].task.created < t.created)
  }

  /** The slots this pass hands out, once its queue is known. */
  function PassQuota(pass: Pass, snapshot: View): nat
    requires pass.Granting?
  {
    Quota(pass.limit, |ActiveIn(snapshot)|, |pass.queue|)
  }

  /** A pass is over when it has nothing left to grant. */
  predicate PassDone(pass: Pass, snapshot: View) {
    match pass
    case Idle => false
    case Listed(limit) => Quota(limit, |ActiveIn(snapshot)|, |QueuedIn(snapshot)|) == 0
    case Granting(_, _, next, _) => next == PassQuota(pass, snapshot)
  }

  function Push(s: State, v: View): (s': State)
    requires Bounded(s)
    ensures Bounded(s')
  {
    if v == Current(s) then s else s.(log := s.log + [v])
  }

  function Delivered(c: Config, s: State, k: nat): State
    requires Bounded(s) && s.cache <= k < |s.log|
  {
    s.(cache := k, wake := s.wake || Notifies(s.log[s.cache], s.log[k], c.pool))
  }

  function Relisted(s: State, limit: int): State {
    s.(snap := s.cache, high := if limit > s.high then limit else s.high, pass := Listed(limit), wake := false)
  }

  /** The view after a grant that reaches the store: refused unless the version read is current, and
      without effect when the slot was granted before. */
  function AfterGrant(v: View, t: Task): View {
    if StillCurrent(v, t) && !Granted(t)
    then v[t.name := Entry(WithSlot(t).(version := t.version + 1), true)] else v
  }

  /** Whether the grant the loop has come to reaches the store and is accepted there. */
  predicate GrantLands(s: State, reply: Reply)
    requires Bounded(s) && s.pass.Granting? && s.pass.next < |s.pass.queue|
  {
    reply != Dropped && StillCurrent(Current(s), s.pass.queue[s.pass.next])
  }

  /** The effect of that grant on the store. */
  function GrantWritten(s: State, reply: Reply): (s': State)
    requires Bounded(s) && s.pass.Granting? && s.pass.next < |s.pass.queue|
    ensures Bounded(s')
  {
    if GrantLands(s, reply) then Push(s, AfterGrant(Current(s), s.pass.queue[s.pass.next])) else s
  }

  /** The loop goes on whether or not the grant was acknowledged. */
  function NextTurn(s: State, reply: Reply): Pass
    requires Bounded(s) && s.pass.Granting? && s.pass.next < |s.pass.queue|
  {
    s.pass.(next := s.pass.next + 1,
            failed := if GrantLands(s, reply) && reply == Answered then s.pass.failed
                      else s.pass.failed + {s.pass.queue[s.pass.next].name})
  }

  function GrantTried(s: State, reply: Reply): (s': State)
    requires Bounded(s) && s.pass.Granting? && s.pass.next < |s.pass.queue|
    ensures Bounded(s')
  {
    GrantWritten(s, reply).(pass := NextTurn(s, reply))
  }

  function Finished(s: State, reply: Reply): State
    requires Bounded(s)
  {
    s.(pass := Idle, wake := s.wake || reply != Answered || QueuedIn(s.log[s.snap]) != {})
  }

  ghost predicate Enabled(c: Config, s: State, a: Action)
    requires Bounded(s)
  {
    match a
    case Change(n, e) => CanChange(Current(s), n, e)
    case Create(t) => CanCreate(c, Current(s), t)
    case Deliver(k) => s.cache <= k < |s.log|
    case Poke => true
    case List(_) => s.pass == Idle && s.wake
    case Order(queue) => s.pass.Listed? && IsQueueOf(s.log[s.snap], queue)
    case Grant(_) => s.pass.Granting? && s.pass.next < PassQuota(s.pass, s.log[s.snap])
    case Finish(_) => PassDone(s.pass, s.log[s.snap])
    case Crash => true
  }

  ghost function Apply(c: Config, s: State, a: Action): (s': State)
    requires Bounded(s) && Enabled(c, s, a)
    ensures Bounded(s')
  {
    match a
    case Change(n, e) => Push(s, Current(s)[n := e])
    case Create(t) => Push(s, Current(s)[t.name := Entry(t, true)])
    case Deliver(k) => Delivered(c, s, k)
    case Poke => s.(wake := true)
    case List(limit) => Relisted(s, limit)
    case Order(queue) => s.(pass := Granting(s.pass.limit, queue, 0, {}))
    case Grant(reply) => GrantTried(s, reply)
    case Finish(reply) => Finished(s, reply)
    case Crash => s.(pass := Idle, wake := true)
  }

  ghost predicate Valid(c: Config, s: State, acts: seq<Action>)
    requires Bounded(s)
    decreases |acts|
  {
    acts == [] || (Enabled(c, s, acts[0]) && Valid(c, Apply(c, s, acts[0]), acts[1..]))
  }

  ghost function After(c: Config, s: State, acts: seq<Action>): (s': State)
    requires Bounded(s) && Valid(c, s, acts)
    ensures Bounded(s')
    decreases |acts|
  {
    if acts == [] then s else After(c, Apply(c, s, acts[0]), acts[1..])
  }
}
