/** Building runs of one task: steps put together, and whole reconciles that go well. */
module LifecycleRuns {
  import opened AgentTypes
  import opened Handlers
  import opened Lifecycle

  lemma {:induction false} RunsJoin(m: Mode, c: Cell, first: seq<Action>, second: seq<Action>)
    requires Bounded(c) && Valid(m, c, first) && Valid(m, After(m, c, first), second)
    ensures Valid(m, c, first + second)
    ensures After(m, c, first + second) == After(m, After(m, c, first), second)
    decreases |first|
  {
    if first == [] {
      assert first + second == second;
    } else {
      assert (first + second)[0] == first[0] && (first + second)[1..] == first[1..] + second;
      RunsJoin(m, Apply(m, c, first[0]), first[1..], second);
    }
  }

  /** Some run leads from one state to the other. */
  ghost predicate Leads(m: Mode, c: Cell, c': Cell) {
    Bounded(c) && Bounded(c')
    && exists acts: seq<Action> :: Valid(m, c, acts) && After(m, c, acts) == c'
  }

  lemma LeadsSelf(m: Mode, c: Cell)
    requires Bounded(c)
    ensures Leads(m, c, c)
  {
    assert Valid(m, c, []) && After(m, c, []) == c;
  }

  lemma OneStep(m: Mode, c: Cell, a: Action)
    requires Bounded(c) && Enabled(m, c, a)
    ensures Valid(m, c, [a]) && After(m, c, [a]) == Apply(m, c, a)
  {
    assert [a][1..] == [];
    assert Valid(m, Apply(m, c, a), []) && After(m, Apply(m, c, a), []) == Apply(m, c, a);
  }

  lemma LeadsOn(m: Mode, c: Cell, c': Cell, acts: seq<Action>)
    requires Leads(m, c, c') && Valid(m, c', acts)
    ensures Leads(m, c, After(m, c', acts))
  {
    var first :| Valid(m, c, first) && After(m, c, first) == c';
    RunsJoin(m, c, first, acts);
  }

  lemma LeadsStep(m: Mode, c: Cell, c': Cell, a: Action)
    requires Leads(m, c, c') && Enabled(m, c', a)
    ensures Leads(m, c, Apply(m, c', a))
  {
    OneStep(m, c', a);
    LeadsOn(m, c, c', [a]);
  }

  lemma {:induction false} HistGrows(m: Mode, c: Cell, acts: seq<Action>)
    requires Bounded(c) && Valid(m, c, acts)
    ensures c.hist <= After(m, c, acts).hist
    decreases |acts|
  {
    if acts != [] {
      StepGrowsHist(m, c, acts[0]);
      HistGrows(m, Apply(m, c, acts[0]), acts[1..]);
    }
  }

  lemma StepGrowsHist(m: Mode, c: Cell, a: Action)
    requires Bounded(c) && Enabled(m, c, a)
    ensures c.hist <= Apply(m, c, a).hist
  {
    if a.AddFinalizer? || a.Act? || a.Write? || a.Release? {
      OwnStepGrowsHist(m, c, a);
    }
  }

  lemma OwnStepGrowsHist(m: Mode, c: Cell, a: Action)
    requires Bounded(c) && Enabled(m, c, a) && (a.AddFinalizer? || a.Act? || a.Write? || a.Release?)
    ensures c.hist <= Apply(m, c, a).hist
  {
    match a
    case Act(ans, reply, t1, t2) => TakenFrame(c, Decide(c.rec.base, ans, t1, t2), ans.pod, reply, t2);
    case Write(reply) => WrittenFrame(c, reply);
    case _ =>
  }

  // ----- a reconcile that goes well

  /** The task waits for a reconcile that it will get. */
  ghost predicate Ready(c: Cell) {
    && Bounded(c) && c.live && c.rec == Idle && c.wake
    && !Current(c).deleting && Current(c).version == |c.hist| - 1
  }

  /** The object a reconcile decides on, its finalizer added if it was missing. */
  function Base(c: Cell): Task
    requires Bounded(c)
  {
    if Current(c).finalizer then Current(c) else Current(c).(finalizer := true, version := |c.hist|)
  }

  function DecisionOn(c: Cell, ans: Answers): Decision
    requires Bounded(c)
  {
    Decide(Base(c), ans, c.clock, c.clock)
  }

  /** What a reconcile that goes well leaves behind. */
  ghost predicate ServedBy(c: Cell, ans: Answers, c': Cell)
    requires Ready(c) && DecisionOn(c, ans).next.Persist?
  {
    var status := DecisionOn(c, ans).next.status;
    && Bounded(c') && c'.live && c'.rec == Idle && c'.clock == c.clock
    && Current(c') == Base(c).(status := status, version := |c'.hist| - 1)
    && (!IsTerminal(status.phase) ==> Ready(c'))
    && SamePods(c, DecisionOn(c, ans).effect, c')
  }

  /** Pods as an effect that goes well leaves them. */
  ghost predicate SamePods(c: Cell, e: Effect, c': Cell) {
    && c'.pod == PodAfter(c.pod, e, Answered)
    && c'.ledger.created == Perform(c.ledger, c.pod, e, Answered).created
    && c'.ledger.outsideDeletes == c.ledger.outsideDeletes
  }

  /** Nothing in these steps is the pool's. */
  ghost predicate OwnSteps(acts: seq<Action>) {
    forall i {:trigger acts[i]} | 0 <= i < |acts| :: !acts[i].GrantSlot?
  }

  /** Read the current version, add the finalizer if need be, act, and have the status stored. */
  lemma ServeOnce(m: Mode, c: Cell, ans: Answers) returns (acts: seq<Action>)
    requires Ready(c) && DecisionOn(c, ans).next.Persist?
    requires ans.create == CreateAnswerFor(c.pod.Some?, Answered)
    ensures Valid(m, c, acts) && OwnSteps(acts) && ServedBy(c, ans, After(m, c, acts))
  {
    var begin := BeginReconcile(m, c);
    var finish := FinishReconcile(m, After(m, c, begin), ans);
    RunsJoin(m, c, begin, finish);
    acts := begin + finish;
  }

  /** The reconcile has read the current version; it acts and has the status stored. */
  lemma FinishReconcile(m: Mode, c: Cell, ans: Answers) returns (acts: seq<Action>)
    requires Bounded(c) && c.live && c.rec == Read(Current(c)) && Current(c).version == |c.hist| - 1
    requires !Current(c).deleting && Current(c).finalizer
    requires Decide(Current(c), ans, c.clock, c.clock).next.Persist?
    requires ans.create == CreateAnswerFor(c.pod.Some?, Answered)
    ensures Valid(m, c, acts) && OwnSteps(acts)
    ensures var d, c' := Decide(Current(c), ans, c.clock, c.clock), After(m, c, acts);
            && c'.live && c'.rec == Idle && c'.clock == c.clock && SamePods(c, d.effect, c')
            && Current(c') == Current(c).(status := d.next.status, version := |c'.hist| - 1)
            && (!IsTerminal(d.next.status.phase) ==> c'.wake)
  {
    var act := Act(ans, Answered, c.clock, c.clock);
    var c' := Apply(m, c, act);
    TakenFrame(c, Decide(Current(c), ans, c.clock, c.clock), ans.pod, Answered, c.clock);
    WrittenFrame(c', Answered);
    WakesAgain(c');
    OneStep(m, c, act);
    OneStep(m, c', Write(Answered));
    RunsJoin(m, c, [act], [Write(Answered)]);
    acts := [act] + [Write(Answered)];
  }

  lemma WakesAgain(c: Cell)
    requires Bounded(c) && c.live && c.rec.Persisting? && c.rec.base.version == Current(c).version
    ensures !IsTerminal(c.rec.status.phase) ==> Written(c, Answered).wake
  {
  }

  lemma BeginReconcile(m: Mode, c: Cell) returns (acts: seq<Action>)
    requires Ready(c)
    ensures Valid(m, c, acts) && OwnSteps(acts)
    ensures var c' := After(m, c, acts);
            && c'.rec == Read(Base(c)) && Current(c') == Base(c) && Base(c).version == |c'.hist| - 1
            && c'.live && c'.clock == c.clock && c'.pod == c.pod && c'.ledger == c.ledger
  {
    var c1 := Apply(m, c, Begin(|c.hist| - 1));
    OneStep(m, c, Begin(|c.hist| - 1));
    acts := [Begin(|c.hist| - 1)];
    if !Current(c).finalizer {
      OneStep(m, c1, AddFinalizer(Answered));
      RunsJoin(m, c, acts, [AddFinalizer(Answered)]);
      acts := acts + [AddFinalizer(Answered)];
    }
  }
}
