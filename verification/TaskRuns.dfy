/** The calls of a reconcile, carried out by the store and the cluster, are its steps in the lifecycle. */
module TaskRuns {
  import opened AgentTypes
  import opened Handlers
  import opened Lifecycle
  import opened LifecycleHistory
  import opened TaskController

  /** What a call does. A status update changes nothing but the status, another update everything but the
      status, both only on the version they name; and an object marked for deletion goes with its last
      finalizer. */
  function Carried(c: Cell, call: Call, reply: Reply): (c': Cell)
    requires Bounded(c)
    ensures Bounded(c')
  {
    match call
    case CreateCall(pod) => c.(pod := if reply != Dropped && c.pod == None then Some(pod) else c.pod)
    case DeleteCall(_) => c.(pod := if reply != Dropped then None else c.pod)
    case PostCall(_) => c
    case StatusCall(t) =>
      if Accepts(c, t, reply) then Push(c, Current(c).(status := t.status)) else c
    case UpdateCall(t) =>
      if Accepts(c, t, reply)
      then Push(c, t.(status := Current(c).status)).(live := c.live && (!t.deleting || t.finalizer))
      else c
  }

  /** All but the last call get the first reply. */
  function CarriedAll(c: Cell, calls: seq<Call>, first: Reply, last: Reply): (c': Cell)
    requires Bounded(c)
    ensures Bounded(c')
    decreases |calls|
  {
    if calls == [] then c
    else CarriedAll(Carried(c, calls[0], if |calls| == 1 then last else first), calls[1..], first, last)
  }

  lemma CarriedOne(c: Cell, call: Call, first: Reply, last: Reply)
    requires Bounded(c)
    ensures CarriedAll(c, [call], first, last) == Carried(c, call, last)
  {
    assert [call][1..] == [];
  }

  lemma CarriedTwo(c: Cell, call: Call, call': Call, first: Reply, last: Reply)
    requires Bounded(c)
    ensures CarriedAll(c, [call, call'], first, last) == Carried(Carried(c, call, first), call', last)
  {
    assert [call, call'][1..] == [call'];
    CarriedOne(Carried(c, call, first), call', first, last);
  }

  /** The same stored task, the same pod. */
  ghost predicate SameStore(c: Cell, c': Cell) {
    c'.hist == c.hist && c'.live == c.live && c'.pod == c.pod
  }

  /** The reconcile is over, and the queue has what its verdict asks for. */
  ghost predicate EndsWith(c: Cell, verdict: Verdict, now: Time, c': Cell) {
    var queued := Requeue(c.(clock := now), verdict);
    c'.rec == Idle && c'.wake == queued.wake && c'.due == queued.due
  }

  // ----- the finalizer

  /** Adding the finalizer is one update, and the reconcile goes on with the object it stored. */
  lemma FinalizerIsCarried(c: Cell, reply: Reply)
    requires StoreOk(c) && c.rec.Read? && !c.rec.base.finalizer && !c.rec.base.deleting
    ensures var c', ok := FinalizerAdded(c, reply), Accepts(c, c.rec.base, reply) && reply == Answered;
            && SameStore(Carried(c, FinalizerCalls(c.rec.base)[0], reply), c')
            && (ok ==> c'.rec == Read(WithFinalizer(c.rec.base, true)))
            && (!ok ==> EndsWith(c, Retry, c.clock, c'))
  {
    if Accepts(c, c.rec.base, reply) {
      BaseIsCurrent(c, c.rec.base, reply);
      CurrentOk(c);
    }
  }

  // ----- a decision

  /** The call that has the effect of a decision. */
  function EffectCalls(e: Effect): seq<Call> {
    match e
    case NoEffect => []
    case CreatePod(pod) => [CreateCall(pod)]
    case DeletePod(name) => [DeleteCall(name)]
    case PostMR(request) => [PostCall(request)]
  }

  lemma EffectIsCarried(c: Cell, d: Decision, pod: PodAnswer, reply: Reply, now: Time)
    requires Bounded(c) && c.rec.Read?
    ensures var calls := EffectCalls(d.effect);
            SameStore(if calls == [] then c else Carried(c, calls[0], reply), Taken(c, d, pod, reply, now))
  {
    TakenFrame(c, d, pod, reply, now);
  }

  /** A status write is a call of its own after that. */
  lemma StatusIsCarried(c: Cell, c': Cell, last: Reply)
    requires Bounded(c) && Bounded(c') && SameStore(c, c') && c'.rec.Persisting?
    requires Accepts(c', c'.rec.base, last) ==> c'.rec.base == Current(c')
    ensures SameStore(Carried(c, StatusCall(c'.rec.base.(status := c'.rec.status)), last), Written(c', last))
  {
    WrittenFrame(c', last);
  }

  lemma WriteIsCarried(c: Cell, d: Decision, pod: PodAnswer, first: Reply, last: Reply, now: Time)
    requires Bounded(c) && c.rec.Read? && d.next.Persist?
    requires Accepts(c, c.rec.base, last) ==> c.rec.base == Current(c)
    ensures SameStore(CarriedAll(c, CallsFor(c.rec.base, d), first, last),
                      Written(Taken(c, d, pod, first, now), last))
  {
    var calls, status := EffectCalls(d.effect), StatusCall(c.rec.base.(status := d.next.status));
    var acted := Taken(c, d, pod, first, now);
    assert CallsFor(c.rec.base, d) == calls + [status];
    EffectIsCarried(c, d, pod, first, now);
    TakenFrame(c, d, pod, first, now);
    if calls == [] {
      assert calls + [status] == [status];
      StatusIsCarried(c, acted, last);
      CarriedOne(c, status, first, last);
    } else {
      assert calls + [status] == [calls[0], status];
      StatusIsCarried(Carried(c, calls[0], first), acted, last);
      CarriedTwo(c, calls[0], status, first, last);
    }
  }

  lemma StopIsCarried(c: Cell, d: Decision, pod: PodAnswer, first: Reply, last: Reply, now: Time)
    requires Bounded(c) && c.rec.Read? && d.next.Stop?
    ensures SameStore(CarriedAll(c, CallsFor(c.rec.base, d), first, last), Taken(c, d, pod, last, now))
  {
    var calls := EffectCalls(d.effect);
    assert CallsFor(c.rec.base, d) == calls;
    EffectIsCarried(c, d, pod, last, now);
    if calls != [] {
      assert calls == [calls[0]];
      CarriedOne(c, calls[0], first, last);
    }
  }

  lemma StopEnds(c: Cell, d: Decision, pod: PodAnswer, reply: Reply, now: Time)
    requires Bounded(c) && c.rec.Read? && d.next.Stop?
    ensures EndsWith(c, d.next.verdict, now, Taken(c, d, pod, reply, now))
  {
  }

  lemma WriteEnds(c: Cell, d: Decision, pod: PodAnswer, first: Reply, last: Reply, now: Time)
    requires Bounded(c) && c.rec.Read? && d.next.Persist?
    ensures var ok := Accepts(c, c.rec.base, last) && last == Answered;
            EndsWith(c, VerdictFor(d, ok), now, Written(Taken(c, d, pod, first, now), last))
  {
  }

  /** The calls of a reconcile leave store and pod as the steps `Act` and, if it stores a status, `Write`
      leave them, and its verdict asks the queue for what those steps ask for. */
  lemma DecisionIsCarried(c: Cell, ans: Answers, first: Reply, last: Reply, t1: Time, t2: Time)
    requires StoreOk(c) && c.rec.Read?
    ensures var d := Decide(c.rec.base, ans, t1, t2);
            var ok := Accepts(c, c.rec.base, last) && last == Answered;
            var c' := if d.next.Persist? then Written(Acted(c, ans, first, t1, t2), last)
                      else Acted(c, ans, last, t1, t2);
            && SameStore(CarriedAll(c, CallsFor(c.rec.base, d), first, last), c')
            && EndsWith(c, VerdictFor(d, ok), t2, c')
  {
    var d := Decide(c.rec.base, ans, t1, t2);
    if d.next.Persist? {
      if Accepts(c, c.rec.base, last) {
        BaseIsCurrent(c, c.rec.base, last);
      }
      WriteIsCarried(c, d, ans.pod, first, last, t2);
      WriteEnds(c, d, ans.pod, first, last, t2);
    } else {
      StopIsCarried(c, d, ans.pod, first, last, t2);
      StopEnds(c, d, ans.pod, last, t2);
    }
  }

  // ----- deletion

  lemma ReleaseIsCarried(c: Cell, c': Cell, last: Reply)
    requires Bounded(c) && Bounded(c') && SameStore(c, c') && c'.rec.Releasing? && c'.rec.base.deleting
    requires Accepts(c', c'.rec.base, last) ==> c'.rec.base == Current(c')
    ensures SameStore(Carried(c, UpdateCall(c'.rec.base.(finalizer := false)), last), Released(c', last))
  {
  }

  lemma ReleaseEnds(c: Cell, seen: PodAnswer, first: Reply, last: Reply)
    requires Bounded(c) && c.rec.Read?
    ensures var ok := Accepts(c, c.rec.base, last) && last == Answered;
            EndsWith(c, if ok then Done else Retry, c.clock, Released(Cleaned(c, seen, first), last))
  {
  }

  /** The calls of a deletion leave store and pod as the steps `CleanPod` and `Release` leave them. */
  lemma CleanupIsCarried(c: Cell, seen: PodAnswer, first: Reply, last: Reply)
    requires StoreOk(c) && c.rec.Read? && c.rec.base.deleting
    ensures var c', ok := Released(Cleaned(c, seen, first), last), Accepts(c, c.rec.base, last) && last == Answered;
            && SameStore(CarriedAll(c, CleanupCalls(c.rec.base, seen), first, last), c')
            && EndsWith(c, if ok then Done else Retry, c.clock, c')
  {
    if Accepts(c, c.rec.base, last) {
      BaseIsCurrent(c, c.rec.base, last);
    }
    ReleaseEnds(c, seen, first, last);
    CallsAreCarried(c, seen, first, last);
  }

  lemma CallsAreCarried(c: Cell, seen: PodAnswer, first: Reply, last: Reply)
    requires Bounded(c) && c.rec.Read? && c.rec.base.deleting
    requires Accepts(c, c.rec.base, last) ==> c.rec.base == Current(c)
    ensures SameStore(CarriedAll(c, CleanupCalls(c.rec.base, seen), first, last),
                      Released(Cleaned(c, seen, first), last))
  {
    var t := c.rec.base;
    var update := UpdateCall(t.(finalizer := false));
    if AsksDeletion(t, seen) {
      var delete := DeleteCall(t.status.podName);
      assert CleanupCalls(t, seen) == [delete, update];
      CarriedTwo(c, delete, update, first, last);
      CleanThenRelease(c, Carried(c, delete, first), seen, first, last);
    } else {
      assert CleanupCalls(t, seen) == [update];
      CarriedOne(c, update, first, last);
      CleanThenRelease(c, c, seen, first, last);
    }
  }

  lemma CleanThenRelease(c: Cell, mid: Cell, seen: PodAnswer, first: Reply, last: Reply)
    requires Bounded(c) && c.rec.Read? && c.rec.base.deleting
    requires Accepts(c, c.rec.base, last) ==> c.rec.base == Current(c)
    requires mid == c.(pod := Cleaned(c, seen, first).pod)
    ensures SameStore(Carried(mid, UpdateCall(c.rec.base.(finalizer := false)), last),
                      Released(Cleaned(c, seen, first), last))
  {
    ReleaseIsCarried(mid, Cleaned(c, seen, first), last);
  }
}
