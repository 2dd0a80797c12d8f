/** The list a pool pass works on: sorting it into phases, counting, and putting the queue in order. */
module PoolListing {
  import opened AgentTypes
  import opened PoolView
  import opened PoolSystem
  import opened PoolSafety

  datatype Kind = ActiveTask | QueuedTask | CompletedTask | FailedTask

  function KindOf(p: Phase): Kind {
    if IsActive(p) then ActiveTask
    else if IsQueued(p) then QueuedTask
    else if p == Succeeded then CompletedTask
    else FailedTask
  }

  /** The tasks of one kind, in the order of the list. */
  function Select(items: seq<Task>, k: Kind): seq<Task> {
    if items == [] then []
    else
      var last := items[|items| - 1];
      Select(items[..|items| - 1], k) + if KindOf(last.status.phase) == k then [last] else []
  }

  lemma SelectNext(items: seq<Task>, i: nat, k: Kind)
    requires i < |items|
    ensures Select(items[..i + 1], k)
            == Select(items[..i], k) + if KindOf(items[i].status.phase) == k then [items[i]] else []
  {
    assert items[..i + 1][..i] == items[..i];
  }

  lemma {:induction false} SelectFrom(items: seq<Task>, k: Kind)
    ensures forall t :: t in Select(items, k) <==> t in items && KindOf(t.status.phase) == k
  {
    if items != [] {
      SelectFrom(items[..|items| - 1], k);
      assert items == items[..|items| - 1] + [items[|items| - 1]];
    }
  }

  lemma {:induction false} SelectOnce(items: seq<Task>, k: Kind)
    requires NoRepeats(items)
    ensures NoRepeats(Select(items, k))
  {
    if items != [] {
      var front, last := items[..|items| - 1], items[|items| - 1];
      SelectOnce(front, k);
      SelectFrom(front, k);
      var chosen := Select(front, k);
      forall i | 0 <= i < |chosen|
        ensures chosen[i].name != last.name
      {
        assert chosen[i] in front;
      }
    }
  }

  /** Every task is of exactly one kind. */
  lemma {:induction false} KindsAddUp(items: seq<Task>)
    ensures |Select(items, ActiveTask)| + |Select(items, QueuedTask)|
          + |Select(items, CompletedTask)| + |Select(items, FailedTask)| == |items|
  {
    if items != [] {
      KindsAddUp(items[..|items| - 1]);
    }
  }

  // ----- listings

  predicate IsLiveIn(v: View, n: string) {
    n in v && v[n].live
  }

  function LiveIn(v: View): set<string> {
    set n | n in v && IsLiveIn(v, n)
  }

  ghost predicate IsListed(v: View, t: Task) {
    IsLiveIn(v, t.name) && v[t.name].task == t
  }

  /** Every live task of the view, once, in any order. */
  ghost predicate IsListing(v: View, items: seq<Task>) {
    && (forall i {:trigger items[i]} | 0 <= i < |items| :: IsListed(v, items[i]))
    && NoRepeats(items)
    && |items| == |LiveIn(v)|
  }

  function KindIn(v: View, k: Kind): set<string> {
    set n | n in v && IsLiveIn(v, n) && KindOf(v[n].task.status.phase) == k
  }

  lemma ListingNames(v: View, items: seq<Task>)
    requires IsListing(v, items)
    ensures NamesOf(items) == LiveIn(v)
  {
    NamesCount(items);
    forall n | n in NamesOf(items)
      ensures n in LiveIn(v)
    {
      var i :| 0 <= i < |items| && items[i].name == n;
      assert IsListed(v, items[i]);
    }
    SameSize(NamesOf(items), LiveIn(v));
  }

  lemma SelectNames(v: View, items: seq<Task>, k: Kind)
    requires IsListing(v, items)
    ensures NamesOf(Select(items, k)) == KindIn(v, k)
  {
    var chosen := Select(items, k);
    SelectFrom(items, k);
    ListingNames(v, items);
    forall n | n in NamesOf(chosen)
      ensures n in KindIn(v, k)
    {
      var i :| 0 <= i < |chosen| && chosen[i].name == n;
      assert chosen[i] in items;
      var j :| 0 <= j < |items| && items[j] == chosen[i];
      assert IsListed(v, items[j]);
    }
    forall n | n in KindIn(v, k)
      ensures n in NamesOf(chosen)
    {
      assert n in LiveIn(v) && n in NamesOf(items);
      var j :| 0 <= j < |items| && items[j].name == n;
      assert IsListed(v, items[j]) && items[j] in chosen;
      var i :| 0 <= i < |chosen| && chosen[i] == items[j];
    }
  }

  /** Counting the list counts the view. */
  lemma SelectCounts(v: View, items: seq<Task>, k: Kind)
    requires IsListing(v, items)
    ensures |Select(items, k)| == |KindIn(v, k)|
  {
    SelectNames(v, items, k);
    SelectOnce(items, k);
    NamesCount(Select(items, k));
  }

  /** The live tasks in one of some phases. */
  function PhasesIn(v: View, phases: set<Phase>): set<string> {
    set n | n in v && v[n].live && v[n].task.status.phase in phases
  }

  const ACTIVE_PHASES := {Initializing, Running, PushingBranch, CreatingMR}

  /** Which phases make up each kind. */
  lemma KindsOfView(v: View)
    ensures KindIn(v, ActiveTask) == ActiveIn(v) == PhasesIn(v, ACTIVE_PHASES)
    ensures KindIn(v, QueuedTask) == QueuedIn(v) == PhasesIn(v, {Unset, Pending})
    ensures KindIn(v, CompletedTask) == PhasesIn(v, {Succeeded})
    ensures KindIn(v, FailedTask) == PhasesIn(v, {Failed})
  {
  }

  /** The four lists count active, queued and all listed tasks. */
  lemma ListingCounts(v: View, items: seq<Task>)
    requires IsListing(v, items)
    ensures |Select(items, ActiveTask)| == |ActiveIn(v)| && |Select(items, QueuedTask)| == |QueuedIn(v)|
    ensures |Select(items, ActiveTask)| + |Select(items, QueuedTask)|
          + |Select(items, CompletedTask)| + |Select(items, FailedTask)| == |items|
  {
    SelectCounts(v, items, ActiveTask);
    SelectCounts(v, items, QueuedTask);
    KindsOfView(v);
    KindsAddUp(items);
  }

  // ----- the queue

  lemma {:induction false} OnceInMultiset(s: seq<Task>, t: Task)
    requires NoRepeats(s)
    ensures multiset(s)[t] <= 1
  {
    if s != [] {
      var front, last := s[..|s| - 1], s[|s| - 1];
      assert s == front + [last];
      OnceInMultiset(front, t);
      if t == last {
        assert t !in front;
      }
    }
  }

  lemma TwiceInMultiset(s: seq<Task>, i: nat, j: nat)
    requires i < j < |s| && s[i] == s[j]
    ensures multiset(s)[s[i]] >= 2
  {
    assert s == s[..j] + [s[j]] + s[j + 1..];
    assert s[i] in s[..j];
  }

  /** A sorted rearrangement of the queued tasks of a listing is a queue. */
  lemma SortedIsQueue(v: View, items: seq<Task>, queue: seq<Task>)
    requires IsListing(v, items)
    requires multiset(queue) == multiset(Select(items, QueuedTask)) && Sorted(queue)
    ensures IsQueueOf(v, queue)
  {
    var chosen := Select(items, QueuedTask);
    SelectFrom(items, QueuedTask);
    SelectOnce(items, QueuedTask);
    SelectCounts(v, items, QueuedTask);
    KindsOfView(v);
    assert |queue| == |multiset(queue)| && |chosen| == |multiset(chosen)|;
    forall i | 0 <= i < |queue|
      ensures WasRead(v, queue[i])
    {
      assert queue[i] in multiset(queue);
      assert queue[i] in items;
      var j :| 0 <= j < |items| && items[j] == queue[i];
      assert IsListed(v, items[j]);
    }
    forall i, j | 0 <= i < j < |queue|
      ensures queue[i].name != queue[j].name
    {
      assert WasRead(v, queue[i]) && WasRead(v, queue[j]);
      if queue[i] == queue[j] {
        TwiceInMultiset(queue, i, j);
        OnceInMultiset(chosen, queue[i]);
      }
    }
  }
}
