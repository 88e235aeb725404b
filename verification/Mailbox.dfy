/** A bounded mailbox with a reserve for completions (TaskExecutor.h), and sums over the
    tasks in one. */
module Mailbox {

  datatype Box<T> = Box(tasks: seq<T>, closed: bool)

  function Limit(capacity: nat, reserve: nat, completion: bool): nat {
    capacity + if completion then reserve else 0
  }

  predicate Takes<T>(b: Box<T>, limit: nat) { !b.closed && |b.tasks| < limit }

  function Post<T>(b: Box<T>, task: T, limit: nat): Box<T> {
    if Takes(b, limit) then b.(tasks := b.tasks + [task]) else b
  }

  function Rest<T>(b: Box<T>): Box<T>
    requires b.tasks != []
  {
    b.(tasks := b.tasks[1..])
  }

  datatype Option<T> = None | Some(value: T)

  /** The executor's fields; each method is one locked section. */
  class TaskExecutor<T(!new)> {
    const capacity: nat
    const reserve: nat
    var tasks: seq<T>
    var closed: bool

    ghost function State(): Box<T>
      reads this
    {
      Box(tasks, closed)
    }

    constructor (capacity: nat, reserve: nat)
      ensures this.capacity == capacity && this.reserve == reserve && State() == Box([], false)
    {
      this.capacity, this.reserve := capacity, reserve;
      tasks, closed := [], false;
    }

    /** Never waits; false leaves the mailbox as it was. */
    method PostTask(task: T, completion: bool) returns (ok: bool)
      modifies this
      ensures ok <==> Takes(old(State()), Limit(capacity, reserve, completion))
      ensures State() == Post(old(State()), task, Limit(capacity, reserve, completion))
    {
      var limit := capacity + if completion then reserve else 0;
      if closed || |tasks| >= limit { return false; }
      tasks := tasks + [task];
      return true;
    }

    /** The worker's turn: the oldest task, or none once closed and empty. */
    method TakeTask() returns (task: Option<T>)
      requires closed || tasks != []
      modifies this
      ensures old(tasks) == [] ==> task == None && State() == old(State())
      ensures old(tasks) != [] ==> task == Some(old(tasks)[0]) && State() == Rest(old(State()))
    {
      if tasks == [] { return None; }
      task := Some(tasks[0]);
      tasks := tasks[1..];
    }

    /** Refuses new tasks from now on; those accepted stay to be drained. */
    method Close()
      modifies this
      ensures State() == Do(old(State()), Shut)
    {
      closed := true;
    }
  }

  // ---------------------------------------------------------- any sequence of uses

  datatype Use<T> = Offer(task: T, limit: nat) | Take | Shut

  function Do<T>(b: Box<T>, use: Use<T>): Box<T> {
    match use
    case Offer(task, limit) => Post(b, task, limit)
    case Take => if b.tasks == [] then b else Rest(b)
    case Shut => b.(closed := true)
  }

  function DoAll<T>(b: Box<T>, uses: seq<Use<T>>): Box<T>
    decreases |uses|
  {
    if uses == [] then b else DoAll(Do(b, uses[0]), uses[1..])
  }

  /** The tasks that got in, in order. */
  function Accepted<T>(b: Box<T>, uses: seq<Use<T>>): seq<T>
    decreases |uses|
  {
    if uses == [] then [] else
      (if uses[0].Offer? && Takes(b, uses[0].limit) then [uses[0].task] else []) + Accepted(Do(b, uses[0]), uses[1..])
  }

  /** The tasks the worker got, in order. */
  function Served<T>(b: Box<T>, uses: seq<Use<T>>): seq<T>
    decreases |uses|
  {
    if uses == [] then [] else
      (if uses[0].Take? && b.tasks != [] then [b.tasks[0]] else []) + Served(Do(b, uses[0]), uses[1..])
  }

  /** Whatever the producers, the worker and the owner do, and in whatever order: every
      accepted task is run once, first come first served, or still waits. */
  lemma {:induction false} FirstInFirstOut<T>(b: Box<T>, uses: seq<Use<T>>)
    ensures Served(b, uses) + DoAll(b, uses).tasks == b.tasks + Accepted(b, uses)
    decreases |uses|
  {
    if uses != [] {
      var c, rest := Do(b, uses[0]), uses[1..];
      FirstInFirstOut(c, rest);
      if uses[0].Take? && b.tasks != [] {
        assert Served(b, uses) + DoAll(c, rest).tasks == [b.tasks[0]] + (Served(c, rest) + DoAll(c, rest).tasks);
        assert b.tasks == [b.tasks[0]] + c.tasks;
      } else if uses[0].Offer? && Takes(b, uses[0].limit) {
        assert c.tasks + Accepted(c, rest) == b.tasks + ([uses[0].task] + Accepted(c, rest));
        assert Served(b, uses) == Served(c, rest);
      } else {
        assert Served(b, uses) == Served(c, rest) && Accepted(b, uses) == Accepted(c, rest) && c.tasks == b.tasks;
      }
    }
  }

  /** After closing nothing gets in any more, and what was accepted before is neither lost
      nor reordered: it is run, or still waits. */
  lemma {:induction false} ClosedDrains<T>(b: Box<T>, uses: seq<Use<T>>)
    requires b.closed
    ensures DoAll(b, uses).closed && Accepted(b, uses) == []
    ensures Served(b, uses) + DoAll(b, uses).tasks == b.tasks
    decreases |uses|
  {
    FirstInFirstOut(b, uses);
    if uses != [] { ClosedDrains(Do(b, uses[0]), uses[1..]); }
  }

  // ----------------------------------------------------------------------- sums

  /** All that `of` finds in a queue. */
  function Sum<T>(q: seq<T>, of: T -> multiset<nat>): multiset<nat> {
    if q == [] then multiset{} else of(q[0]) + Sum(q[1..], of)
  }

  lemma {:induction false} SumSnoc<T>(q: seq<T>, task: T, of: T -> multiset<nat>)
    ensures Sum(q + [task], of) == Sum(q, of) + of(task)
  {
    if q != [] {
      assert (q + [task])[1..] == q[1..] + [task];
      SumSnoc(q[1..], task, of);
    }
  }

  lemma SumHead<T>(q: seq<T>, of: T -> multiset<nat>)
    requires q != []
    ensures Sum(q, of) == Sum(q[1..], of) + of(q[0])
  {}

  predicate Injective<K, V(==)>(m: map<K, V>) { forall a, b :: a in m && b in m && m[a] == m[b] ==> a == b }

  lemma PutValues<K, V>(m: map<K, V>, k: K, v: V)
    requires Injective(m) && k !in m && v !in m.Values
    ensures Injective(m[k := v]) && m[k := v].Values == m.Values + {v} && m[k := v].Keys == m.Keys + {k}
  {
    assert forall x :: x in m ==> m[x] in m.Values;
    assert forall w :: w in m.Values ==> exists x :: x in m && m[x] == w;
    assert m[k := v][k] == v;
    assert forall x :: x in m ==> m[k := v][x] == m[x];
  }

  lemma DropValues<K, V>(m: map<K, V>, k: K)
    requires Injective(m) && k in m
    ensures Injective(m - {k}) && (m - {k}).Values == m.Values - {m[k]} && (m - {k}).Keys == m.Keys - {k}
  {
    forall w | w in m.Values - {m[k]} ensures w in (m - {k}).Values {
      var x :| x in m && m[x] == w;
      assert x in m - {k};
    }
  }

  lemma OneMore<X>(small: set<X>, x: X, big: set<X>)
    requires small == big - {x} && x in big
    ensures |big| == |small| + 1
  {}

  lemma {:induction false} ManyValues<K, V>(m: map<K, V>)
    requires Injective(m)
    ensures |m.Values| == |m.Keys|
    decreases |m.Keys|
  {
    if k :| k in m {
      DropValues(m, k);
      OneMore((m - {k}).Keys, k, m.Keys);
      OneMore((m - {k}).Values, m[k], m.Values);
      ManyValues(m - {k});
    } else {
      assert m.Keys == {} && m.Values == {};
    }
  }
}
