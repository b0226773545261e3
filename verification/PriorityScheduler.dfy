module PriorityScheduler {
  /**
   The single-thread priority queue of native operations (src/agent_core_tools/priority_scheduler.py).

   The binary heap is a library. It enters as the list it stands for, in the order in which it hands its entries out.
   */
  import opened Basics

  datatype Kind = Control | Person | Hardware | Background

  function Rank(kind: Kind): int
  {
    match kind
    case Control => -10
    case Person => 0
    case Hardware => 10
    case Background => 20
  }

  datatype Operation<+T> = Operation(kind: Kind, sequence: nat, task: T)

  datatype Queue<+T> = Queue(waiting: seq<Operation<T>>, sequence: nat, maxPending: nat, stopping: bool)

  datatype Refusal = QueueFull | Stopped

  predicate Before<T>(a: Operation<T>, b: Operation<T>)
  {
    Rank(a.kind) < Rank(b.kind) || (Rank(a.kind) == Rank(b.kind) && a.sequence < b.sequence)
  }

  predicate Ordered<T>(q: seq<Operation<T>>)
  {
    forall i, j | 0 <= i < j < |q| :: Before(q[i], q[j])
  }

  /** How many waiting entries go before this one. */
  function Place<T>(q: seq<Operation<T>>, op: Operation<T>): (p: nat)
    ensures p <= |q| && (p < |q| ==> Before(op, q[p]))
    ensures forall i | 0 <= i < p :: !Before(op, q[i])
  {
    if q == [] || Before(op, q[0]) then 0 else 1 + Place(q[1..], op)
  }

  /** An entry joins behind the entries that go before it. */
  function Push<T>(q: seq<Operation<T>>, op: Operation<T>): seq<Operation<T>>
  {
    var p := Place(q, op);
    q[..p] + [op] + q[p..]
  }

  predicate MustAdmit(kind: Kind, continuation: bool) { kind == Control || continuation }

  function Submit<T>(q: Queue<T>, kind: Kind, task: T, continuation: bool): Result<Queue<T>, Refusal>
  {
    if q.stopping then Err(Stopped)
    else if !MustAdmit(kind, continuation) && |q.waiting| >= q.maxPending then Err(QueueFull)
    else
      var sequence := q.sequence + 1;
      Ok(q.(sequence := sequence, waiting := Push(q.waiting, Operation(kind, sequence, task))))
  }

  function Pop<T>(q: Queue<T>): Queue<T>
    requires q.waiting != []
  {
    q.(waiting := q.waiting[1..])
  }

  /** How often a task is in the queue, however it is ordered. */
  function Times<T(==)>(q: seq<Operation<T>>, task: T): nat
  {
    if q == [] then 0 else (if q[0].task == task then 1 else 0) + Times(q[1..], task)
  }

  predicate Fresh<T>(q: Queue<T>)
  {
    forall i | 0 <= i < |q.waiting| :: q.waiting[i].sequence <= q.sequence
  }

  predicate ValidQueue<T>(q: Queue<T>) { Ordered(q.waiting) && Fresh(q) }

  lemma {:induction false} TimesJoin<T>(a: seq<Operation<T>>, b: seq<Operation<T>>, task: T)
    ensures Times(a + b, task) == Times(a, task) + Times(b, task)
  {
    if a == [] {
      assert a + b == b;
    } else {
      TimesJoin(a[1..], b, task);
      assert (a + b)[1..] == a[1..] + b;
    }
  }

  lemma PushTimes<T>(q: seq<Operation<T>>, op: Operation<T>, task: T)
    ensures Times(Push(q, op), task) == Times(q, task) + if op.task == task then 1 else 0
  {
    hide Place, Before;
    var p := Place(q, op);
    TimesJoin(q[..p], [op] + q[p..], task);
    TimesJoin(q[..p], q[p..], task);
    assert q[..p] + q[p..] == q;
    assert q[..p] + [op] + q[p..] == q[..p] + ([op] + q[p..]);
    assert ([op] + q[p..])[1..] == q[p..];
  }

  lemma PushOrdered<T>(q: seq<Operation<T>>, op: Operation<T>)
    requires Ordered(q) && forall i | 0 <= i < |q| :: q[i].sequence != op.sequence
    ensures Ordered(Push(q, op))
  {
    var r, p := Push(q, op), Place(q, op);
    forall i, j | 0 <= i < j < |r| ensures Before(r[i], r[j]) {
      if i == p {
        assert r[j] == q[j - 1] && (j - 1 > p ==> Before(q[p], q[j - 1]));
      } else if j == p {
        assert r[i] == q[i] && !Before(op, q[i]);
      } else {
        assert Before(q[if i < p then i else i - 1], q[if j < p then j else j - 1]);
      }
    }
  }

  lemma PushMembers<T>(q: seq<Operation<T>>, op: Operation<T>)
    ensures forall x :: x in Push(q, op) <==> x == op || x in q
  {
    hide Place, Before;
    var p := Place(q, op);
    assert q == q[..p] + q[p..];
  }

  lemma PushValid<T>(q: Queue<T>, op: Operation<T>)
    requires ValidQueue(q) && op.sequence == q.sequence + 1
    ensures ValidQueue(q.(waiting := Push(q.waiting, op), sequence := op.sequence))
  {
    PushMembers(q.waiting, op);
    PushOrdered(q.waiting, op);
    var r := Push(q.waiting, op);
    hide Push, Ordered, Place;
    forall i | 0 <= i < |r| ensures r[i].sequence <= op.sequence { assert r[i] in r; }
  }

  lemma PushTimesAll<T>(q: seq<Operation<T>>, op: Operation<T>)
    ensures forall x :: Times(Push(q, op), x) == Times(q, x) + if x == op.task then 1 else 0
  {
    hide Push, Times, Place;
    forall x ensures Times(Push(q, op), x) == Times(q, x) + if x == op.task then 1 else 0 { PushTimes(q, op, x); }
  }

  /** What an accepted submission makes of the queue. */
  function Added<T>(q: Queue<T>, op: Operation<T>): Queue<T>
  {
    q.(sequence := op.sequence, waiting := Push(q.waiting, op))
  }

  lemma SubmitAdds<T>(q: Queue<T>, kind: Kind, task: T, continuation: bool)
    ensures Submit(q, kind, task, continuation).Ok? <==>
              !q.stopping && (MustAdmit(kind, continuation) || |q.waiting| < q.maxPending)
    ensures Submit(q, kind, task, continuation).Ok? ==>
              Submit(q, kind, task, continuation).value == Added(q, Operation(kind, q.sequence + 1, task))
  {
    hide Push;
  }

  lemma AddedValid<T>(q: Queue<T>, op: Operation<T>)
    requires ValidQueue(q) && op.sequence == q.sequence + 1
    ensures ValidQueue(Added(q, op)) && Added(q, op).sequence == op.sequence
    ensures forall x :: Times(Added(q, op).waiting, x) == Times(q.waiting, x) + if x == op.task then 1 else 0
    ensures forall x :: x in Added(q, op).waiting <==> x == op || x in q.waiting
  {
    hide Push, Times, Ordered;
    PushValid(q, op);
    PushTimesAll(q.waiting, op);
    PushMembers(q.waiting, op);
  }

  /** Submitting keeps the order, adds exactly the task, and is refused only for new work that is not mandatory. */
  lemma SubmitKeeps<T>(q: Queue<T>, kind: Kind, task: T, continuation: bool)
    requires ValidQueue(q)
    ensures Submit(q, kind, task, continuation).Ok? <==>
              !q.stopping && (MustAdmit(kind, continuation) || |q.waiting| < q.maxPending)
    ensures Submit(q, kind, task, continuation).Ok? ==>
              var q' := Submit(q, kind, task, continuation).value;
              && ValidQueue(q') && (forall x :: Times(q'.waiting, x) == Times(q.waiting, x) + if x == task then 1 else 0)
              && (forall op :: op in q'.waiting <==> op == Operation(kind, q'.sequence, task) || op in q.waiting)
  {
    hide Submit, Added, Times, ValidQueue;
    SubmitAdds(q, kind, task, continuation);
    AddedValid(q, Operation(kind, q.sequence + 1, task));
  }

  /** What runs next has the best class of all that wait, and is the oldest of its class. */
  lemma PopIsFirst<T>(q: Queue<T>, op: Operation<T>)
    requires ValidQueue(q) && op in q.waiting
    ensures Rank(q.waiting[0].kind) <= Rank(op.kind)
    ensures q.waiting[0].kind == op.kind ==> q.waiting[0].sequence <= op.sequence
    ensures ValidQueue(Pop(q)) && forall x :: Times(q.waiting, x) == Times(Pop(q).waiting, x) + if x == q.waiting[0].task then 1 else 0
  {
    var i :| 0 <= i < |q.waiting| && q.waiting[i] == op;
    assert i > 0 ==> Before(q.waiting[0], q.waiting[i]);
  }

  /** While mandatory cleanup waits, nothing but cleanup runs. */
  lemma CleanupFirst<T>(q: Queue<T>, op: Operation<T>)
    requires ValidQueue(q) && op in q.waiting && op.kind == Control
    ensures q.waiting[0].kind == Control
  {
    PopIsFirst(q, op);
  }

  /** The queue as an object; its condition variable is held in each method. */
  class Scheduler<T(==)> {
    const maxPending: nat
    var waiting: seq<Operation<T>>
    var sequence: nat
    var stopping: bool
    var active: Option<Kind>

    ghost function View(): Queue<T>
      reads this
    {
      Queue(waiting, sequence, maxPending, stopping)
    }

    constructor (maxPending: nat)
      requires maxPending >= 1
      ensures View() == Queue([], 0, maxPending, false) && active.None?
    {
      this.maxPending := maxPending;
      waiting, sequence, stopping, active := [], 0, false, None;
    }

    method Add(kind: Kind, task: T, continuation: bool) returns (refusal: Option<Refusal>)
      modifies this`waiting, this`sequence
      ensures match Submit(old(View()), kind, task, continuation)
              case Ok(q) => refusal.None? && View() == q
              case Err(why) => refusal == Some(why) && View() == old(View())
    {
      hide Push;
      if stopping { return Some(Stopped); }
      if kind != Control && !continuation && |waiting| >= maxPending { return Some(QueueFull); }
      sequence := sequence + 1;
      waiting := Push(waiting, Operation(kind, sequence, task));
      return None;
    }

    method Next() returns (op: Operation<T>)
      requires waiting != [] && ValidQueue(View())
      modifies this`waiting, this`active
      ensures View() == Pop(old(View())) && ValidQueue(View()) && op == old(waiting)[0] && active == Some(op.kind)
      ensures forall other | other in old(waiting) :: Rank(op.kind) <= Rank(other.kind)
    {
      forall other | other in waiting ensures Rank(waiting[0].kind) <= Rank(other.kind) { PopIsFirst(View(), other); }
      op := waiting[0];
      PopIsFirst(View(), op);
      waiting, active := waiting[1..], Some(op.kind);
    }

    method Finished()
      modifies this`active
      ensures active.None?
    {
      active := None;
    }

    /** Shutdown drops what still waits. */
    method Close()
      modifies this`waiting, this`stopping
      ensures View() == old(View()).(waiting := [], stopping := true)
    {
      stopping, waiting := true, [];
    }
  }
}
