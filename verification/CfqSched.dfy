/**
  The CFQ scheduler of block/cfq-iosched.c (struct cfq_data): its queues, the service tree with the cached leftmost
  node, the counters kept beside them, and the hooks that change them.

  The time (jiffies) and the verdicts of the preemption and cooperation heuristics are parameters; a Shapes value stands for the
  shape that the rebalancing has left the service tree in.
 */
module CfqSched {
  import opened Elevator
  import opened Wrappers
  import opened CfqTree
  import opened CfqQueue

  // ---------------------------------------------------------------- the service tree

  /** service_tree as the in-order sequence of its queues, service_tree.left, and busy_queues. */
  datatype Rr = Rr(order: seq<nat>, left: Option<nat>, busy: int)

  function DropId(order: seq<nat>, q: nat): (r: seq<nat>)
    ensures forall x :: x in r ==> x in order
  {
    if order == [] then [] else if order[0] == q then DropId(order[1..], q) else [order[0]] + DropId(order[1..], q)
  }

  ghost predicate NoDup(order: seq<nat>) {
    forall i, j :: 0 <= i < j < |order| ==> order[i] != order[j]
  }

  lemma {:induction false} DropIdContents(order: seq<nat>, q: nat)
    requires NoDup(order)
    ensures NoDup(DropId(order, q))
    ensures forall x :: x in DropId(order, q) <==> x in order && x != q
    ensures |DropId(order, q)| == if q in order then |order| - 1 else |order|
    ensures order != [] && order[0] != q ==> DropId(order, q) != [] && DropId(order, q)[0] == order[0]
  {
    if order != [] {
      var t := order[1..];
      assert forall i :: 0 <= i < |t| ==> t[i] == order[i + 1];
      DropIdContents(t, q);
      assert order == [order[0]] + t;
      assert order[0] !in t;
    }
  }

  /** Exactly the queues marked on_rr are on the tree, once each; busy_queues counts them; left, if set, is the first. */
  ghost predicate RrOk(qs: seq<Queue>, rr: Rr) {
    && NoDup(rr.order)
    && (forall q :: q in rr.order ==> q < |qs| && qs[q].onRr)
    && (forall q :: 0 <= q < |qs| && qs[q].onRr ==> q in rr.order)
    && rr.busy == |rr.order|
    && LeftOk(rr)
  }

  ghost predicate LeftOk(rr: Rr) {
    rr.left.Some? ==> rr.order != [] && rr.left.value == rr.order[0]
  }

  /** The same, while queue q is being put on the tree or moved on it. */
  ghost predicate RrExcept(qs: seq<Queue>, rr: Rr, q: nat) {
    && NoDup(rr.order) && q < |qs| && qs[q].onRr
    && (forall x :: x in rr.order ==> x < |qs| && qs[x].onRr)
    && (forall x :: 0 <= x < |qs| && qs[x].onRr && x != q ==> x in rr.order)
    && rr.busy == |DropId(rr.order, q)| + 1
    && LeftOk(rr)
  }

  lemma RrIsExcept(qs: seq<Queue>, rr: Rr, q: nat)
    requires RrOk(qs, rr) && q < |qs| && qs[q].onRr
    ensures RrExcept(qs, rr, q)
  {
    DropIdContents(rr.order, q);
  }

  /** cfq_rb_erase */
  function Erased(rr: Rr, q: nat): Rr {
    Rr(DropId(rr.order, q), if rr.left == Some(q) then None else rr.left, rr.busy)
  }

  /** Erasing keeps the cache right. */
  lemma ErasedLeft(rr: Rr, q: nat)
    requires NoDup(rr.order) && LeftOk(rr)
    ensures LeftOk(Erased(rr, q))
  {}

  /** A queue whose on_rr flag stays as it is. */
  lemma RrSame(qs: seq<Queue>, rr: Rr, q: nat, q': Queue)
    requires RrOk(qs, rr) && q < |qs| && q'.onRr == qs[q].onRr
    ensures RrOk(qs[q := q'], rr)
  {}

  lemma RrExceptSame(qs: seq<Queue>, rr: Rr, q: nat, q': Queue)
    requires RrExcept(qs, rr, q) && q'.onRr
    ensures RrExcept(qs[q := q'], rr, q)
  {}

  /** cfq_del_cfqq_rr; its BUG_ONs cannot fire. */
  lemma RrDel(qs: seq<Queue>, rr: Rr, q: nat, q': Queue)
    requires RrOk(qs, rr) && q < |qs| && qs[q].onRr && !q'.onRr
    ensures rr.busy > 0 && q in rr.order
    ensures RrOk(qs[q := q'], Erased(rr, q).(busy := rr.busy - 1))
  {
    ErasedLeft(rr, q);
    DropIdContents(rr.order, q);
  }

  /** Putting q back at a place of the tree without it; the cache is set exactly if that place is the first. */
  lemma RrInsert(qs: seq<Queue>, rr: Rr, q: nat, place: nat)
    requires RrExcept(qs, rr, q) && place <= |DropId(rr.order, q)|
    ensures var e := Erased(rr, q);
      RrOk(qs, Rr(InsertAt(e.order, place, q), if place == 0 then Some(q) else e.left, rr.busy))
  {
    ErasedLeft(rr, q);
    DropIdContents(rr.order, q);
    InsertAtContents(DropId(rr.order, q), place, q);
  }

  lemma InsertAtContents(d: seq<nat>, place: nat, q: nat)
    requires NoDup(d) && place <= |d| && q !in d
    ensures var o := InsertAt(d, place, q);
      && NoDup(o) && |o| == |d| + 1 && o[0] == (if place == 0 then q else d[0])
      && forall x :: x in o <==> x in d || x == q
  {}

  // ---------------------------------------------------------------- the counters

  /** rq_queued, sync_flight and rq_in_driver. */
  datatype Counts = Counts(rqQueued: int, syncFlight: int, inDriver: PerDir<int>)

  function TotalQueued(qs: seq<Queue>): nat {
    if qs == [] then 0 else TotalQueued(qs[..|qs| - 1]) + |qs[|qs| - 1].fifo|
  }

  function TotalFlight(qs: seq<Queue>): int {
    if qs == [] then 0 else TotalFlight(qs[..|qs| - 1]) + Flight(qs[|qs| - 1])
  }

  function Flight(q: Queue): int { if q.sync then q.dispatched else 0 }

  /** Every request on some fifo. */
  function AllQueued(qs: seq<Queue>): multiset<Request> {
    if qs == [] then multiset{} else AllQueued(qs[..|qs| - 1]) + multiset(qs[|qs| - 1].fifo)
  }

  lemma {:induction false} TotalsUpdate(qs: seq<Queue>, i: nat, q': Queue)
    requires i < |qs|
    ensures TotalQueued(qs[i := q']) == TotalQueued(qs) - |qs[i].fifo| + |q'.fifo|
    ensures TotalFlight(qs[i := q']) == TotalFlight(qs) - Flight(qs[i]) + Flight(q')
  {
    hide Flight;
    var n := |qs| - 1;
    if i == n {
      assert qs[i := q'][..n] == qs[..n];
    } else {
      TotalsUpdate(qs[..n], i, q');
      assert qs[i := q'][..n] == qs[..n][i := q'];
    }
  }

  /** Taking rq off the fifo of a queue takes it off all that is queued. */
  lemma {:induction false} AllQueuedLess(qs: seq<Queue>, i: nat, q': Queue, rq: Request)
    requires i < |qs| && rq in multiset(qs[i].fifo) && multiset(q'.fifo) == multiset(qs[i].fifo) - multiset{rq}
    ensures rq in AllQueued(qs) && AllQueued(qs[i := q']) == AllQueued(qs) - multiset{rq}
  {
    var n := |qs| - 1;
    if i == n {
      assert qs[i := q'][..n] == qs[..n];
    } else {
      AllQueuedLess(qs[..n], i, q', rq);
      assert qs[i := q'][..n] == qs[..n][i := q'];
    }
  }

  /** rq_in_driver counts the requests that the driver has activated and not given back. */
  ghost predicate DriverOk(inDriver: PerDir<int>, driving: PerDir<multiset<Request>>) {
    inDriver == PerDir(|driving.async|, |driving.sync|)
  }

  lemma DriverMore(inDriver: PerDir<int>, driving: PerDir<multiset<Request>>, rq: Request)
    requires DriverOk(inDriver, driving)
    ensures DriverOk(inDriver.Set(rq.dir, inDriver.Get(rq.dir) + 1), driving.Set(rq.dir, driving.Get(rq.dir) + multiset{rq}))
  {}

  lemma DriverLess(inDriver: PerDir<int>, driving: PerDir<multiset<Request>>, rq: Request)
    requires DriverOk(inDriver, driving) && rq in driving.Get(rq.dir)
    ensures inDriver.Get(rq.dir) > 0
    ensures DriverOk(inDriver.Set(rq.dir, inDriver.Get(rq.dir) - 1), driving.Set(rq.dir, driving.Get(rq.dir) - multiset{rq}))
  {}

  ghost predicate CountsOk(qs: seq<Queue>, nr: Counts) {
    nr.rqQueued == TotalQueued(qs) && nr.syncFlight == TotalFlight(qs)
  }

  /** All queues are in order; queue hole has the requests of extra on its fifo only. */
  ghost predicate QueuesOk(qs: seq<Queue>, hole: nat, extra: multiset<Request>) {
    forall i :: 0 <= i < |qs| ==> QueueOk(qs[i], if i == hole then extra else multiset{})
  }

  lemma QueuesUpdate(qs: seq<Queue>, hole: nat, extra: multiset<Request>, q': Queue, extra': multiset<Request>)
    requires QueuesOk(qs, hole, extra) && hole < |qs| && QueueOk(q', extra')
    ensures QueuesOk(qs[hole := q'], hole, extra')
  {}

  lemma QueuesPlain(qs: seq<Queue>, h: nat, h': nat)
    requires QueuesOk(qs, h, multiset{})
    ensures QueuesOk(qs, h', multiset{})
  {}

  // ---------------------------------------------------------------- the scheduler

  function Slots(qs: seq<Queue>): (at: seq<Slot>)
    ensures |at| == |qs| && forall i :: 0 <= i < |qs| ==> at[i] == qs[i].slot
  {
    seq(|qs|, i requires 0 <= i < |qs| => qs[i].slot)
  }

  /** The tree is in service order, with all keys within half the range of jiffies from base on. */
  ghost predicate Ordered(qs: seq<Queue>, rr: Rr, base: nat) {
    && Known(rr.order, Slots(qs))
    && AllInWindow(rr.order, Slots(qs), base)
    && InOrder(rr.order, Slots(qs))
  }

  lemma {:induction false} DropKeepsOrder(order: seq<nat>, at: seq<Slot>, q: nat, base: nat)
    requires Known(order, at) && AllInWindow(order, at, base) && InOrder(order, at)
    ensures var d := DropId(order, q); Known(d, at) && AllInWindow(d, at, base) && InOrder(d, at)
  {
    hide GoesLeft, InWindow;
    if order != [] {
      var t := order[1..];
      assert forall i :: 0 <= i < |t| ==> t[i] == order[i + 1];
      DropKeepsOrder(t, at, q, base);
      var d := DropId(t, q);
      forall i | 0 <= i < |d| ensures !GoesLeft(at[d[i]], at[order[0]]) {
        assert d[i] in t;
      }
    }
  }

  lemma OrderIgnores(order: seq<nat>, at: seq<Slot>, at': seq<Slot>, q: nat, base: nat)
    requires Known(order, at) && |at'| == |at| && q !in order && forall i :: 0 <= i < |at| && i != q ==> at'[i] == at[i]
    requires AllInWindow(order, at, base) && InOrder(order, at)
    ensures Known(order, at') && AllInWindow(order, at', base) && InOrder(order, at')
  {}

  /** cfq_service_tree_add keeps the service order. */
  lemma AddKeepsOrdered(qs: seq<Queue>, rr: Rr, q: nat, q': Queue, shape: Tree, base: nat)
    requires Ordered(qs, rr, base) && NoDup(rr.order) && q < |qs| && InWindow(base, q'.slot)
    requires Inorder(shape) == DropId(rr.order, q)
    ensures Known(Inorder(shape), Slots(qs[q := q']))
    ensures var place := Place(shape, Slots(qs[q := q']), q'.slot);
      && place <= |Inorder(shape)|
      && forall left, busy :: Ordered(qs[q := q'], Rr(InsertAt(Inorder(shape), place, q), left, busy), base)
  {
    hide GoesLeft, InWindow, InOrder, AllInWindow, Place;
    var at, at' := Slots(qs), Slots(qs[q := q']);
    DropIdContents(rr.order, q);
    DropKeepsOrder(rr.order, at, q, base);
    OrderIgnores(DropId(rr.order, q), at, at', q, base);
    AddKeepsOrder(shape, at', q, base);
  }

  lemma {:induction false} InsertedFirst(qs: seq<Queue>, rr: Rr, q: nat, q': Queue, shape: Tree, base: nat)
    requires RrExcept(qs, rr, q) && Ordered(qs, rr, base) && InWindow(base, q'.slot) && Inorder(shape) == DropId(rr.order, q)
    requires Known(Inorder(shape), Slots(qs[q := q']))
    requires Place(shape, Slots(qs[q := q']), q'.slot) <= |Inorder(shape)|
    ensures AtHead(InsertAt(Inorder(shape), Place(shape, Slots(qs[q := q']), q'.slot), q), q)
       <==> GoesFirst(qs, DropId(rr.order, q), q'.slot)
  {
    hide GoesLeft, InWindow, InOrder, AllInWindow, Place, DropId;
    var at, at', d := Slots(qs), Slots(qs[q := q']), DropId(rr.order, q);
    DropIdContents(rr.order, q);
    DropKeepsOrder(rr.order, at, q, base);
    OrderIgnores(d, at, at', q, base);
    PlacedFirst(shape, at', q'.slot, base);
    if d != [] { assert d[0] in d && d[0] != q; }
  }

  /** The request that q serves next once rq is in, as me, is the best one exactly if it was before, or rq is. */
  ghost predicate ServesNext(t: Tunables, last: nat, q: Queue, me: Queue, rq: Request) {
    Best(t, last, me.sorted, me.next) <==> Best(t, last, q.sorted, q.next) || (forall x :: x in q.sorted ==> Beats(t, last, rq, x))
  }

  lemma {:induction false} InsertedNext(q: Queue, t: Tunables, last: nat, rq: Request)
    requires QueueOk(q, multiset{}) && !HasPos(q.sorted, rq.pos)
    ensures ServesNext(t, last, q, Inserted(q, t, last, rq), rq)
  {
    hide Best, Beats, HasPos, ChooseReq, Insert;
    InsertBest(t, last, q.sorted, q.next, rq);
  }

  lemma SlotKeepsNext(t: Tunables, last: nat, q: Queue, me: Queue, me': Queue, rq: Request)
    requires ServesNext(t, last, q, me, rq) && me'.sorted == me.sorted && me'.next == me.next
    ensures ServesNext(t, last, q, me', rq)
  {}

  /** q has a key inside the window, if it is on the tree at all. */
  ghost predicate Timely(q: Queue, base: nat) { q.onRr ==> InWindow(base, q.slot) }

  /** What cfq_service_tree_add leaves in the queue: the key, and no residual slice if that went into the key. */
  function Placed(q: Queue, key: nat, addFront: bool): Queue {
    q.(slot := Slot(q.slot.cls, key), resid := if q.slot.cls == IDLE || addFront then q.resid else 0)
  }

  function WithResid(q: Queue, resid: Option<int>): Queue {
    if resid.Some? then q.(resid := resid.value) else q
  }

  predicate AtHead(order: seq<nat>, q: nat) { order != [] && order[0] == q }

  /** Slot x belongs in front of everything on the tree, which holds order. */
  predicate GoesFirst(qs: seq<Queue>, order: seq<nat>, x: Slot) {
    order == [] || (order[0] < |qs| && GoesLeft(x, qs[order[0]].slot))
  }

  /** No queue on the tree is of a better class than q. */
  predicate BestClass(qs: seq<Queue>, order: seq<nat>, q: nat) {
    q < |qs| && forall i :: 0 <= i < |order| && order[i] < |qs| ==> qs[q].slot.cls.Rank() <= qs[order[i]].slot.cls.Rank()
  }

  /** Whether a preempting queue is put in front. One that is not idle is, unless a queue of a better class is on the tree. An
      idle one is put behind the last queue. So it comes first only if it is alone, or if it is the last itself and its
      delay from now on is over before the turn of the first other queue, which has to be idle as well. */
  predicate ComesFirst(qs: seq<Queue>, order: seq<nat>, q: nat, now: nat, hz: nat) {
    q < |qs| &&
      if qs[q].slot.cls != IDLE then BestClass(qs, order, q)
      else
        var rest := DropId(order, q);
        rest == [] || (order[|order| - 1] == q && GoesFirst(qs, rest, Slot(IDLE, (hz / 5 + now) % WORD)))
  }

  /** The tree was in order, and both queues that a preemption moves have keys inside the window; a second is at least five
      jiffies and less than half their range. */
  ghost predicate InTime(qs: seq<Queue>, rr: Rr, active: Option<nat>, qs': seq<Queue>, q: nat, base: nat, hz: nat) {
    && 5 <= hz <= WORD / 2
    && Ordered(qs, rr, base) && q < |qs'| && InWindow(base, qs'[q].slot)
    && (active.Some? && active.value < |qs'| ==> Timely(qs'[active.value], base))
  }

  /** No busy queue is of a better class. */
  ghost predicate FirstClass(qs: seq<Queue>, q: nat) {
    q < |qs| && forall i :: 0 <= i < |qs| && qs[i].onRr ==> qs[q].slot.cls.Rank() <= qs[i].slot.cls.Rank()
  }

  lemma {:induction false} ClassMeans(qs: seq<Queue>, qs': seq<Queue>, rr: Rr, q: nat, now: nat, hz: nat)
    requires |qs'| == |qs| && RrOk(qs', rr) && q < |qs|
    requires forall i :: 0 <= i < |qs| ==> qs'[i].slot.cls == qs[i].slot.cls && qs'[i].onRr == qs[i].onRr
    ensures qs[q].slot.cls != IDLE ==> (ComesFirst(qs', rr.order, q, now, hz) <==> FirstClass(qs, q))
  {
    assert forall i :: 0 <= i < |rr.order| ==> rr.order[i] in rr.order;
  }

  /** What a tree in order says about its first other queue, rest[0]: it is not later than anything else. */
  lemma {:induction false} FirstOther(o: seq<nat>, at: seq<Slot>, q: nat, i: nat, base: nat)
    requires Known(o, at) && AllInWindow(o, at, base) && InOrder(o, at) && NoDup(o) && i < |o| && o[i] != q
    ensures var rest := DropId(o, q);
      rest != [] && rest[0] < |at| && InWindow(base, at[rest[0]]) && (rest[0] == o[i] || !GoesLeft(at[o[i]], at[rest[0]]))
  {
    hide DropId, GoesLeft, InWindow;
    DropIdContents(o, q);
    DropKeepsOrder(o, at, q, base);
    var rest := DropId(o, q);
    assert o[i] in o && o[i] in rest;
    var k :| 0 <= k < |rest| && rest[k] == o[i];
  }

  /** A queue that is not idle gets a key a second before the first one: it belongs first exactly if its class is the best. */
  lemma {:induction false} BusyGoesFirst(o: seq<nat>, at: seq<Slot>, q: nat, x: Slot, base: nat, hz: nat)
    requires Known(o, at) && AllInWindow(o, at, base) && InOrder(o, at) && NoDup(o) && q < |at| && InWindow(base, x)
    requires DropId(o, q) != [] && o != [] && DropId(o, q)[0] < |at| && 0 < hz <= WORD / 2
    requires x.cls == at[q].cls && x.key == (at[o[0]].key - hz) % WORD
    ensures GoesLeft(x, at[DropId(o, q)[0]]) <==> forall i :: 0 <= i < |o| ==> x.cls.Rank() <= at[o[i]].cls.Rank()
  {
    hide DropId, GoesLeft, InWindow;
    DropIdContents(o, q);
    var h := DropId(o, q)[0];
    assert h in o;
    var n :| 0 <= n < |o| && o[n] == h;
    assert n > 0 ==> !GoesLeft(at[o[n]], at[o[0]]);
    if GoesLeft(x, at[h]) {
      OrderMeaning(base, x, at[h]);
      forall i | 0 <= i < |o| ensures x.cls.Rank() <= at[o[i]].cls.Rank() {
        if o[i] != q {
          FirstOther(o, at, q, i, base);
          OrderMeaning(base, at[o[i]], at[h]);
        }
      }
    }
    if forall i :: 0 <= i < |o| ==> x.cls.Rank() <= at[o[i]].cls.Rank() {
      FrontGoesLeft(base, x, at[o[0]], at[h], n == 0, hz);
    }
  }

  /** A queue that is idle gets a key after the last one, and then it does not belong first. */
  lemma {:induction false} IdleGoesLast(o: seq<nat>, at: seq<Slot>, q: nat, x: Slot, base: nat, hz: nat)
    requires Known(o, at) && AllInWindow(o, at, base) && InOrder(o, at) && NoDup(o) && InWindow(base, x)
    requires o != [] && o[|o| - 1] != q && 5 <= hz <= WORD / 2
    requires x.cls == IDLE && x.key == (hz / 5 + at[o[|o| - 1]].key) % WORD
    ensures DropId(o, q) != [] && DropId(o, q)[0] < |at| && !GoesLeft(x, at[DropId(o, q)[0]])
    ensures !GoesLeft(x, at[o[|o| - 1]])
  {
    hide DropId, GoesLeft, InWindow;
    var m := at[o[|o| - 1]];
    FirstOther(o, at, q, |o| - 1, base);
    LaterKey(base, x, m, hz / 5);
    OrderMeaning(base, x, m);
    OrderTransitive(base, x, m, at[DropId(o, q)[0]]);
  }

  lemma {:induction false} LaterKey(base: nat, x: Slot, y: Slot, n: nat)
    requires InWindow(base, x) && InWindow(base, y) && x.key == (n + y.key) % WORD && 0 < n <= WORD / 2
    ensures (x.key - base) % WORD > (y.key - base) % WORD
  {
    Distance(base, x.key);
    Distance(base, y.key);
  }

  lemma {:induction false} Distance(base: nat, key: nat)
    requires base < WORD && key < WORD
    ensures (key - base) % WORD == if key >= base then key - base else key - base + WORD
  {}

  /** A queue that keeps its key, and so its place, is first exactly if it belongs there. */
  lemma {:induction false} StaysFirst(o: seq<nat>, at: seq<Slot>, q: nat, base: nat, now: nat, hz: nat)
    requires Known(o, at) && AllInWindow(o, at, base) && InOrder(o, at) && NoDup(o) && q in o && q < |at| && 5 <= hz <= WORD / 2
    requires at[q].key == FrontKey(o, at, q, now, hz)
    ensures AtHead(o, q) <==> DropId(o, q) == [] || (DropId(o, q)[0] < |at| && GoesLeft(at[q], at[DropId(o, q)[0]]))
  {
    hide DropId, GoesLeft;
    DropIdContents(o, q);
    var i :| 0 <= i < |o| && o[i] == q;
    var last := o[|o| - 1];
    if i == 0 && |o| > 1 {
      assert at[q].key < WORD;
      assert at[q].cls == IDLE;
      IdleGoesLast(o, at, q, at[q], base, hz);
      assert !GoesLeft(at[last], at[o[0]]);
      LaterKey(base, at[q], at[last], hz / 5);
      OrderMeaning(base, at[last], at[q]);
      assert false;
    }
    if i > 0 {
      assert DropId(o, q)[0] == o[0] && !GoesLeft(at[o[i]], at[o[0]]);
    }
  }

  /** The key of a preempting queue: KeyFor in terms of the slots. */
  function FrontKey(o: seq<nat>, at: seq<Slot>, q: nat, now: nat, hz: nat): nat
    requires q < |at| && Known(o, at)
  {
    var n := |o|;
    if at[q].cls == IDLE then (hz / 5 + if n > 0 && o[n - 1] != q then at[o[n - 1]].key else now) % WORD
    else ((if n > 0 then at[o[0]].key else now) - hz) % WORD
  }

  /** Belonging first is what ComesFirst says. */
  lemma {:induction false} FirstMeans(qs: seq<Queue>, rr: Rr, q: nat, x: Slot, base: nat, now: nat, hz: nat)
    requires RrExcept(qs, rr, q) && Ordered(qs, rr, base) && InWindow(base, x) && 5 <= hz <= WORD / 2
    requires x == Slot(qs[q].slot.cls, FrontKey(rr.order, Slots(qs), q, now, hz))
    ensures GoesFirst(qs, DropId(rr.order, q), x) <==> ComesFirst(qs, rr.order, q, now, hz)
  {
    hide DropId, GoesLeft, InWindow;
    var o, at := rr.order, Slots(qs);
    var rest := DropId(o, q);
    DropIdContents(o, q);
    if rest == [] {
      assert forall i :: 0 <= i < |o| ==> o[i] in o && o[i] == q;
    } else {
      assert rest[0] in rest && rest[0] in o;
      if x.cls != IDLE {
        BusyGoesFirst(o, at, q, x, base, hz);
      } else if o[|o| - 1] != q {
        IdleGoesLast(o, at, q, x, base, hz);
      }
    }
  }

  /** x is a second before f, and f is not later than h. */
  lemma {:induction false} FrontGoesLeft(base: nat, x: Slot, f: Slot, h: Slot, same: bool, hz: nat)
    requires InWindow(base, x) && InWindow(base, f) && InWindow(base, h) && 0 < hz <= WORD / 2
    requires x.key == (f.key - hz) % WORD && x.cls.Rank() <= f.cls.Rank()
    requires if same then h == f else !GoesLeft(h, f)
    ensures GoesLeft(x, h)
  {
    OrderMeaning(base, x, h);
    OrderMeaning(base, h, f);
    EarlierKey(base, x, f, hz);
  }

  lemma {:induction false} EarlierKey(base: nat, x: Slot, y: Slot, hz: nat)
    requires InWindow(base, x) && InWindow(base, y) && x.key == (y.key - hz) % WORD && 0 < hz <= WORD / 2
    ensures (x.key - base) % WORD < (y.key - base) % WORD
  {
    Distance(base, x.key);
    Distance(base, y.key);
  }

  lemma {:induction false} SmallCut(b: int, prio: nat)
    requires 0 <= b && prio < 8
    ensures 0 <= b + b / 5 * (4 - prio) && (0 < b ==> 0 < b + b / 5 * (4 - prio))
  {
    Scaled(b / 5, -3, 4 - prio);
  }

  lemma {:induction false} Scaled(n: int, x: int, y: int)
    requires 0 <= n && x <= y
    ensures n * x <= n * y
  {
    assert n * y - n * x == n * (y - x);
  }

  lemma {:induction false} DropInserted(order: seq<nat>, place: nat, q: nat)
    requires place <= |DropId(order, q)|
    ensures DropId(InsertAt(DropId(order, q), place, q), q) == DropId(order, q)
  {
    hide DropId;
    var d := DropId(order, q);
    var a, b := d[..place], d[place..];
    DropTwice(order, q);
    DropConcat(a, [q] + b, q);
    DropConcat([q], b, q);
    DropConcat(a, b, q);
    DropOne(q);
    assert d == a + b && InsertAt(d, place, q) == a + ([q] + b);
    assert [] + DropId(b, q) == DropId(b, q);
  }

  lemma DropOne(q: nat)
    ensures DropId([q], q) == []
  {}

  lemma {:induction false} DropConcat(a: seq<nat>, b: seq<nat>, q: nat)
    ensures DropId(a + b, q) == DropId(a, q) + DropId(b, q)
  {
    if a == [] {
      assert a + b == b;
    } else {
      var t := a[1..];
      DropConcat(t, b, q);
      assert (a + b)[1..] == t + b && (a + b)[0] == a[0];
      assert [a[0]] + (DropId(t, q) + DropId(b, q)) == ([a[0]] + DropId(t, q)) + DropId(b, q);
    }
  }

  /** Any way in which the rebalancing may leave the tree: a shape for every order. */
  type Shapes = f: seq<nat> -> Tree | forall o :: Inorder(f(o)) == o witness Spine

  function Spine(order: seq<nat>): (t: Tree)
    ensures Inorder(t) == order
  {
    if order == [] then Leaf else Node(Leaf, order[0], Spine(order[1..]))
  }

  class CfqData {
    var qs: seq<Queue>
    var rr: Rr
    var nr: Counts
    var active: Option<nat>
    var lastPosition: nat

    const tun: Tunables
    const hz: nat
    const slice: PerDir<int>

    /** Every request handed to the dispatch list so far, and the requests that the driver has activated. */
    ghost var sent: multiset<Request>
    ghost var driving: PerDir<multiset<Request>>

    /** Everything agrees, but for a request that a front merge has taken off the sorted list of queue hole. */
    ghost predicate ValidExcept(hole: nat, extra: multiset<Request>)
      reads this
    {
      && QueuesOk(qs, hole, extra) && CountsOk(qs, nr) && RrOk(qs, rr) && DriverOk(nr.inDriver, driving)
      && (active.Some? ==> active.value < |qs|)
    }

    ghost predicate Valid()
      reads this
    {
      ValidExcept(0, multiset{})
    }

    constructor (hz: nat, tun: Tunables)
      ensures Valid() && qs == [] && sent == multiset{} && rr == Rr([], None, 0) && active == None
      ensures this.hz == hz && this.tun == tun && slice == PerDir(hz / 25, hz / 10)
    {
      this.hz, this.tun, slice := hz, tun, PerDir(hz / 25, hz / 10);
      qs, rr, nr, active, lastPosition := [], Rr([], None, 0), Counts(0, 0, PerDir(0, 0)), None, 0;
      sent, driving := multiset{}, PerDir(multiset{}, multiset{});
    }

    // -------------------------------------------------------------- the service tree

    /** cfq_rb_first: the cache may be filled, and the answer is the first queue of the tree. */
    method RbFirst() returns (q: Option<nat>)
      requires LeftOk(rr)
      modifies this`rr
      ensures rr == old(rr).(left := rr.left) && LeftOk(rr)
      ensures q == if rr.order == [] then None else Some(rr.order[0])
    {
      if rr.left == None && rr.order != [] {
        rr := rr.(left := Some(rr.order[0]));
      }
      q := rr.left;
    }

    /** cfq_prio_slice */
    function PrioSlice(sync: bool, prio: nat): int {
      var b := if sync then slice.sync else slice.async;
      b + b / 5 * (4 - prio)
    }

    /** cfq_slice_offset */
    function SliceOffset(busy: int, sync: bool, prio: nat): int { (busy - 1) * (PrioSlice(true, 0) - PrioSlice(sync, prio)) }

    /** Priority 4 has the base slice and every step up or down is worth a fifth of it, so that a queue of any of the eight
        priorities gets some time. */
    lemma {:induction false} SliceByPriority(sync: bool, prio: nat)
      requires 0 <= slice.async && 0 <= slice.sync
      ensures PrioSlice(sync, 4) == (if sync then slice.sync else slice.async)
      ensures PrioSlice(sync, prio) == PrioSlice(sync, prio + 1) + PrioSlice(sync, 4) / 5
      ensures prio < 8 ==> 0 <= PrioSlice(sync, prio) && (0 < PrioSlice(sync, 4) ==> 0 < PrioSlice(sync, prio))
    {
      var b := if sync then slice.sync else slice.async;
      assert b / 5 * (4 - prio) == b / 5 * (4 - (prio + 1)) + b / 5;
      if prio < 8 { SmallCut(b, prio); }
    }

    /** The turn of a busy queue is put off by nothing if it is the only one or the most favoured, and the more, the more queues
        are busy and the shorter its own slice is. */
    lemma {:induction false} TurnsByPriority(busy: int, sync: bool, prio: nat, sync': bool, prio': nat)
      requires 0 <= slice.async <= slice.sync && 1 <= busy
      ensures SliceOffset(1, sync, prio) == SliceOffset(busy, true, 0) == 0 <= SliceOffset(busy, sync, prio)
      ensures PrioSlice(sync, prio) <= PrioSlice(sync', prio') ==> SliceOffset(busy, sync', prio') <= SliceOffset(busy, sync, prio)
      ensures SliceOffset(busy + 1, sync, prio) == SliceOffset(busy, sync, prio) + PrioSlice(true, 0) - PrioSlice(sync, prio)
    {
      var d, d' := PrioSlice(true, 0) - PrioSlice(sync, prio), PrioSlice(true, 0) - PrioSlice(sync', prio');
      LongestSlice(sync, prio);
      Scaled(busy - 1, 0, d);
      if d' <= d { Scaled(busy - 1, d', d); }
    }

    lemma {:induction false} LongestSlice(sync: bool, prio: nat)
      requires 0 <= slice.async <= slice.sync
      ensures PrioSlice(sync, prio) <= PrioSlice(true, 0)
    {
      var b := if sync then slice.sync else slice.async;
      Scaled(b / 5, 4 - prio, 4);
    }

    /** The service time of queue q, an unsigned long: an idle queue comes after the last one of the tree, a preempting one
        before the first, and any other at the end of its turn, later for a lower priority and an overrun slice. */
    function KeyFor(qs: seq<Queue>, order: seq<nat>, busy: int, q: nat, addFront: bool, now: nat): (key: nat)
      requires q < |qs| && forall x :: x in order ==> x < |qs|
      ensures key < WORD
    {
      var me, n := qs[q], |order|;
      assert n > 0 ==> order[0] in order && order[n - 1] in order;
      if me.slot.cls == IDLE then
        (hz / 5 + if n > 0 && order[n - 1] != q then qs[order[n - 1]].slot.key else now) % WORD
      else if !addFront then
        (SliceOffset(busy, me.sync, me.ioprio) + now - me.resid) % WORD
      else
        ((if n > 0 then qs[order[0]].slot.key else now) - hz) % WORD
    }

    /** cfq_service_tree_add. The tree keeps its service order if the new key stays in the window, and a preempting queue is
        put in front exactly if ComesFirst. */
    method ServiceTreeAdd(q: nat, addFront: bool, now: nat, shapes: Shapes)
      requires RrExcept(qs, rr, q)
      modifies this`rr, this`qs
      ensures RrOk(qs, rr) && rr.busy == old(rr).busy && DropId(rr.order, q) == DropId(old(rr).order, q)
      ensures qs == old(qs)[q := Placed(old(qs)[q], old(KeyFor(qs, rr.order, rr.busy, q, addFront, now)), addFront)]
      ensures forall base :: Ordered(old(qs), old(rr), base) && InWindow(base, qs[q].slot) ==> Ordered(qs, rr, base)
      ensures addFront && 5 <= hz <= WORD / 2 ==>
        forall base :: Ordered(old(qs), old(rr), base) && InWindow(base, qs[q].slot) ==>
          (AtHead(rr.order, q) <==> ComesFirst(old(qs), old(rr).order, q, now, hz))
    {
      hide DriverOk, RrOk, RrExcept, ComesFirst, GoesFirst, AtHead;
      hide GoesLeft, InWindow, Ordered, NoDup, DropId, CfqData.KeyFor;
      InExcept(qs, rr, q);
      var key, resid := NewKey(q, addFront, now);
      OrderedLeft(qs, old(rr), rr);
      var me := qs[q].(slot := Slot(qs[q].slot.cls, key), resid := resid);
      ghost var stays := q in rr.order && key == qs[q].slot.key;
      if q in rr.order && key == qs[q].slot.key {
        qs := qs[q := me];
        SameTree(old(qs), rr, q, me);
      } else {
        PutOnTree(q, me, shapes);
      }
      if addFront && 5 <= hz <= WORD / 2 {
        forall base | Ordered(old(qs), old(rr), base) && InWindow(base, qs[q].slot)
          ensures AtHead(rr.order, q) <==> ComesFirst(old(qs), old(rr).order, q, now, hz)
        {
          FrontIff(old(qs), old(rr), qs, rr, q, now, base, stays);
        }
      }
    }

    lemma {:induction false} FrontIff(qs: seq<Queue>, rr: Rr, qs': seq<Queue>, rr': Rr, q: nat, now: nat, base: nat, stays: bool)
      requires RrExcept(qs, rr, q) && Ordered(qs, rr, base) && 5 <= hz <= WORD / 2
      requires var key := KeyFor(qs, rr.order, rr.busy, q, true, now);
        && qs' == qs[q := Placed(qs[q], key, true)] && InWindow(base, qs'[q].slot)
        && (stays ==> q in rr.order && key == qs[q].slot.key && rr'.order == rr.order)
        && (!stays ==> (AtHead(rr'.order, q) <==> GoesFirst(qs, DropId(rr.order, q), qs'[q].slot)))
      ensures AtHead(rr'.order, q) <==> ComesFirst(qs, rr.order, q, now, hz)
    {
      hide GoesLeft, InWindow, NoDup, DropId, ComesFirst;
      var x := qs'[q].slot;
      assert rr.order != [] ==> rr.order[0] in rr.order && rr.order[|rr.order| - 1] in rr.order;
      assert x == Slot(qs[q].slot.cls, FrontKey(rr.order, Slots(qs), q, now, hz));
      FirstMeans(qs, rr, q, x, base, now, hz);
      if stays { StaysFirst(rr.order, Slots(qs), q, base, now, hz); }
    }

    /** Its first half: the new key, and the residual slice that it uses up. */
    method NewKey(q: nat, addFront: bool, now: nat) returns (key: nat, resid: int)
      requires RrExcept(qs, rr, q)
      modifies this`rr
      ensures key == old(KeyFor(qs, rr.order, rr.busy, q, addFront, now))
      ensures resid == if old(qs)[q].slot.cls != IDLE && !addFront then 0 else old(qs)[q].resid
      ensures RrExcept(qs, rr, q) && rr == old(rr).(left := rr.left)
    {
      hide DriverOk, NoDup, DropId, SliceOffset;
      var me := qs[q];
      resid := me.resid;
      if me.slot.cls == IDLE {
        var n := |rr.order|;
        assert n > 0 ==> rr.order[n - 1] in rr.order;
        key := (hz / 5 + if n > 0 && rr.order[n - 1] != q then qs[rr.order[n - 1]].slot.key else now) % WORD;
      } else if !addFront {
        key := (SliceOffset(rr.busy, me.sync, me.ioprio) + now - resid) % WORD;
        resid := 0;
      } else {
        var first := RbFirst();
        assert first.Some? ==> first.value in rr.order;
        key := ((if first.Some? then qs[first.value].slot.key else now) - hz) % WORD;
      }
    }

    /** The second half of it: off the tree if it is on it, the walk, and back on it. */
    method PutOnTree(q: nat, me: Queue, shapes: Shapes)
      requires RrExcept(qs, rr, q) && me.onRr
      modifies this`rr, this`qs
      ensures qs == old(qs)[q := me] && RrOk(qs, rr) && rr.busy == old(rr).busy && DropId(rr.order, q) == DropId(old(rr).order, q)
      ensures forall base :: Ordered(old(qs), old(rr), base) && InWindow(base, me.slot) ==> Ordered(qs, rr, base)
      ensures forall base :: Ordered(old(qs), old(rr), base) && InWindow(base, me.slot) ==>
        (AtHead(rr.order, q) <==> GoesFirst(old(qs), DropId(old(rr).order, q), me.slot))
    {
      hide DriverOk, GoesLeft, InWindow, Ordered, Place, DropId, InsertAt, NoDup, AtHead, GoesFirst;
      qs := qs[q := me];
      RrExceptSame(old(qs), rr, q, me);
      var at := Slots(qs);
      var shape := shapes(DropId(rr.order, q));
      KnownTree(qs, rr, q, shape);
      var place, left := Walk(shape, at, me.slot);
      RrInsert(qs, rr, q, place);
      DropInserted(rr.order, place, q);
      var e := Erased(rr, q);
      rr := Rr(InsertAt(e.order, place, q), if left then Some(q) else e.left, rr.busy);
      forall base | Ordered(old(qs), old(rr), base) && InWindow(base, me.slot)
        ensures Ordered(qs, rr, base) && (AtHead(rr.order, q) <==> GoesFirst(old(qs), DropId(old(rr).order, q), me.slot))
      {
        AddKeepsOrdered(old(qs), old(rr), q, me, shape, base);
        InsertedFirst(old(qs), old(rr), q, me, shape, base);
      }
    }

    /** cfq_resort_rr_list */
    method ResortRrList(q: nat, now: nat, shapes: Shapes)
      requires Valid() && q < |qs|
      modifies this`rr, this`qs
      ensures Valid() && |qs| == |old(qs)| && rr.busy == old(rr).busy && DropId(rr.order, q) == DropId(old(rr).order, q)
      ensures qs == if old(qs)[q].onRr then old(qs[q := Placed(qs[q], KeyFor(qs, rr.order, rr.busy, q, false, now), false)]) else old(qs)
      ensures !old(qs)[q].onRr ==> rr == old(rr)
      ensures forall base :: Ordered(old(qs), old(rr), base) && Timely(qs[q], base) ==> Ordered(qs, rr, base)
    {
      hide DriverOk, DropId, CfqData.KeyFor;
      hide QueueOk, QueuesOk, RrOk, RrExcept, InWindow, Ordered, TotalQueued, TotalFlight, Inorder;
      if qs[q].onRr {
        RrIsExcept(qs, rr, q);
        ServiceTreeAdd(q, false, now, shapes);
        OnlySlotChanged(old(qs), q, qs[q]);
        TotalsUpdate(old(qs), q, qs[q]);
      }
    }

    /** The queues once the slice of q, which is busy, is over and q has its next turn. */
    ghost function Parked(qs: seq<Queue>, rr: Rr, q: nat, resid: Option<int>, now: nat): seq<Queue>
      requires q < |qs| && forall x :: x in rr.order ==> x < |qs|
    {
      var qs1 := qs[q := WithResid(qs[q], resid)];
      qs1[q := Placed(qs1[q], KeyFor(qs1, rr.order, rr.busy, q, false, now), false)]
    }

    /** cfq_slice_expired; resid is what is left of the slice, if that is to be stored. */
    method SliceExpired(now: nat, resid: Option<int>, shapes: Shapes)
      requires Valid()
      modifies this`rr, this`qs, this`active
      ensures Valid() && active == None && |qs| == |old(qs)|
      ensures old(active) == None ==> qs == old(qs) && rr == old(rr)
      ensures old(active).Some? ==> var q := old(active).value;
        && qs == (if old(qs)[q].onRr then old(Parked(qs, rr, q, resid, now)) else old(qs[q := WithResid(qs[q], resid)]))
        && DropId(rr.order, q) == DropId(old(rr).order, q) && (!old(qs)[q].onRr ==> rr == old(rr))
        && qs == old(qs)[q := old(qs)[q].(slot := Slot(old(qs)[q].slot.cls, qs[q].slot.key), resid := qs[q].resid)]
      ensures forall base ::
        (Ordered(old(qs), old(rr), base) && (old(active).Some? ==> Timely(qs[old(active).value], base))) ==> Ordered(qs, rr, base)
    {
      hide DriverOk, DropId, CfqData.KeyFor;
      hide QueueOk, QueuesOk, RrOk, InWindow, Ordered, TotalQueued, TotalFlight, Inorder;
      if active.Some? {
        var q := active.value;
        if resid.Some? {
          var me := qs[q].(resid := resid.value);
          OnlySlotChanged(qs, q, me);
          TotalsUpdate(qs, q, me);
          RrSame(qs, rr, q, me);
          JoinOrdered(qs, rr, q, me);
          qs := qs[q := me];
        }
        assert qs == old(qs)[q := WithResid(old(qs)[q], resid)];
        ResortRrList(q, now, shapes);
        active := None;
      }
    }

    // -------------------------------------------------------------- requests

    /** cfq_remove_request: off both lists, and off the service tree with the last request. */
    method RemoveRequest(q: nat, rq: Request)
      requires Valid() && q < |qs| && rq in qs[q].sorted
      modifies this`qs, this`rr, this`nr
      ensures Valid() && rq in old(qs)[q].fifo
      ensures qs == old(qs)[q := Removed(old(qs)[q], tun, lastPosition, rq)]
      ensures nr == old(nr).(rqQueued := old(nr).rqQueued - 1)
      ensures rr == if qs[q].onRr then old(rr) else Erased(old(rr), q).(busy := old(rr).busy - 1)
      ensures forall base :: Ordered(old(qs), old(rr), base) ==> Ordered(qs, rr, base)
    {
      hide DriverOk, QueueOk, Removed, TotalQueued, TotalFlight, Sorted, Ordered;
      QueuesPlain(qs, 0, q);
      RemovedOk(qs[q], multiset{}, tun, lastPosition, rq);
      var me := RemoveFrom(qs[q], tun, lastPosition, rq);
      Leave(q, me, multiset{});
      nr := nr.(rqQueued := nr.rqQueued - 1);
      QueuesPlain(qs, q, 0);
    }

    /** The queue becomes me, which has lost a request; it leaves the service tree with the last one. */
    method Leave(q: nat, me: Queue, ghost extra: multiset<Request>)
      requires QueuesOk(qs, q, extra) && RrOk(qs, rr) && q < |qs| && QueueOk(me, extra)
      requires qs[q].sorted != [] && me.slot == qs[q].slot
      modifies this`qs, this`rr
      ensures QueuesOk(qs, q, extra) && RrOk(qs, rr) && qs == old(qs)[q := me]
      ensures rr == if me.onRr then old(rr) else Erased(old(rr), q).(busy := old(rr).busy - 1)
      ensures TotalQueued(qs) == TotalQueued(old(qs)) - |old(qs)[q].fifo| + |me.fifo|
      ensures TotalFlight(qs) == TotalFlight(old(qs)) - Flight(old(qs)[q]) + Flight(me)
      ensures forall base :: Ordered(old(qs), old(rr), base) ==> Ordered(qs, rr, base)
    {
      hide DriverOk, Ordered, QueuesOk, RrOk, TotalQueued, TotalFlight, Flight;
      assert qs[q].onRr by { OnRr(qs, q, extra); }
      QueuesUpdate(qs, q, extra, me, extra);
      TotalsUpdate(qs, q, me);
      if me.sorted == [] {
        RrDel(qs, rr, q, me);
        DropOrdered(qs, rr, q, me);
        rr := Erased(rr, q).(busy := rr.busy - 1);
      } else {
        RrSame(qs, rr, q, me);
        JoinOrdered(qs, rr, q, me);
      }
      qs := qs[q := me];
    }

    /** cfq_dispatch_insert */
    method DispatchInsert(q: nat, rq: Request, ghost extra: multiset<Request>)
      requires ValidExcept(q, extra) && q < |qs| && rq in qs[q].sorted
      modifies this`qs, this`rr, this`nr, this`sent
      ensures ValidExcept(q, extra) && rq in old(qs)[q].fifo && |qs| == |old(qs)| && NextOk(qs[q])
      ensures qs == old(qs)[q := Dispatched(old(qs)[q], tun, lastPosition, rq)]
      ensures rr == if qs[q].onRr then old(rr) else Erased(old(rr), q).(busy := old(rr).busy - 1)
      ensures nr.rqQueued == old(nr).rqQueued - 1
      ensures sent == old(sent) + multiset{rq} && AllQueued(qs) == AllQueued(old(qs)) - multiset{rq}
      ensures rq in AllQueued(old(qs)) && multiset(qs[q].sorted) == multiset(old(qs)[q].sorted) - multiset{rq}
      ensures forall base :: Ordered(old(qs), old(rr), base) ==> Ordered(qs, rr, base)
    {
      hide DriverOk, Ordered, QueueOk, Dispatched, TotalQueued, TotalFlight, Sorted, AllQueued, RrOk;
      DispatchedOk(qs[q], extra, tun, lastPosition, rq);
      var me := DispatchFrom(qs[q], tun, lastPosition, rq);
      assert rq in multiset(qs[q].fifo);
      AllQueuedLess(qs, q, me, rq);
      Leave(q, me, extra);
      nr := nr.(rqQueued := nr.rqQueued - 1, syncFlight := if me.sync then nr.syncFlight + 1 else nr.syncFlight);
      sent := sent + multiset{rq};
    }

    /** The alias loop of cfq_add_rq_rb: a request at the same sector goes to the dispatch list, and then the sector is free. */
    method ClearSector(q: nat, pos: nat, ghost extra: multiset<Request>) returns (ghost alias: Option<Request>)
      requires ValidExcept(q, extra) && q < |qs|
      modifies this`qs, this`rr, this`nr, this`sent
      ensures ValidExcept(q, extra) && |qs| == |old(qs)| && !HasPos(qs[q].sorted, pos)
      ensures alias == AtPos(old(qs)[q].sorted, pos)
      ensures Cleared(old(qs), qs, q, alias, tun, lastPosition)
      ensures sent == old(sent) + Bag(alias) && nr.rqQueued == old(nr).rqQueued - |Bag(alias)|
      ensures DropId(rr.order, q) == DropId(old(rr).order, q)
      ensures rr.busy == old(rr).busy - (if old(qs)[q].onRr && !qs[q].onRr then 1 else 0)
      ensures !old(qs)[q].onRr ==> !qs[q].onRr
      ensures forall base :: Ordered(old(qs), old(rr), base) ==> Ordered(qs, rr, base)
    {
      hide DriverOk, Ordered, QueuesOk, CountsOk, RrOk, Dispatched, HasPos, NextOk;
      var found := AtPos(qs[q].sorted, pos);
      alias := found;
      while found.Some?
        invariant ValidExcept(q, extra) && |qs| == |old(qs)|
        invariant found == AtPos(qs[q].sorted, pos)
        invariant found == alias ==> qs == old(qs) && rr == old(rr) && nr == old(nr) && sent == old(sent)
        invariant found != alias ==> alias.Some? && found == None
        invariant found == None ==> Cleared(old(qs), qs, q, alias, tun, lastPosition)
        invariant found == None ==> sent == old(sent) + Bag(alias) && nr.rqQueued == old(nr).rqQueued - |Bag(alias)|
        invariant DropId(rr.order, q) == DropId(old(rr).order, q)
        invariant rr.busy == old(rr).busy - (if old(qs)[q].onRr && !qs[q].onRr then 1 else 0)
        invariant !old(qs)[q].onRr ==> !qs[q].onRr
        invariant forall base :: Ordered(old(qs), old(rr), base) ==> Ordered(qs, rr, base)
        decreases found.Some?
      {
        DropTwice(rr.order, q);
        assert qs[q].onRr by { OnRr(qs, q, extra); }
        AliasGone(qs, q, extra, found.value, tun, lastPosition);
        DispatchInsert(q, found.value, extra);
        found := AtPos(qs[q].sorted, pos);
      }
    }

    /** The rest of cfq_add_rq_rb: rq is sorted in, and a queue that was idle joins the service tree. */
    method Join(q: nat, me: Queue, now: nat, shapes: Shapes)
      requires q < |qs| && RrOk(qs, rr) && me.onRr && me.slot == qs[q].slot && me.sync == qs[q].sync && me.dispatched == qs[q].dispatched
      modifies this`qs, this`rr
      ensures RrOk(qs, rr) && |qs| == |old(qs)| && qs == old(qs)[q := me.(slot := qs[q].slot, resid := qs[q].resid)]
      ensures old(qs)[q].onRr ==> qs == old(qs)[q := me] && rr == old(rr)
      ensures !old(qs)[q].onRr ==>
        qs == old(qs)[q := Placed(me, KeyFor(old(qs)[q := me], old(rr).order, old(rr).busy + 1, q, false, now), false)]
      ensures rr.busy == old(rr).busy + (if old(qs)[q].onRr then 0 else 1) && DropId(rr.order, q) == DropId(old(rr).order, q)
      ensures forall base :: Ordered(old(qs), old(rr), base) && InWindow(base, qs[q].slot) ==> Ordered(qs, rr, base)
    {
      hide DriverOk, Ordered, InWindow, RrOk, RrExcept, Inorder, DropId, CfqData.KeyFor;
      JoinOrdered(qs, rr, q, me);
      if qs[q].onRr {
        RrSame(qs, rr, q, me);
        qs := qs[q := me];
      } else {
        JoinExcept(qs, rr, q, me);
        qs := qs[q := me];
        rr := rr.(busy := rr.busy + 1);
        OrderedLeft(qs, old(rr), rr);
        ServiceTreeAdd(q, false, now, shapes);
      }
    }

    /** cfq_insert_request; mid are the queues once the alias, if any, is gone. */
    method InsertRequest(q: nat, rq: Request, now: nat, shapes: Shapes) returns (ghost alias: Option<Request>, ghost mid: seq<Queue>)
      requires Valid() && q < |qs|
      modifies this`qs, this`rr, this`nr, this`sent
      ensures Valid() && |qs| == |old(qs)| && qs[q].onRr
      ensures alias == AtPos(old(qs)[q].sorted, rq.pos)
      ensures sent == old(sent) + Bag(alias) && nr.rqQueued == old(nr).rqQueued - |Bag(alias)| + 1
      ensures rr.busy == old(rr).busy + (if old(qs)[q].onRr then 0 else 1) && DropId(rr.order, q) == DropId(old(rr).order, q)
      ensures |mid| == |qs| && Cleared(old(qs), mid, q, alias, tun, lastPosition)
      ensures var me := Inserted(mid[q], tun, lastPosition, rq);
        qs == old(qs)[q := if mid[q].onRr then me
                           else Placed(me, KeyFor(mid[q := me], DropId(old(rr).order, q), rr.busy, q, false, now), false)]
      ensures ServesNext(tun, lastPosition, mid[q], qs[q], rq)
      ensures forall base :: Ordered(old(qs), old(rr), base) && InWindow(base, qs[q].slot) ==> Ordered(qs, rr, base)
    {
      hide ServesNext, DriverOk, QueueOk, QueuesOk, RrOk, Cleared, Inserted, HasPos, CountsOk, Bag, Ordered, InWindow, DropId, CfqData.KeyFor, Placed;
      QueuesPlain(qs, 0, q);
      alias := ClearSector(q, rq.pos, multiset{});
      mid := qs;
      ClearedOthers(old(qs), mid, q, alias, tun, lastPosition);
      if !qs[q].onRr { OffTree(qs, rr, q); }
      InsertFree(q, rq, now, shapes);
    }

    /** The rest of it, where the sector of rq is free. */
    method InsertFree(q: nat, rq: Request, now: nat, shapes: Shapes)
      requires ValidExcept(q, multiset{}) && q < |qs| && !HasPos(qs[q].sorted, rq.pos)
      modifies this`qs, this`rr, this`nr
      ensures Valid() && |qs| == |old(qs)| && qs[q].onRr && nr.rqQueued == old(nr).rqQueued + 1
      ensures rr.busy == old(rr).busy + (if old(qs)[q].onRr then 0 else 1) && DropId(rr.order, q) == DropId(old(rr).order, q)
      ensures var me := Inserted(old(qs)[q], tun, lastPosition, rq);
        qs == old(qs)[q := if old(qs)[q].onRr then me
                           else Placed(me, KeyFor(old(qs)[q := me], old(rr).order, rr.busy, q, false, now), false)]
      ensures ServesNext(tun, lastPosition, old(qs)[q], qs[q], rq)
      ensures forall base :: Ordered(old(qs), old(rr), base) && InWindow(base, qs[q].slot) ==> Ordered(qs, rr, base)
    {
      hide ServesNext, DriverOk, QueueOk, QueuesOk, RrOk, Inserted, HasPos, CountsOk, Inorder, Ordered, InWindow, DropId, CfqData.KeyFor, Placed;
      QueueAt(qs, q, multiset{});
      InsertedOk(qs[q], tun, lastPosition, rq);
      InsertedKeeps(qs[q], tun, lastPosition, rq);
      InsertedNext(qs[q], tun, lastPosition, rq);
      var me := InsertInto(qs[q], tun, lastPosition, rq);
      Join(q, me, now, shapes);
      SlotKeepsQueue(me, qs[q], multiset{});
      SlotKeepsNext(tun, lastPosition, old(qs)[q], me, qs[q], rq);
      QueuesUpdate(old(qs), q, multiset{}, qs[q], multiset{});
      CountsMore(old(qs), nr, q, qs[q]);
      nr := nr.(rqQueued := nr.rqQueued + 1);
      QueuesPlain(qs, q, 0);
    }

    /** cfq_merged_request after a front merge: rq now starts at pos, where another request may already start. */
    method FrontMerged(q: nat, rq: Request, pos: nat, sectors: nat, now: nat, shapes: Shapes) returns (ghost alias: Option<Request>)
      requires Valid() && q < |qs| && rq in qs[q].sorted
      modifies this`qs, this`rr, this`nr, this`sent
      ensures Valid() && |qs| == |old(qs)| && qs[q].onRr && rq.(pos := pos, sectors := sectors) in qs[q].sorted
      ensures alias == AtPos(Remove(old(qs)[q].sorted, rq), pos)
      ensures sent == old(sent) + Bag(alias) && nr.rqQueued == old(nr).rqQueued - |Bag(alias)|
      ensures multiset(qs[q].sorted)
           == multiset(old(qs)[q].sorted) - multiset{rq} - Bag(alias) + multiset{rq.(pos := pos, sectors := sectors)}
      ensures forall base :: Ordered(old(qs), old(rr), base) && InWindow(base, qs[q].slot) ==> Ordered(qs, rr, base)
    {
      hide DriverOk, Ordered, InWindow, QueueOk, QueuesOk, RrOk, CountsOk, ReadyFor, Remove, Bag;
      QueuesPlain(qs, 0, q);
      alias := Reposition(q, rq, rq.(pos := pos, sectors := sectors));
      TakeBack(q, rq.(pos := pos, sectors := sectors), now, shapes, old(qs));
    }

    /** The first half of cfq_reposition_rq_rb, up to the end of the alias loop. */
    method Reposition(q: nat, rq: Request, rq': Request) returns (ghost alias: Option<Request>)
      requires ValidExcept(q, multiset{}) && q < |qs| && rq in qs[q].sorted && rq'.dir == rq.dir && rq'.meta == rq.meta
      modifies this`qs, this`rr, this`nr, this`sent
      ensures |qs| == |old(qs)| && CountsOk(qs, nr) && RrOk(qs, rr) && DriverOk(nr.inDriver, driving) && ReadyFor(qs[q], multiset{rq'}, rq')
      ensures forall i :: 0 <= i < |qs| && i != q ==> qs[i] == old(qs)[i]
      ensures DropId(rr.order, q) == DropId(old(rr).order, q)
      ensures alias == AtPos(Remove(old(qs)[q].sorted, rq), rq'.pos)
      ensures sent == old(sent) + Bag(alias) && nr.rqQueued == old(nr).rqQueued - |Bag(alias)|
      ensures multiset(qs[q].sorted) == multiset(old(qs)[q].sorted) - multiset{rq} - Bag(alias)
      ensures forall base :: Ordered(old(qs), old(rr), base) ==> Ordered(qs, rr, base)
    {
      hide DriverOk, Ordered, QueueOk, RrOk, QueuesOk, CountsOk, Detached, ReadyFor, HasPos, NextOk, Remove, Cleared;
      Detach(q, rq, rq');
      ghost var me := qs[q];
      alias := AtPos(me.sorted, rq'.pos);
      if qs[q].sorted != [] {
        ghost var mid := qs;
        alias := ClearSector(q, rq'.pos, multiset{rq'});
        ClearedOthers(mid, qs, q, alias, tun, lastPosition);
        QueueAt(qs, q, multiset{rq'});
      }
      MergeReady(old(qs)[q], me, qs[q], rq, rq', tun, lastPosition);
    }

    method Detach(q: nat, rq: Request, rq': Request)
      requires ValidExcept(q, multiset{}) && q < |qs| && rq in qs[q].sorted && rq'.dir == rq.dir && rq'.meta == rq.meta
      modifies this`qs
      ensures QueueOk(old(qs)[q], multiset{}) && rq in old(qs)[q].fifo && qs == old(qs)[q := Detached(old(qs)[q], rq, rq')]
      ensures CountsOk(qs, nr) && RrOk(qs, rr) && |qs| == |old(qs)|
      ensures qs[q].sorted != [] ==> QueuesOk(qs, q, multiset{rq'})
      ensures qs[q].sorted == Remove(old(qs)[q].sorted, rq)
      ensures multiset(qs[q].sorted) == multiset(old(qs)[q].sorted) - multiset{rq}
      ensures forall base :: Ordered(old(qs), old(rr), base) ==> Ordered(qs, rr, base)
    {
      hide DriverOk, Ordered, QueueOk, RrOk, QueuesOk, CountsOk, Detached, Remove, Sorted;
      QueueAt(qs, q, multiset{});
      DetachedOk(qs[q], rq, rq');
      DetachedKeeps(qs, q, rq, rq');
      var me := DetachFrom(qs[q], rq, rq');
      RrSame(qs, rr, q, me);
      SumsSame(qs, nr, q, me);
      JoinOrdered(qs, rr, q, me);
      if me.sorted != [] { DetachedReady(qs, q, rq, rq'); }
      qs := qs[q := me];
    }

    /** The merged request is sorted in again at its new sector. */
    method TakeBack(q: nat, rq: Request, now: nat, shapes: Shapes, ghost before: seq<Queue>)
      requires q < |qs| == |before| && QueuesOk(before, q, multiset{}) && CountsOk(qs, nr) && RrOk(qs, rr)
      requires ReadyFor(qs[q], multiset{rq}, rq)
      requires forall i :: 0 <= i < |qs| && i != q ==> qs[i] == before[i]
      requires (active.Some? ==> active.value < |qs|) && DriverOk(nr.inDriver, driving)
      modifies this`qs, this`rr
      ensures Valid() && |qs| == |old(qs)| && qs[q].onRr && rq in qs[q].sorted
      ensures multiset(qs[q].sorted) == multiset(old(qs)[q].sorted) + multiset{rq}
      ensures forall base :: Ordered(old(qs), old(rr), base) && InWindow(base, qs[q].slot) ==> Ordered(qs, rr, base)
    {
      hide DriverOk, Ordered, InWindow, QueueOk, RrOk, QueuesOk, CountsOk, Attached, ReadyFor;
      AttachedOk(qs[q], tun, lastPosition, rq);
      AttachedKeeps(qs[q], tun, lastPosition, rq);
      var me := AttachTo(qs[q], tun, lastPosition, rq);
      Join(q, me, now, shapes);
      SlotKeepsQueue(me, qs[q], multiset{});
      MergedQueues(before, old(qs), qs, q);
      SumsSame(old(qs), nr, q, qs[q]);
      QueuesPlain(qs, q, 0);
    }

    /** cfq_merged_requests: next is merged into rq; rq takes its place in the fifo if next is older. */
    method MergedRequests(q: nat, rq: Request, next: Request, older: bool)
      requires Valid() && q < |qs| && rq in qs[q].sorted && next in qs[q].sorted && rq != next
      modifies this`qs, this`rr, this`nr
      ensures Valid() && |qs| == |old(qs)| && nr == old(nr).(rqQueued := old(nr).rqQueued - 1)
      ensures multiset(qs[q].sorted) == multiset(old(qs)[q].sorted) - multiset{next}
      ensures rq in old(qs)[q].fifo && next in old(qs)[q].fifo && next in Remove(old(qs)[q].fifo, rq)
      ensures qs[q].fifo == if older then InPlaceOf(old(qs)[q].fifo, rq, next) else Remove(old(qs)[q].fifo, next)
      ensures forall i :: 0 <= i < |qs| && i != q ==> qs[i] == old(qs)[i]
      ensures rq in qs[q].sorted && qs[q].onRr && rr == old(rr)
      ensures forall base :: Ordered(old(qs), old(rr), base) ==> Ordered(qs, rr, base)
    {
      hide DriverOk, Ordered, QueueOk, QueuesOk, RrOk, CountsOk, Removed, MovedAfter, InPlaceOf, Remove;
      QueuesPlain(qs, 0, q);
      QueueAt(qs, q, multiset{});
      MovedOk(qs[q], rq, next);
      TakesPlace(qs[q].fifo, rq, next);
      if older {
        var me := qs[q].(fifo := MovedAfter(qs[q].fifo, rq, next));
        RrSame(qs, rr, q, me);
        SumsSame(qs, nr, q, me);
        QueuesUpdate(qs, q, multiset{}, me, multiset{});
        JoinOrdered(qs, rr, q, me);
        qs := qs[q := me];
      }
      QueueAt(qs, q, multiset{});
      RemovedOk(qs[q], multiset{}, tun, lastPosition, next);
      RemovedFifo(qs[q], tun, lastPosition, next);
      QueuesPlain(qs, q, 0);
      RemoveRequest(q, next);
      QueuesPlain(qs, 0, q);
      OnRr(qs, q, multiset{});
      assert rq in multiset(old(qs)[q].sorted);
      assert rq in multiset(qs[q].sorted);
    }

    /** cfq_completed_request for a request that the queue has sent and the driver has activated; used tells whether the
        slice of the active queue is used up, and an idle queue gives way in any case. Its WARN_ONs cannot fire: both counters
        are positive. */
    method CompletedRequest(q: nat, rq: Request, used: bool, resid: Option<int>, now: nat, shapes: Shapes)
      requires Valid() && q < |qs| && rq in qs[q].flight && rq in driving.Get(rq.dir)
      modifies this`qs, this`rr, this`nr, this`active, this`driving
      ensures Valid() && |qs| == |old(qs)| && nr.rqQueued == old(nr).rqQueued
      ensures old(qs)[q].dispatched > 0 && old(nr).inDriver.Get(rq.dir) > 0
      ensures qs == old(qs)[q := Returned(old(qs)[q], rq).(slot := qs[q].slot, resid := qs[q].resid)]
      ensures driving == old(driving.Set(rq.dir, driving.Get(rq.dir) - multiset{rq}))
      ensures active == if old(active) == Some(q) && (used || old(qs)[q].slot.cls == IDLE) then None else old(active)
      ensures active == old(active) ==> qs[q].slot == old(qs)[q].slot && qs[q].resid == old(qs)[q].resid && rr == old(rr)
      ensures forall base :: Ordered(old(qs), old(rr), base) && Timely(qs[q], base) ==> Ordered(qs, rr, base)
    {
      hide Ordered, InWindow, CfqData.KeyFor, CfqData.Parked, Placed, WithResid, DropId, QueuesOk, RrOk, CountsOk, DriverOk;
      Accounted(q, rq);
      if active == Some(q) && (used || qs[q].slot.cls == IDLE) {
        SliceExpired(now, resid, shapes);
      }
    }

    /** The counters of it. */
    method Accounted(q: nat, rq: Request)
      requires Valid() && q < |qs| && rq in qs[q].flight && rq in driving.Get(rq.dir)
      modifies this`qs, this`nr, this`driving
      ensures Valid() && qs == old(qs)[q := Returned(old(qs)[q], rq)] && nr.rqQueued == old(nr).rqQueued
      ensures old(qs)[q].dispatched > 0 && old(nr).inDriver.Get(rq.dir) > 0
      ensures driving == old(driving.Set(rq.dir, driving.Get(rq.dir) - multiset{rq}))
      ensures forall base :: Ordered(old(qs), rr, base) ==> Ordered(qs, rr, base)
    {
      hide Ordered, QueueOk, QueuesOk, RrOk, CountsOk, DriverOk, Returned, PerDir.Get, PerDir.Set;
      var me := Returned(qs[q], rq);
      DriverLess(nr.inDriver, driving, rq);
      QueuesPlain(qs, 0, q);
      QueueAt(qs, q, multiset{});
      ReturnedOk(qs[q], rq);
      RrSame(qs, rr, q, me);
      CountsReturned(qs, nr, q, me, nr.inDriver.Set(rq.dir, nr.inDriver.Get(rq.dir) - 1));
      QueuesUpdate(qs, q, multiset{}, me, multiset{});
      JoinOrdered(qs, rr, q, me);
      qs := qs[q := me];
      QueuesPlain(qs, q, 0);
      nr := nr.(inDriver := nr.inDriver.Set(rq.dir, nr.inDriver.Get(rq.dir) - 1),
                syncFlight := if me.sync then nr.syncFlight - 1 else nr.syncFlight);
      driving := driving.Set(rq.dir, driving.Get(rq.dir) - multiset{rq});
    }

    /** cfq_activate_request: the driver takes a request that queue q has sent. */
    method ActivateRequest(q: nat, rq: Request)
      requires Valid() && q < |qs| && rq in qs[q].flight
      modifies this`nr, this`lastPosition, this`driving
      ensures Valid() && lastPosition == rq.End()
      ensures nr == old(nr).(inDriver := old(nr).inDriver.Set(rq.dir, old(nr).inDriver.Get(rq.dir) + 1))
      ensures driving == old(driving.Set(rq.dir, driving.Get(rq.dir) + multiset{rq}))
    {
      hide DriverOk, QueuesOk, RrOk;
      DriverMore(nr.inDriver, driving, rq);
      nr := nr.(inDriver := nr.inDriver.Set(rq.dir, nr.inDriver.Get(rq.dir) + 1));
      driving := driving.Set(rq.dir, driving.Get(rq.dir) + multiset{rq});
      lastPosition := rq.End();
    }

    /** cfq_deactivate_request: the driver gives it back. Its WARN_ON cannot fire. */
    method DeactivateRequest(rq: Request)
      requires Valid() && rq in driving.Get(rq.dir)
      modifies this`nr, this`driving
      ensures Valid() && old(nr).inDriver.Get(rq.dir) > 0
      ensures nr == old(nr).(inDriver := old(nr).inDriver.Set(rq.dir, old(nr).inDriver.Get(rq.dir) - 1))
      ensures driving == old(driving.Set(rq.dir, driving.Get(rq.dir) - multiset{rq}))
    {
      hide DriverOk, QueuesOk, RrOk;
      DriverLess(nr.inDriver, driving, rq);
      nr := nr.(inDriver := nr.inDriver.Set(rq.dir, nr.inDriver.Get(rq.dir) - 1));
      driving := driving.Set(rq.dir, driving.Get(rq.dir) - multiset{rq});
    }

    /** The queues once the slice of the active one, if any, is over. */
    ghost function AllExpired(resid: Option<int>, now: nat): (r: seq<Queue>)
      requires Valid()
      reads this
    {
      if active == None then qs
      else
        var a := active.value;
        if qs[a].onRr then Parked(qs, rr, a, resid, now) else qs[a := WithResid(qs[a], resid)]
    }

    /** A preempting queue gets its new key, and nothing else changes. */
    ghost predicate PutInFront(qs: seq<Queue>, rr: Rr, q: nat, now: nat, qs': seq<Queue>) {
      && RrOk(qs, rr) && q < |qs|
      && qs' == qs[q := Placed(qs[q], KeyFor(qs, rr.order, rr.busy, q, true, now), true)]
    }

    /** cfq_preempt_queue, for a queue on the tree, as its BUG_ON demands and InsertRequest guarantees. The queue is the first
        to be served, as the code intends, exactly if no busy queue is of a better class, or, if it is idle, under the
        condition of ComesFirst on the tree once the slice of the active queue is over, given as mid and tree. */
    method PreemptQueue(q: nat, resid: Option<int>, now: nat, shapes: Shapes) returns (ghost mid: seq<Queue>, ghost tree: Rr)
      requires Valid() && q < |qs| && qs[q].onRr && active.Some? && active != Some(q)
      modifies this`qs, this`rr, this`active
      ensures Valid() && active == None && |qs| == |old(qs)| == |mid| && qs[q].onRr
      ensures forall base :: InTime(old(qs), old(rr), old(active), qs, q, base, hz) ==> Ordered(qs, rr, base)
      ensures mid == old(AllExpired(resid, now)) && PutInFront(mid, tree, q, now, qs)
      ensures forall base :: Ordered(old(qs), old(rr), base) && Timely(mid[old(active).value], base) ==> Ordered(mid, tree, base)
      ensures forall base :: InTime(old(qs), old(rr), old(active), qs, q, base, hz) ==>
        (AtHead(rr.order, q) <==> ComesFirst(mid, tree.order, q, now, hz))
      ensures forall base :: InTime(old(qs), old(rr), old(active), qs, q, base, hz) && old(qs)[q].slot.cls != IDLE ==>
        (AtHead(rr.order, q) <==> FirstClass(old(qs), q))
    {
      hide DriverOk, QueueOk, QueuesOk, RrOk, RrExcept, TotalQueued, TotalFlight, Inorder, Ordered, InWindow;
      hide CfqData.KeyFor, DropId, ComesFirst, AtHead, FirstClass, CfqData.Parked;
      SliceExpired(now, resid, shapes);
      mid, tree := qs, rr;
      RrIsExcept(qs, rr, q);
      ClassMeans(old(qs), qs, rr, q, now, hz);
      ServiceTreeAdd(q, true, now, shapes);
      OnlySlotChanged(mid, q, qs[q]);
      TotalsUpdate(mid, q, qs[q]);
    }

    /** Whether a request of queue q should preempt the active queue, given whether the slice of that is used up, and whether
        rq is as good as what it is waiting for. An idle queue preempts only once the slice is used up. */
    predicate Preempts(q: nat, rq: Request, used: bool, close: bool)
      requires q < |qs| && (active.Some? ==> active.value < |qs|)
      reads this
    {
      active.Some? &&
      var me, a := qs[q], qs[active.value];
      || used
      || (me.slot.cls != IDLE &&
          (a.slot.cls == IDLE || (rq.dir == Sync && !a.sync) || (rq.meta && a.metaPending == 0)
           || (me.slot.cls == RT && a.slot.cls != RT) || close))
    }

    /** cfq_should_preempt */
    method ShouldPreempt(q: nat, rq: Request, used: bool, close: bool) returns (r: bool)
      requires q < |qs| && (active.Some? ==> active.value < |qs|)
      ensures r <==> Preempts(q, rq, used, close)
    {
      if active == None {
        return false;
      }
      var a := qs[active.value];
      if used {
        return true;
      }
      if qs[q].slot.cls == IDLE {
        return false;
      }
      if a.slot.cls == IDLE {
        return true;
      }
      if rq.dir == Sync && !a.sync {
        return true;
      }
      if rq.meta && a.metaPending == 0 {
        return true;
      }
      if qs[q].slot.cls == RT && a.slot.cls != RT {
        return true;
      }
      return close;
    }

    /** The end of cfq_rq_enqueued, for a request that InsertRequest has put into queue q: q preempts or nothing changes. */
    method RqEnqueued(q: nat, rq: Request, used: bool, close: bool, resid: Option<int>, now: nat, shapes: Shapes)
      returns (preempts: bool, ghost mid: seq<Queue>, ghost tree: Rr)
      requires Valid() && q < |qs| && qs[q].onRr
      modifies this`qs, this`rr, this`active
      ensures Valid() && |qs| == |old(qs)| == |mid| && qs[q].onRr
      ensures preempts <==> old(active != Some(q) && Preempts(q, rq, used, close))
      ensures !preempts ==> qs == old(qs) && rr == old(rr) && active == old(active)
      ensures preempts ==> active == None && mid == old(AllExpired(resid, now)) && PutInFront(mid, tree, q, now, qs)
      ensures preempts ==> forall base ::
        Ordered(old(qs), old(rr), base) && Timely(mid[old(active).value], base) ==> Ordered(mid, tree, base)
      ensures preempts ==> forall base :: InTime(old(qs), old(rr), old(active), qs, q, base, hz) ==>
        (AtHead(rr.order, q) <==> ComesFirst(mid, tree.order, q, now, hz))
      ensures preempts && old(qs)[q].slot.cls != IDLE ==> forall base :: InTime(old(qs), old(rr), old(active), qs, q, base, hz) ==>
        (AtHead(rr.order, q) <==> FirstClass(old(qs), q))
    {
      hide DriverOk, QueueOk, QueuesOk, RrOk, CountsOk, Inorder, Ordered, InWindow, ComesFirst, FirstClass, CfqData.AllExpired, CfqData.PutInFront;
      preempts := ShouldPreempt(q, rq, used, close);
      preempts := preempts && active != Some(q);
      mid, tree := qs, rr;
      if preempts {
        mid, tree := PreemptQueue(q, resid, now, shapes);
      }
    }

    /** cfq_get_queue: a new queue, with nothing queued. */
    method NewQueue(sync: bool, cls: Class, ioprio: nat) returns (q: nat)
      requires Valid()
      modifies this`qs
      ensures Valid() && q == |old(qs)| && qs == old(qs) + [EmptyQueue(sync, cls, ioprio)]
      ensures forall base :: Ordered(old(qs), old(rr), base) ==> Ordered(qs, rr, base)
    {
      hide DriverOk, Ordered;
      MoreQueues(qs, rr, EmptyQueue(sync, cls, ioprio));
      q := |qs|;
      qs := qs + [EmptyQueue(sync, cls, ioprio)];
      assert qs[..|qs| - 1] == old(qs);
    }

    /** A priority change (cfq_init_prio_data, cfq_prio_boost): the queue stays where it is on the tree, so that the service
        order is kept exactly if it still fits between its neighbours. */
    method ChangePriority(q: nat, cls: Class, ioprio: nat)
      requires Valid() && q < |qs|
      modifies this`qs
      ensures Valid() && qs == old(qs)[q := old(qs)[q].(slot := Slot(cls, old(qs)[q].slot.key), ioprio := ioprio)]
      ensures forall base :: Ordered(old(qs), rr, base) ==> (Ordered(qs, rr, base) <==> Fits(rr.order, old(qs), q, cls))
    {
      hide DriverOk, Ordered, QueuesOk, RrOk, CountsOk, QueueOk;
      var me := qs[q].(slot := Slot(cls, qs[q].slot.key), ioprio := ioprio);
      QueuesPlain(qs, 0, q);
      QueueAt(qs, q, multiset{});
      PriorityOnly(qs[q], me);
      OrderedIfFits(qs, rr, q, me);
      RrSame(qs, rr, q, me);
      SumsSame(qs, nr, q, me);
      QueuesUpdate(qs, q, multiset{}, me, multiset{});
      qs := qs[q := me];
      QueuesPlain(qs, q, 0);
    }

    // -------------------------------------------------------------- dispatching

    /** The active queue stays: its slice is not used up, and it has requests or is worth waiting for. */
    predicate Keeps(active: Option<nat>, used: bool, busy: bool, cooperator: Option<nat>, idle: bool) {
      active.Some? && !used && (busy || (cooperator == None && idle))
    }

    /** cfq_select_queue, given whether the slice of the active queue is used up, a cooperating queue if one was found, and
        whether to idle. A selected queue has requests, so the BUG_ON of cfq_dispatch_request cannot fire. */
    method SelectQueue(used: bool, cooperator: Option<nat>, idle: bool, now: nat, shapes: Shapes)
      returns (r: Option<nat>)
      requires Valid() && (cooperator.Some? ==> cooperator.value in rr.order)
      modifies this`qs, this`rr, this`active
      ensures Valid() && |qs| == |old(qs)| && AllQueued(qs) == AllQueued(old(qs))
      ensures r.Some? ==> r == active && r.value < |qs| && qs[r.value].sorted != []
      ensures r == None ==> rr.order == [] || (active.Some? && active == old(active) && qs[active.value].sorted == [])
      ensures old(active) == None ==> rr == old(rr).(left := rr.left)
      ensures old(active).Some? ==> DropId(rr.order, old(active).value) == DropId(old(rr).order, old(active).value)
      ensures var busy := old(active.Some? && qs[active.value].sorted != []);
        && (Keeps(old(active), used, busy, cooperator, idle) ==>
            qs == old(qs) && rr == old(rr) && active == old(active) && r == if busy then old(active) else None)
        && (!Keeps(old(active), used, busy, cooperator, idle) ==> qs == old(AllExpired(None, now)))
        && (!Keeps(old(active), used, busy, cooperator, idle) ==>
            r == if old(active).Some? && !used && cooperator.Some? then cooperator
                 else if rr.order == [] then None else Some(rr.order[0]))
      ensures forall base ::
        (Ordered(old(qs), old(rr), base) && (old(active).Some? ==> Timely(qs[old(active).value], base))) ==> Ordered(qs, rr, base)
    {
      hide DriverOk, Ordered, InWindow, CfqData.KeyFor, DropId, QueueOk, QueuesOk, RrOk, CountsOk, AllQueued, Inorder;
      var chosen := None;
      if active.Some? {
        if !used {
          if qs[active.value].sorted != [] {
            return active;
          }
          if cooperator.Some? {
            chosen := cooperator;
          } else if idle {
            return None;
          }
        }
        ghost var q := active.value;
        SliceExpired(now, None, shapes);
        SameQueued(old(qs), q, qs[q]);
        if chosen.Some? { StillBusy(old(qs), old(rr), qs, rr, chosen.value, q); }
      }
      if chosen == None {
        LeftOfRr(qs, rr);
        ghost var before := rr;
        chosen := RbFirst();
        OrderedLeft(qs, before, rr);
        LeftOnly(qs, rr);
      }
      active := chosen;
      if chosen.Some? { BusyHasRequests(qs, rr, chosen.value); }
      return chosen;
    }

    /** cfq_dispatch_request, given whether the queue may dispatch and whether its oldest request has expired. */
    method DispatchRequest(q: nat, allowed: bool, fifoExpired: bool) returns (ok: bool)
      requires Valid() && q < |qs| && qs[q].sorted != []
      modifies this`qs, this`rr, this`nr, this`sent
      ensures Valid() && ok == allowed
      ensures !ok ==> qs == old(qs) && rr == old(rr) && nr == old(nr) && sent == old(sent)
      ensures old(qs)[q].next.Some? && old(qs)[q].fifo != []
      ensures ok ==> var rq := if fifoExpired then old(qs)[q].fifo[0] else old(qs)[q].next.value;
        && rq in old(qs)[q].sorted && rq in old(qs)[q].fifo
        && sent == old(sent) + multiset{rq} && AllQueued(qs) == AllQueued(old(qs)) - multiset{rq}
        && qs == old(qs)[q := Dispatched(old(qs)[q], tun, lastPosition, rq)] && nr.rqQueued == old(nr).rqQueued - 1
        && (Best(tun, lastPosition, qs[q].sorted, qs[q].next)
            <==> NeighbourLeads(tun, lastPosition, old(qs)[q].sorted, IndexOf(old(qs)[q].sorted, rq)))
      ensures forall base :: Ordered(old(qs), old(rr), base) ==> Ordered(qs, rr, base)
    {
      hide DriverOk, AllQueued, Ordered, QueuesOk, RrOk, CountsOk, Dispatched, Sorted, Best, NeighbourLeads;
      QueuesPlain(qs, 0, q);
      QueueAt(qs, q, multiset{});
      assert qs[q].next.Some? && qs[q].next.value in qs[q].sorted && qs[q].fifo != [] && qs[q].fifo[0] in qs[q].sorted by {
        FifoHead(qs[q]);
      }
      if !allowed {
        return false;
      }
      var rq := if fifoExpired then qs[q].fifo[0] else qs[q].next.value;
      DispatchInsert(q, rq, multiset{});
      DispatchedBest(old(qs)[q], tun, lastPosition, rq);
      QueuesPlain(qs, q, 0);
      return true;
    }

    /** __cfq_forced_dispatch_cfqq: everything the queue holds goes to the dispatch list; its BUG_ON cannot fire. */
    method ForcedDispatchQueue(q: nat) returns (n: nat)
      requires Valid() && q < |qs|
      modifies this`qs, this`rr, this`nr, this`sent
      ensures Valid() && |qs| == |old(qs)| && qs[q].fifo == [] && !qs[q].onRr
      ensures forall i :: 0 <= i < |qs| && i != q ==> qs[i] == old(qs)[i]
      ensures nr.rqQueued == old(nr).rqQueued - n
      ensures sent + AllQueued(qs) == old(sent) + AllQueued(old(qs))
      ensures forall base :: Ordered(old(qs), old(rr), base) ==> Ordered(qs, rr, base)
    {
      hide DriverOk, Ordered, QueuesOk, RrOk, CountsOk, Dispatched, AllQueued, QueueOk, NextOk;
      n := 0;
      QueuesPlain(qs, 0, q);
      QueueAt(qs, q, multiset{});
      NextInQueue(qs[q]);
      while qs[q].next.Some?
        invariant ValidExcept(q, multiset{}) && |qs| == |old(qs)| && QueueOk(qs[q], multiset{})
        invariant qs[q].next.Some? ==> qs[q].next.value in qs[q].sorted
        invariant forall i :: 0 <= i < |qs| && i != q ==> qs[i] == old(qs)[i]
        invariant nr.rqQueued == old(nr).rqQueued - n
        invariant sent + AllQueued(qs) == old(sent) + AllQueued(old(qs))
        invariant forall base :: Ordered(old(qs), old(rr), base) ==> Ordered(qs, rr, base)
        decreases |multiset(qs[q].sorted)|
      {
        DispatchInsert(q, qs[q].next.value, multiset{});
        QueueAt(qs, q, multiset{});
        NextInQueue(qs[q]);
        n := n + 1;
      }
      NextInQueue(qs[q]);
      QueuesPlain(qs, q, 0);
    }

    /** cfq_forced_dispatch: everything queued is dispatched, each request once; busy_queues ends at zero. */
    method ForcedDispatch(now: nat, shapes: Shapes) returns (n: nat)
      requires Valid()
      modifies this`qs, this`rr, this`nr, this`sent, this`active
      ensures Valid() && |qs| == |old(qs)| && n == old(nr).rqQueued && nr.rqQueued == 0 && active == None
      ensures forall i :: 0 <= i < |qs| ==> qs[i].fifo == []
      ensures rr.busy == 0 && rr.order == []
      ensures sent == old(sent) + AllQueued(old(qs))
    {
      hide DriverOk, QueuesOk, RrOk, CountsOk, AllQueued, QueueOk, Inorder;
      n := 0;
      LeftOfRr(qs, rr);
      var q := RbFirst();
      LeftOnly(qs, rr);
      while q.Some?
        invariant Valid() && |qs| == |old(qs)|
        invariant q == if rr.order == [] then None else Some(rr.order[0])
        invariant nr.rqQueued == old(nr).rqQueued - n
        invariant sent + AllQueued(qs) == old(sent) + AllQueued(old(qs))
        decreases BusyCount(qs)
      {
        BusyHasRequests(qs, rr, q.value);
        ghost var before := qs;
        var m := ForcedDispatchQueue(q.value);
        FewerBusy(before, qs, q.value);
        n := n + m;
        LeftOfRr(qs, rr);
        q := RbFirst();
        LeftOnly(qs, rr);
      }
      NothingQueued(qs, rr, nr);
      SliceExpired(now, None, shapes);
      NothingQueued(qs, rr, nr);
    }
  }

  function BusyCount(qs: seq<Queue>): nat {
    if qs == [] then 0 else BusyCount(qs[..|qs| - 1]) + if qs[|qs| - 1].onRr then 1 else 0
  }

  lemma {:induction false} FewerBusy(a: seq<Queue>, b: seq<Queue>, q: nat)
    requires |a| == |b| && q < |a| && a[q].onRr && !b[q].onRr && forall i :: 0 <= i < |a| && i != q ==> a[i] == b[i]
    ensures BusyCount(b) < BusyCount(a)
  {
    var n := |a| - 1;
    if q == n {
      assert a[..n] == b[..n];
    } else {
      FewerBusy(a[..n], b[..n], q);
    }
  }

  lemma LeftOfRr(qs: seq<Queue>, rr: Rr)
    requires RrOk(qs, rr)
    ensures LeftOk(rr)
  {}

  lemma LeftOnly(qs: seq<Queue>, rr: Rr)
    requires LeftOk(rr)
    ensures forall rr0 :: RrOk(qs, rr0) && rr == rr0.(left := rr.left) ==> RrOk(qs, rr)
  {}

  lemma BusyHasRequests(qs: seq<Queue>, rr: Rr, q: nat)
    requires RrOk(qs, rr) && QueuesOk(qs, 0, multiset{}) && q in rr.order
    ensures q < |qs| && qs[q].onRr && qs[q].sorted != []
  {}

  lemma StillBusy(qs: seq<Queue>, rr: Rr, qs': seq<Queue>, rr': Rr, q: nat, moved: nat)
    requires RrOk(qs, rr) && RrOk(qs', rr') && q in rr.order && |qs'| == |qs| && moved < |qs|
    requires qs' == qs[moved := qs[moved].(slot := qs'[moved].slot, resid := qs'[moved].resid)]
    ensures q in rr'.order
  {}

  lemma {:induction false} SameQueued(qs: seq<Queue>, q: nat, me: Queue)
    requires q < |qs| && me.fifo == qs[q].fifo
    ensures AllQueued(qs[q := me]) == AllQueued(qs)
  {
    var n := |qs| - 1;
    if q == n {
      assert qs[q := me][..n] == qs[..n];
    } else {
      SameQueued(qs[..n], q, me);
      assert qs[q := me][..n] == qs[..n][q := me];
    }
  }

  lemma FifoHead(q: Queue)
    requires QueueOk(q, multiset{}) && q.sorted != []
    ensures q.next.Some? && q.next.value in q.sorted && q.fifo != [] && q.fifo[0] in q.sorted
  {
    assert q.sorted[0] in multiset(q.sorted);
    assert q.sorted[0] in multiset(q.fifo);
    assert q.fifo[0] in multiset(q.fifo);
    assert q.fifo[0] in multiset(q.sorted);
  }

  lemma NextInQueue(q: Queue)
    requires QueueOk(q, multiset{})
    ensures q.next.Some? ==> q.next.value in q.sorted
    ensures q.next == None ==> q.sorted == [] && q.fifo == [] && !q.onRr
  {
    if q.next == None { assert |multiset(q.fifo)| == |multiset(q.sorted)|; }
  }

  lemma NothingQueued(qs: seq<Queue>, rr: Rr, nr: Counts)
    requires RrOk(qs, rr) && QueuesOk(qs, 0, multiset{}) && CountsOk(qs, nr) && rr.order == []
    ensures forall i :: 0 <= i < |qs| ==> qs[i].fifo == [] && !qs[i].onRr
    ensures rr.busy == 0 && nr.rqQueued == 0 && AllQueued(qs) == multiset{}
  {
    forall i | 0 <= i < |qs| ensures qs[i].fifo == [] && !qs[i].onRr {
      assert i !in rr.order;
      assert !qs[i].onRr;
      assert |multiset(qs[i].fifo)| == |multiset(qs[i].sorted)|;
    }
    NoneQueued(qs);
  }

  lemma {:induction false} NoneQueued(qs: seq<Queue>)
    requires forall i :: 0 <= i < |qs| ==> qs[i].fifo == []
    ensures TotalQueued(qs) == 0 && AllQueued(qs) == multiset{}
  {
    if qs != [] { NoneQueued(qs[..|qs| - 1]); }
  }

  lemma PriorityOnly(q: Queue, q': Queue)
    requires QueueOk(q, multiset{}) && q' == q.(slot := q'.slot, ioprio := q'.ioprio)
    ensures QueueOk(q', multiset{})
  {}

  lemma MovedOk(q: Queue, rq: Request, next: Request)
    requires QueueOk(q, multiset{}) && rq in q.sorted && next in q.sorted && rq != next
    ensures rq in q.fifo && next in Remove(q.fifo, rq)
    ensures var q' := q.(fifo := MovedAfter(q.fifo, rq, next)); QueueOk(q', multiset{}) && |q'.fifo| == |q.fifo|
  {
    hide CountDir, CountMeta, Sorted, MovedAfter, Remove;
    assert rq in multiset(q.sorted) && next in multiset(q.sorted);
    assert rq in multiset(q.fifo) && next in multiset(q.fifo);
    RemoveContents(q.fifo, rq);
    assert next in multiset(Remove(q.fifo, rq));
    MovedContents(q.fifo, rq, next);
  }

  /** qs' is qs after the alias loop for queue q. */
  ghost predicate Cleared(qs: seq<Queue>, qs': seq<Queue>, q: nat, alias: Option<Request>, t: Tunables, last: nat) {
    && q < |qs|
    && if alias == None then qs' == qs
       else
         && alias.value in qs[q].sorted && alias.value in qs[q].fifo
         && qs' == qs[q := Dispatched(qs[q], t, last, alias.value)]
         && NextOk(qs'[q])
         && multiset(qs'[q].sorted) == multiset(qs[q].sorted) - multiset{alias.value}
  }

  lemma ClearedOthers(qs: seq<Queue>, qs': seq<Queue>, q: nat, alias: Option<Request>, t: Tunables, last: nat)
    requires Cleared(qs, qs', q, alias, t, last)
    ensures |qs'| == |qs| && qs' == qs[q := qs'[q]] && qs'[q].slot == qs[q].slot
    ensures qs'[q] == qs[q] || NextOk(qs'[q])
    ensures multiset(qs'[q].sorted) == multiset(qs[q].sorted) - Bag(alias)
  {}

  function Bag(rq: Option<Request>): multiset<Request> {
    if rq.Some? then multiset{rq.value} else multiset{}
  }

  lemma CountsMore(qs: seq<Queue>, nr: Counts, q: nat, me: Queue)
    requires CountsOk(qs, nr) && q < |qs| && |me.fifo| == |qs[q].fifo| + 1 && Flight(me) == Flight(qs[q])
    ensures CountsOk(qs[q := me], nr.(rqQueued := nr.rqQueued + 1))
  {
    TotalsUpdate(qs, q, me);
  }

  lemma CountsReturned(qs: seq<Queue>, nr: Counts, q: nat, me: Queue, inDriver: PerDir<int>)
    requires CountsOk(qs, nr) && q < |qs| && me.fifo == qs[q].fifo && me.sync == qs[q].sync && me.dispatched == qs[q].dispatched - 1
    ensures CountsOk(qs[q := me], nr.(inDriver := inDriver, syncFlight := if me.sync then nr.syncFlight - 1 else nr.syncFlight))
  {
    TotalsUpdate(qs, q, me);
  }

  lemma SumsSame(qs: seq<Queue>, nr: Counts, q: nat, me: Queue)
    requires CountsOk(qs, nr) && q < |qs| && |me.fifo| == |qs[q].fifo| && Flight(me) == Flight(qs[q])
    ensures CountsOk(qs[q := me], nr)
  {
    TotalsUpdate(qs, q, me);
  }

  lemma DetachedKeeps(qs: seq<Queue>, q: nat, rq: Request, rq': Request)
    requires q < |qs| && rq in qs[q].sorted && rq in qs[q].fifo
    ensures var me := Detached(qs[q], rq, rq');
      && me.onRr == qs[q].onRr && me.slot == qs[q].slot && |me.fifo| == |qs[q].fifo| && Flight(me) == Flight(qs[q])
      && me.sorted == Remove(qs[q].sorted, rq)
  {}

  lemma AttachedKeeps(q: Queue, t: Tunables, last: nat, rq: Request)
    ensures var q' := Attached(q, t, last, rq);
      && q'.onRr && q'.slot == q.slot && q'.sync == q.sync && q'.dispatched == q.dispatched && q'.fifo == q.fifo
      && multiset(q'.sorted) == multiset(q.sorted) + multiset{rq}
  {}

  /** While others are queued, the detached queue is in order but for the detached request. */
  lemma DetachedReady(qs: seq<Queue>, q: nat, rq: Request, rq': Request)
    requires QueuesOk(qs, q, multiset{}) && q < |qs| && rq in qs[q].sorted && rq'.dir == rq.dir && rq'.meta == rq.meta
    requires rq in qs[q].fifo && Detached(qs[q], rq, rq').sorted != []
    ensures QueuesOk(qs[q := Detached(qs[q], rq, rq')], q, multiset{rq'})
  {
    hide CountDir, CountMeta, Sorted, Remove, NextOk;
    DetachedOk(qs[q], rq, rq');
    QueuesUpdate(qs, q, multiset{}, Detached(qs[q], rq, rq'), multiset{rq'});
  }

  /** After the alias loop the queue is ready to take the merged request back. */
  lemma MergeReady(q0: Queue, q1: Queue, q2: Queue, rq: Request, rq': Request, t: Tunables, last: nat)
    requires QueueOk(q0, multiset{}) && rq in q0.sorted && rq in q0.fifo && rq'.dir == rq.dir && rq'.meta == rq.meta
    requires q1 == Detached(q0, rq, rq')
    requires q1.sorted == [] ==> q2 == q1
    requires q1.sorted != [] ==> QueueOk(q2, multiset{rq'}) && !HasPos(q2.sorted, rq'.pos) && (q2 == q1 || NextOk(q2))
    ensures ReadyFor(q2, multiset{rq'}, rq')
  {
    hide CountDir, CountMeta, Dispatched, Remove;
    DetachedOk(q0, rq, rq');
  }

  lemma MergedQueues(a: seq<Queue>, b: seq<Queue>, c: seq<Queue>, q: nat)
    requires QueuesOk(a, q, multiset{}) && q < |a| && |a| == |b| == |c| && QueueOk(c[q], multiset{})
    requires forall i :: 0 <= i < |a| && i != q ==> b[i] == a[i] && c[i] == b[i]
    ensures QueuesOk(c, q, multiset{})
  {}

  lemma QueueAt(qs: seq<Queue>, q: nat, extra: multiset<Request>)
    requires QueuesOk(qs, q, extra) && q < |qs|
    ensures QueueOk(qs[q], extra)
  {}

  lemma SlotKeepsQueue(q: Queue, q': Queue, extra: multiset<Request>)
    requires QueueOk(q, extra) && q' == q.(slot := q'.slot, resid := q'.resid)
    ensures QueueOk(q', extra) && Flight(q') == Flight(q)
  {}

  lemma InsertedKeeps(q: Queue, t: Tunables, last: nat, rq: Request)
    ensures var q' := Inserted(q, t, last, rq);
      q'.onRr && q'.slot == q.slot && q'.sync == q.sync && q'.dispatched == q.dispatched && q'.resid == q.resid
  {}

  lemma DropTwice(order: seq<nat>, q: nat)
    ensures DropId(DropId(order, q), q) == DropId(order, q)
  {}

  /** With the alias gone its sector is free. */
  lemma AliasGone(qs: seq<Queue>, q: nat, extra: multiset<Request>, a: Request, t: Tunables, last: nat)
    requires QueuesOk(qs, q, extra) && q < |qs| && a in qs[q].sorted
    ensures a in qs[q].fifo && AtPos(Dispatched(qs[q], t, last, a).sorted, a.pos) == None
  {
    hide FindNext, CountDir, CountMeta;
    ListsRemove(qs[q].sorted, qs[q].fifo, extra, a);
    RemoveSorted(qs[q].sorted, a);
    var l, r := qs[q].sorted, Remove(qs[q].sorted, a);
    forall i | 0 <= i < |r| ensures r[i].pos != a.pos {
      assert r[i] in r;
      DistinctPos(l, r[i], a);
    }
  }

  lemma InExcept(qs: seq<Queue>, rr: Rr, q: nat)
    requires RrExcept(qs, rr, q)
    ensures q < |qs| && qs[q].onRr && forall x :: x in rr.order ==> x < |qs|
  {}

  lemma OffTree(qs: seq<Queue>, rr: Rr, q: nat)
    requires RrOk(qs, rr) && q < |qs| && !qs[q].onRr
    ensures rr.order == DropId(rr.order, q) && forall x :: x in rr.order ==> x < |qs|
  {
    DropAbsent(rr.order, q);
  }

  lemma JoinExcept(qs: seq<Queue>, rr: Rr, q: nat, me: Queue)
    requires RrOk(qs, rr) && q < |qs| && !qs[q].onRr && me.onRr
    ensures RrExcept(qs[q := me], rr.(busy := rr.busy + 1), q)
    ensures DropId(rr.order, q) == rr.order
  {
    DropIdContents(rr.order, q);
    DropAbsent(rr.order, q);
  }

  lemma {:induction false} DropAbsent(order: seq<nat>, q: nat)
    requires q !in order
    ensures DropId(order, q) == order
  {
    if order != [] {
      DropAbsent(order[1..], q);
      assert order == [order[0]] + order[1..];
    }
  }

  lemma JoinOrdered(qs: seq<Queue>, rr: Rr, q: nat, me: Queue)
    requires q < |qs| && me.slot == qs[q].slot
    ensures forall base :: Ordered(qs, rr, base) ==> Ordered(qs[q := me], rr, base)
  {}

  lemma DropOrdered(qs: seq<Queue>, rr: Rr, q: nat, me: Queue)
    requires q < |qs| && me.slot == qs[q].slot
    ensures forall base :: Ordered(qs, rr, base) ==> Ordered(qs[q := me], Erased(rr, q).(busy := rr.busy - 1), base)
  {
    assert Slots(qs[q := me]) == Slots(qs);
    forall base | Ordered(qs, rr, base) ensures Ordered(qs[q := me], Erased(rr, q).(busy := rr.busy - 1), base) {
      DropKeepsOrder(rr.order, Slots(qs), q, base);
    }
  }

  lemma MoreQueues(qs: seq<Queue>, rr: Rr, me: Queue)
    ensures forall base :: Ordered(qs, rr, base) ==> Ordered(qs + [me], rr, base)
  {}

  /** In class cls queue q, if it is on the tree, does not belong before its predecessor or after its successor. */
  ghost predicate Fits(order: seq<nat>, qs: seq<Queue>, q: nat, cls: Class)
    requires q < |qs|
  {
    var x := Slot(cls, qs[q].slot.key);
    forall i :: 0 <= i < |order| && order[i] == q ==>
      && (i > 0 && order[i - 1] < |qs| ==> !GoesLeft(x, qs[order[i - 1]].slot))
      && (i + 1 < |order| && order[i + 1] < |qs| ==> !GoesLeft(qs[order[i + 1]].slot, x))
  }

  lemma {:induction false} OrderedIfFits(qs: seq<Queue>, rr: Rr, q: nat, me: Queue)
    requires RrOk(qs, rr) && q < |qs| && me.slot.key == qs[q].slot.key
    ensures forall base :: Ordered(qs, rr, base) ==> (Ordered(qs[q := me], rr, base) <==> Fits(rr.order, qs, q, me.slot.cls))
  {
    hide InWindow, GoesLeft;
    var o, at, at' := rr.order, Slots(qs), Slots(qs[q := me]);
    forall base | Ordered(qs, rr, base)
      ensures Ordered(qs[q := me], rr, base) <==> Fits(o, qs, q, me.slot.cls)
    {
      SameWindow(o, at, at', q, base);
      if q in o {
        var i :| 0 <= i < |o| && o[i] == q;
        NeighboursKeepOrder(o, at, at', i, base);
      } else {
        OrderIgnores(o, at, at', q, base);
      }
    }
  }

  lemma {:induction false} SameWindow(o: seq<nat>, at: seq<Slot>, at': seq<Slot>, q: nat, base: nat)
    requires Known(o, at) && AllInWindow(o, at, base) && |at'| == |at| && forall i :: 0 <= i < |at| ==> at'[i].key == at[i].key
    ensures Known(o, at') && AllInWindow(o, at', base)
  {}

  lemma OnRr(qs: seq<Queue>, q: nat, extra: multiset<Request>)
    requires QueuesOk(qs, q, extra) && q < |qs|
    ensures qs[q].onRr <==> qs[q].sorted != []
  {}

  lemma OnlySlotChanged(qs: seq<Queue>, q: nat, me: Queue)
    requires QueuesOk(qs, 0, multiset{}) && q < |qs| && me == qs[q].(slot := me.slot, resid := me.resid)
    ensures QueuesOk(qs[q := me], 0, multiset{})
    ensures |me.fifo| == |qs[q].fifo| && Flight(me) == Flight(qs[q])
  {}

  lemma KnownTree(qs: seq<Queue>, rr: Rr, q: nat, shape: Tree)
    requires RrExcept(qs, rr, q) && Inorder(shape) == DropId(rr.order, q)
    ensures Known(Inorder(shape), Slots(qs))
  {
    var d := DropId(rr.order, q);
    forall i | 0 <= i < |d| ensures d[i] < |qs| { assert d[i] in d; }
  }

  lemma SameTree(qs: seq<Queue>, rr: Rr, q: nat, me: Queue)
    requires RrExcept(qs, rr, q) && q in rr.order && me.onRr && me.slot == qs[q].slot
    ensures RrOk(qs[q := me], rr)
    ensures forall base :: Ordered(qs, rr, base) ==> Ordered(qs[q := me], rr, base)
  {
    DropIdContents(rr.order, q);
    assert Slots(qs[q := me]) == Slots(qs);
  }

  /** The order does not depend on the cached node. */
  lemma OrderedLeft(qs: seq<Queue>, rr: Rr, rr': Rr)
    requires rr'.order == rr.order
    ensures forall base :: Ordered(qs, rr, base) <==> Ordered(qs, rr', base)
  {}
}
