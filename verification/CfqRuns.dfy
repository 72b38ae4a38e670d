/**
  Runs of the CFQ model in which the queue that is served next is not the one that might be expected.
 */
module CfqRuns {
  import opened Wrappers
  import opened Elevator
  import opened CfqTree
  import opened CfqQueue
  import opened CfqSched

  const HZ := 1000

  /** Queue q has nothing queued, and is served with a slice of the usual length. */
  ghost predicate Fresh(c: CfqData, q: nat)
    reads c
  {
    && c.Valid() && q < |c.qs| && c.hz == HZ && c.slice == PerDir(40, 100) && Ordered(c.qs, c.rr, 0)
    && !c.qs[q].onRr && Usual(c.qs[q]) && c.qs[q].metaPending == 0
  }

  predicate Usual(q: Queue) { q.sync && q.ioprio == Prio(q.slot.cls) && q.resid == 0 }

  /** The priority within the class: the normal one, and the lowest for idle queues. */
  function Prio(cls: Class): nat { if cls == IDLE then 7 else 4 }

  /** The key of a queue that joins the tree: last is the key of the last queue there, if any. */
  function JoinKey(cls: Class, last: Option<nat>, busy: nat, now: nat): nat {
    if cls == IDLE then 200 + (if last.Some? then last.value else now) else 80 * busy + now
  }

  function LastKey(qs: seq<Queue>, order: seq<nat>): Option<nat>
    requires forall x :: x in order ==> x < |qs|
  {
    if order == [] then None
    else
      assert order[|order| - 1] in order;
      Some(qs[order[|order| - 1]].slot.key)
  }

  lemma KeyIs(c: CfqData, qs: seq<Queue>, order: seq<nat>, busy: nat, q: nat, now: nat)
    requires q < |qs| && (forall x :: x in order ==> x < |qs|) && c.hz == HZ && c.slice == PerDir(40, 100)
    requires qs[q].slot.cls == IDLE ==> order == [] || order[|order| - 1] != q
    requires qs[q].slot.cls != IDLE ==> Usual(qs[q])
    requires busy <= 2 && now < 10_000
    requires LastKey(qs, order).Some? ==> LastKey(qs, order).value < 20_000
    ensures c.KeyFor(qs, order, busy + 1, q, false, now) == JoinKey(qs[q].slot.cls, LastKey(qs, order), busy, now)
  {
    assert order != [] ==> order[|order| - 1] in order;
    assert c.PrioSlice(true, 0) == 180 && c.PrioSlice(true, 4) == 100;
  }

  lemma SameLast(qs: seq<Queue>, order: seq<nat>, q: nat, me: Queue)
    requires q < |qs| && (forall x :: x in order ==> x < |qs|) && q !in order
    ensures LastKey(qs[q := me], order) == LastKey(qs, order) && (order != [] ==> order[|order| - 1] != q)
  {
    assert order != [] ==> order[|order| - 1] in order;
  }

  lemma SmallKey(x: Slot)
    requires x.key < 30_000
    ensures InWindow(0, x)
  {}

  /** What InsertRequest leaves of such a queue. */
  lemma JoinedSlot(c: CfqData, qs: seq<Queue>, order: seq<nat>, busy: nat, q: nat, rq: Request, last: nat, now: nat)
    requires q < |qs| && (forall x :: x in order ==> x < |qs|) && q !in order && c.hz == HZ && c.slice == PerDir(40, 100)
    requires Usual(qs[q]) && qs[q].metaPending == 0 && qs[q].sorted == [] && busy <= 2 && now < 10_000
    requires LastKey(qs, order).Some? ==> LastKey(qs, order).value < 20_000
    ensures var me := Inserted(qs[q], c.tun, last, rq);
      var me' := Placed(me, c.KeyFor(qs[q := me], order, busy + 1, q, false, now), false);
      && Joined(me', rq, qs[q].slot.cls, JoinKey(qs[q].slot.cls, LastKey(qs, order), busy, now))
      && InWindow(0, me'.slot)
  {
    hide CfqData.KeyFor, CfqData.PrioSlice, ChooseReq, LastKey, InWindow;
    var me := Inserted(qs[q], c.tun, last, rq);
    SameLast(qs, order, q, me);
    KeyIs(c, qs[q := me], order, busy, q, now);
    SmallKey(Slot(me.slot.cls, JoinKey(me.slot.cls, LastKey(qs, order), busy, now)));
  }

  /** Queue q holds rq, its only request, and is on the tree. */
  predicate Joined(q: Queue, rq: Request, cls: Class, key: nat) {
    q.onRr && q.sorted == [rq] && q.slot == Slot(cls, key) && Usual(q) && q.metaPending == if rq.meta then 1 else 0
  }

  lemma NotCleared(qs: seq<Queue>, qs': seq<Queue>, q: nat, t: Tunables, last: nat)
    requires Cleared(qs, qs', q, None, t, last)
    ensures qs' == qs
  {}

  lemma NotOnTree(qs: seq<Queue>, rr: Rr, q: nat)
    requires RrOk(qs, rr) && q < |qs| && !qs[q].onRr
    ensures q !in rr.order && rr.busy >= 0
  {}

  /** A request comes into a queue with nothing queued. */
  method Join(c: CfqData, q: nat, id: nat, meta: bool, now: nat, shapes: Shapes) returns (rq: Request)
    requires Fresh(c, q) && now < 10_000 && c.rr.busy <= 2 && forall x :: x in c.rr.order ==> x < |c.qs|
    requires LastKey(c.qs, c.rr.order).Some? ==> LastKey(c.qs, c.rr.order).value < 20_000
    modifies c`qs, c`rr, c`nr, c`sent
    ensures c.Valid() && |c.qs| == |old(c.qs)| && Ordered(c.qs, c.rr, 0)
    ensures forall i :: 0 <= i < |c.qs| && i != q ==> c.qs[i] == old(c.qs)[i]
    ensures rq.dir == Sync && rq.meta == meta
    ensures var cls := old(c.qs)[q].slot.cls;
      Joined(c.qs[q], rq, cls, JoinKey(cls, old(LastKey(c.qs, c.rr.order)), old(c.rr.busy), now))
    ensures c.rr.busy == old(c.rr.busy) + 1
  {
    hide QueueOk, QueuesOk, CountsOk, DriverOk, RrOk, DropId, Ordered, Inserted, Placed, CfqData.KeyFor, JoinKey, LastKey, InWindow;
    hide Cleared, Dispatched, HasPos, NextOk, Bag, Inorder, Joined;
    QueuesPlain(c.qs, 0, q);
    OnRr(c.qs, q, multiset{});
    OffTree(c.qs, c.rr, q);
    NotOnTree(c.qs, c.rr, q);
    rq := Request(id, Sync, meta, 8 * id, 8, None);
    JoinedSlot(c, c.qs, c.rr.order, c.rr.busy, q, rq, c.lastPosition, now);
    ghost var alias, mid;
    alias, mid := c.InsertRequest(q, rq, now, shapes);
    assert mid == old(c.qs) by { NotCleared(old(c.qs), mid, q, c.tun, c.lastPosition); }
  }

  /** The same, where the queue does not preempt: nobody or the queue itself is active, or it is idle and the slice of the
      active queue is not used up. */
  method Arrive(c: CfqData, q: nat, id: nat, now: nat, shapes: Shapes) returns (rq: Request)
    requires Fresh(c, q) && now < 10_000 && c.rr.busy <= 2 && forall x :: x in c.rr.order ==> x < |c.qs|
    requires LastKey(c.qs, c.rr.order).Some? ==> LastKey(c.qs, c.rr.order).value < 20_000
    requires c.active == None || c.active == Some(q) || c.qs[q].slot.cls == IDLE
    modifies c`qs, c`rr, c`nr, c`sent, c`active
    ensures c.Valid() && c.active == old(c.active) && |c.qs| == |old(c.qs)| && Ordered(c.qs, c.rr, 0)
    ensures forall i :: 0 <= i < |c.qs| && i != q ==> c.qs[i] == old(c.qs)[i]
    ensures rq.dir == Sync && !rq.meta
    ensures var cls := old(c.qs)[q].slot.cls;
      Joined(c.qs[q], rq, cls, JoinKey(cls, old(LastKey(c.qs, c.rr.order)), old(c.rr.busy), now))
    ensures c.rr.busy == old(c.rr.busy) + 1
  {
    hide QueueOk, QueuesOk, CountsOk, DriverOk, RrOk, DropId, Ordered, JoinKey, LastKey, InWindow, Inorder;
    hide CfqData.AllExpired, CfqData.PutInFront, ComesFirst, FirstClass;
    rq := Join(c, q, id, false, now, shapes);
    var preempts;
    ghost var mid, tree;
    preempts, mid, tree := c.RqEnqueued(q, rq, false, false, None, now, shapes);
  }

  lemma NoThird(o: seq<nat>)
    requires NoDup(o)
    ensures |o| > 2 ==> exists i :: 0 <= i < |o| && o[i] >= 2
  {
    if |o| > 2 { assert o[0] >= 2 || o[1] >= 2 || o[2] >= 2; }
  }

  /** With both queues on it, the tree holds them in service order. */
  lemma BothOrdered(qs: seq<Queue>, rr: Rr)
    requires RrOk(qs, rr) && Ordered(qs, rr, 0) && |qs| == 2 && qs[0].onRr && qs[1].onRr
    ensures GoesLeft(qs[0].slot, qs[1].slot) ==> rr.order == [0, 1]
    ensures GoesLeft(qs[1].slot, qs[0].slot) ==> rr.order == [1, 0]
  {
    hide GoesLeft;
    assert 0 in rr.order && 1 in rr.order;
    assert forall i :: 0 <= i < |rr.order| ==> rr.order[i] in rr.order;
    NoThird(rr.order);
    assert !GoesLeft(Slots(qs)[rr.order[1]], Slots(qs)[rr.order[0]]);
  }

  lemma OneOn(qs: seq<Queue>, rr: Rr, q: nat)
    requires RrOk(qs, rr) && |qs| == 2 && rr.busy == 1 && q < 2 && !qs[1 - q].onRr
    ensures rr.order == [q]
  {
    assert rr.order[0] in rr.order;
  }

  lemma SomebodyOn(qs: seq<Queue>, rr: Rr)
    requires RrOk(qs, rr) && |qs| == 2
    ensures rr.busy == |rr.order| && (rr.order != [] ==> qs[0].onRr || qs[1].onRr)
  {
    if rr.order != [] { assert rr.order[0] in rr.order; }
  }

  lemma NothingOrdered(qs: seq<Queue>, rr: Rr)
    requires rr.order == []
    ensures Ordered(qs, rr, 0)
  {}

  /** A scheduler with two queues and nothing queued. */
  method TwoQueues(cls0: Class, cls1: Class, tun: Tunables) returns (c: CfqData)
    ensures fresh(c) && Fresh(c, 0) && Fresh(c, 1) && |c.qs| == 2 && c.qs[0].slot.cls == cls0 && c.qs[1].slot.cls == cls1
    ensures c.active == None && c.rr.order == [] && c.rr.busy == 0
  {
    hide QueueOk, QueuesOk, CountsOk, DriverOk, RrOk, Ordered;
    c := new CfqData(HZ, tun);
    assert Ordered(c.qs, c.rr, 0) by { NothingOrdered(c.qs, c.rr); }
    var q0 := c.NewQueue(true, cls0, Prio(cls0));
    var q1 := c.NewQueue(true, cls1, Prio(cls1));
  }

  lemma DispatchedOnly(q: Queue, t: Tunables, last: nat, rq: Request)
    requires q.sorted == [rq] && rq in q.fifo && !rq.meta
    ensures var q' := Dispatched(q, t, last, rq);
      !q'.onRr && q'.slot == q.slot && q'.metaPending == q.metaPending && (Usual(q') <==> Usual(q)) && rq in q'.flight
  {}

  /** Queue 0 gets a request at time now, is selected, and its request goes to the driver. */
  method FirstSent(cls0: Class, cls1: Class, now: nat, tun: Tunables, shapes: Shapes) returns (c: CfqData, rq: Request)
    requires now < 10_000 && cls0 != IDLE
    ensures fresh(c) && Fresh(c, 0) && Fresh(c, 1) && |c.qs| == 2 && c.active == Some(0) && c.rr.order == [] && c.rr.busy == 0
    ensures c.qs[0].slot.cls == cls0 && c.qs[1].slot.cls == cls1 && rq in c.qs[0].flight && rq in c.driving.Get(rq.dir)
  {
    hide QueueOk, QueuesOk, CountsOk, DriverOk, RrOk, Inorder, Ordered, DropId, Dispatched, AllQueued;
    c := TwoQueues(cls0, cls1, tun);
    rq := Arrive(c, 0, 0, now, shapes);
    OneOn(c.qs, c.rr, 0);
    var r := c.SelectQueue(false, None, false, now, shapes);
    ghost var me := c.qs[0];
    var ok := c.DispatchRequest(0, true, false);
    DispatchedOnly(me, c.tun, c.lastPosition, rq);
    SomebodyOn(c.qs, c.rr);
    c.ActivateRequest(0, rq);
  }

  /** An idle queue waits while the first request of a best-effort queue is in flight; then the next one comes. A boost of the
      idle queue (cfq_prio_boost) leaves it behind the other, which it now precedes. */
  method BoostMisplaces(tun: Tunables, shapes: Shapes) returns (c: CfqData)
    ensures fresh(c) && c.Valid() && c.rr.order == [0, 1]
    ensures |c.qs| == 2 && c.qs[0].slot == Slot(BE, 280) && c.qs[1].slot == Slot(BE, 201)
    ensures forall base :: !Ordered(c.qs, c.rr, base)
  {
    hide QueueOk, QueuesOk, CountsOk, DriverOk, RrOk, Inorder, Ordered;
    var rq;
    c, rq := FirstSent(BE, IDLE, 0, tun, shapes);
    rq := Arrive(c, 1, 1, 1, shapes);
    OneOn(c.qs, c.rr, 1);
    rq := Arrive(c, 0, 2, 200, shapes);
    BothOrdered(c.qs, c.rr);
    c.ChangePriority(1, BE, 4);
    OutOfOrder(c.qs, c.rr);
  }

  lemma OutOfOrder(qs: seq<Queue>, rr: Rr)
    requires |qs| == 2 && rr.order == [0, 1] && GoesLeft(qs[1].slot, qs[0].slot)
    ensures forall base :: !Ordered(qs, rr, base)
  {
    assert Slots(qs)[rr.order[1]] == qs[1].slot && Slots(qs)[rr.order[0]] == qs[0].slot;
  }

  /** Queue 0 has been selected and is active, queue 1 has come later, and both are busy. */
  ghost predicate Contended(c: CfqData, s0: Slot, s1: Slot)
    reads c
  {
    && c.Valid() && |c.qs| == 2 && c.active == Some(0) && c.hz == HZ && c.slice == PerDir(40, 100)
    && c.qs[0].onRr && c.qs[1].onRr && c.qs[0].slot == s0 && c.qs[1].slot == s1
    && Usual(c.qs[0]) && c.qs[0].metaPending == 0 && c.rr.order == [0, 1] && Ordered(c.qs, c.rr, 0)
  }

  /** Where both queues stand once queue 0, whose slice is over, has its next turn. */
  lemma ParkedSlot(c: CfqData, s0: Slot, s1: Slot, resid: Option<int>, now: nat)
    requires Contended(c, s0, s1) && now < 10_000 && s1.key < 20_000 && (resid.Some? ==> s0.cls == IDLE)
    ensures var mid := c.AllExpired(resid, now);
      && |mid| == 2 && mid[1] == c.qs[1] && mid[0].onRr
      && mid[0].slot == Slot(s0.cls, JoinKey(s0.cls, Some(s1.key), 1, now)) && InWindow(0, mid[0].slot)
  {
    hide QueuesOk, CountsOk, DriverOk, Ordered, CfqData.KeyFor;
    var qs := c.qs[0 := WithResid(c.qs[0], resid)];
    KeyIs(c, qs, [0, 1], 1, 0, now);
  }

  /** The key with which queue 1 is put in front. */
  lemma FrontKeyIs(c: CfqData, mid: seq<Queue>, tree: Rr, now: nat, qs: seq<Queue>)
    requires c.hz == HZ && c.PutInFront(mid, tree, 1, now, qs) && |mid| == 2 && mid[0].onRr && mid[1].onRr && Ordered(mid, tree, 0)
    requires now < 10_000 && 200 <= mid[0].slot.key < 20_000 && (mid[1].slot.cls != IDLE ==> HZ <= mid[0].slot.key)
    ensures qs == mid[1 := mid[1].(slot := qs[1].slot)] && qs[1].slot.cls == mid[1].slot.cls
    ensures GoesLeft(mid[0].slot, mid[1].slot) && mid[1].slot.cls != IDLE ==> tree.order == [0, 1] && qs[1].slot.key == mid[0].slot.key - HZ
    ensures GoesLeft(mid[1].slot, mid[0].slot) && mid[1].slot.cls == IDLE ==> tree.order == [1, 0] && qs[1].slot.key == mid[0].slot.key + 200
  {
    hide Ordered, GoesLeft;
    BothOrdered(mid, tree);
  }

  /** A realtime queue is active with a request in flight and another one queued, when a metadata request of a best-effort
      queue comes. */
  method RealtimeActive(tun: Tunables, shapes: Shapes) returns (c: CfqData, rq: Request)
    ensures fresh(c) && Contended(c, Slot(RT, 5_000), Slot(BE, 5_080)) && rq.dir == Sync && rq.meta
  {
    hide QueueOk, QueuesOk, CountsOk, DriverOk, RrOk, Inorder, Ordered, DropId;
    c, rq := FirstSent(RT, BE, 5_000, tun, shapes);
    rq := Arrive(c, 0, 1, 5_000, shapes);
    OneOn(c.qs, c.rr, 0);
    rq := Join(c, 1, 2, true, 5_000, shapes);
    BothOrdered(c.qs, c.rr);
  }

  /** The best-effort queue preempts, and gets a key one second before the other. The realtime queue still comes first. */
  method RealtimeStaysAhead(tun: Tunables, shapes: Shapes) returns (c: CfqData)
    ensures fresh(c) && c.Valid() && !AtHead(c.rr.order, 1)
    ensures |c.qs| == 2 && c.qs[0].slot == Slot(RT, 5_080) && c.qs[1].slot == Slot(BE, 5_080 - HZ)
  {
    hide QueueOk, QueuesOk, CountsOk, DriverOk, RrOk, Inorder, Ordered, DropId, ComesFirst, CfqData.AllExpired, CfqData.PutInFront;
    var rq;
    c, rq := RealtimeActive(tun, shapes);
    ParkedSlot(c, Slot(RT, 5_000), Slot(BE, 5_080), None, 5_000);
    ghost var qs, rr := c.qs, c.rr;
    var preempts;
    ghost var mid, tree;
    preempts, mid, tree := c.RqEnqueued(1, rq, false, false, None, 5_000, shapes);
    FrontKeyIs(c, mid, tree, 5_000, c.qs);
    assert !FirstClass(qs, 1) by { assert qs[0].onRr; }
    assert InTime(qs, rr, Some(0), c.qs, 1, 0, HZ);
  }

  /** A best-effort queue is active, and its slice of a tenth of a second begins with the completion of its request. Nothing
      is queued until that slice is over. Then its process has become idle and sends a request, so that the class of the queue
      changes (cfq_init_prio_data), and another idle queue gets one. */
  method IdleActive(tun: Tunables, shapes: Shapes) returns (c: CfqData, rq: Request)
    ensures fresh(c) && Contended(c, Slot(IDLE, 400), Slot(IDLE, 600)) && rq.dir == Sync
  {
    hide QueueOk, QueuesOk, CountsOk, DriverOk, RrOk, Inorder, Ordered, DropId;
    c, rq := FirstSent(BE, IDLE, 0, tun, shapes);
    c.CompletedRequest(0, rq, false, None, 10, shapes);
    c.ChangePriority(0, IDLE, 7);
    NothingOrdered(c.qs, c.rr);
    rq := Arrive(c, 0, 1, 200, shapes);
    OneOn(c.qs, c.rr, 0);
    rq := Join(c, 1, 2, false, 200, shapes);
    BothOrdered(c.qs, c.rr);
  }

  /** The slice ended at time 110. So the second queue preempts, and is put behind the first, although no busy queue is of a
      better class. */
  method IdleFallsBehind(tun: Tunables, shapes: Shapes) returns (c: CfqData)
    ensures fresh(c) && c.Valid() && FirstClass(c.qs, 1) && !AtHead(c.rr.order, 1)
    ensures |c.qs| == 2 && c.qs[0].slot == Slot(IDLE, 800) && c.qs[1].slot == Slot(IDLE, 1_000)
  {
    hide QueueOk, QueuesOk, CountsOk, DriverOk, RrOk, Inorder, Ordered, DropId, CfqData.AllExpired, CfqData.PutInFront;
    var rq;
    c, rq := IdleActive(tun, shapes);
    ParkedSlot(c, Slot(IDLE, 400), Slot(IDLE, 600), Some(-90), 200);
    ghost var qs, rr := c.qs, c.rr;
    var preempts;
    ghost var mid, tree;
    preempts, mid, tree := c.RqEnqueued(1, rq, true, false, Some(-90), 200, shapes);
    FrontKeyIs(c, mid, tree, 200, c.qs);
    assert !ComesFirst(mid, tree.order, 1, 200, HZ) by { OtherStays(); }
    assert InTime(qs, rr, Some(0), c.qs, 1, 0, HZ);
  }

  lemma OtherStays()
    ensures DropId([1, 0], 1) != []
  {
    DropIdContents([1, 0], 1);
    assert 0 in [1, 0];
  }
}
