/**
  One process queue of block/cfq-iosched.c (struct cfq_queue): its sorted list and fifo, the cached next request and
  the redundant counters, and what the request functions do to them.
 */
module CfqQueue {
  import opened Elevator
  import opened Wrappers
  import opened CfqTree
  import opened Seek

  /** cfq_back_max and cfq_back_penalty. */
  datatype Tunables = Tunables(backMax: nat, backPenalty: nat)

  /** cfq_choose_req */
  function ChooseReq(t: Tunables, last: nat, rq1: Option<Request>, rq2: Option<Request>): Option<Request> {
    if rq1 == None || rq1 == rq2 then rq2
    else if rq2 == None then rq1
    else
      var (a, b) := (rq1.value, rq2.value);
      if a.dir == Sync && b.dir != Sync then rq1
      else if b.dir == Sync && a.dir != Sync then rq2
      else if a.meta && !b.meta then rq1
      else if b.meta && !a.meta then rq2
      else
        var (w1, w2) := (Wraps(t, last, a.pos), Wraps(t, last, b.pos));
        var (d1, d2) := (Cost(t, last, a.pos), Cost(t, last, b.pos));
        if !w1 && !w2 then
          if d1 < d2 then rq1 else if d2 < d1 then rq2 else if a.pos >= b.pos then rq1 else rq2
        else if !w1 then rq1
        else if !w2 then rq2
        else if a.pos <= b.pos then rq1 else rq2
  }

  predicate Wraps(t: Tunables, last: nat, s: nat) {
    s < last && s + t.backMax * 2 < last
  }

  function Cost(t: Tunables, last: nat, s: nat): nat {
    if s >= last then s - last else if Wraps(t, last, s) then 0 else (last - s) * t.backPenalty
  }

  /** cfq_find_next_rq for the request at index i. */
  function FindNext(t: Tunables, last: nat, l: seq<Request>, i: nat): Option<Request>
    requires i < |l|
  {
    var prev := if i > 0 then Some(l[i - 1]) else None;
    var next := if i + 1 < |l| then Some(l[i + 1]) else if i > 0 then Some(l[0]) else None;
    ChooseReq(t, last, next, prev)
  }

  lemma FindNextIsNeighbour(t: Tunables, last: nat, l: seq<Request>, i: nat)
    requires i < |l|
    ensures FindNext(t, last, l, i) == None <==> |l| == 1
    ensures |l| > 1 ==> FindNext(t, last, l, i).value in Without(l, i)
  {}

  // ---------------------------------------------------------------- what the choice means

  predicate Beats(t: Tunables, last: nat, a: Request, b: Request) {
    ChooseReq(t, last, Some(a), Some(b)) == Some(a)
  }

  /** Synchronous requests come first, and metadata before the rest. */
  function Rank(rq: Request): nat { (if rq.dir == Sync then 2 else 0) + if rq.meta then 1 else 0 }

  /** By definition, one KiB is two sectors. */
  function SeekStyle(t: Tunables): Style { Style(2 * t.backMax, t.backPenalty) }

  /** What cfq_choose_req decides: rank, then the sectors; the other one if one is missing. */
  lemma {:induction false} ChooseMeans(t: Tunables, last: nat, a: Request, b: Request)
    requires a.pos != b.pos
    ensures ChooseReq(t, last, Some(a), Some(b)) ==
      if Rank(a) > Rank(b) || (Rank(a) == Rank(b) && Sooner(SeekStyle(t), last, a.pos, b.pos)) then Some(a) else Some(b)
    ensures ChooseReq(t, last, Some(a), None) == ChooseReq(t, last, None, Some(a)) == ChooseReq(t, last, Some(a), Some(a)) == Some(a)
    ensures ChooseReq(t, last, None, None) == None
  {
    Farther(t.backPenalty, last, a.pos, b.pos);
    Farther(t.backPenalty, last, b.pos, a.pos);
    if a.pos < last && b.pos < last { Apart(t.backPenalty, last - a.pos, last - b.pos); }
  }

  lemma {:induction false} Apart(p: nat, x: nat, y: nat)
    requires x != y
    ensures p > 0 ==> (p * x < p * y <==> x < y)
    ensures p == 0 ==> p * x == p * y == 0
  {
    if p > 0 && x < y { Times(p, x + 1, y); }
    if p > 0 && y < x { Times(p, y + 1, x); }
  }

  /** It is a strict total order on requests with different sectors. */
  lemma {:induction false} ChooseIsTotalOrder(t: Tunables, last: nat, a: Request, b: Request, c: Request)
    requires a.pos != b.pos && b.pos != c.pos && a.pos != c.pos
    ensures Beats(t, last, a, b) <==> !Beats(t, last, b, a)
    ensures ChooseReq(t, last, Some(a), Some(b)) == ChooseReq(t, last, Some(b), Some(a))
    ensures Beats(t, last, a, b) && Beats(t, last, b, c) ==> Beats(t, last, a, c)
  {
    hide ChooseReq, Sooner, Rank;
    ChooseMeans(t, last, a, b);
    ChooseMeans(t, last, b, a);
    ChooseMeans(t, last, b, c);
    ChooseMeans(t, last, a, c);
    SoonerOrder(SeekStyle(t), last, a.pos, b.pos, c.pos);
  }

  /** r is the choice over the whole list, and nothing exactly when the list is empty. */
  ghost predicate Best(t: Tunables, last: nat, l: seq<Request>, r: Option<Request>) {
    && (r == None <==> l == [])
    && (r.Some? ==> r.value in l && forall x :: x in l ==> Beats(t, last, r.value, x))
  }

  /** The best rank in a list, and the requests that have it. */
  function TopRank(l: seq<Request>): nat {
    if l == [] then 0 else if Rank(l[0]) > TopRank(l[1..]) then Rank(l[0]) else TopRank(l[1..])
  }

  function OfRank(l: seq<Request>, n: nat): seq<Request> {
    if l == [] then [] else if Rank(l[0]) == n then [l[0]] + OfRank(l[1..], n) else OfRank(l[1..], n)
  }

  lemma {:induction false} TopRankIs(l: seq<Request>)
    ensures forall x :: x in l ==> Rank(x) <= TopRank(l)
    ensures l != [] ==> exists x :: x in l && Rank(x) == TopRank(l)
  {
    hide Rank;
    if l != [] {
      TopRankIs(l[1..]);
      assert l == [l[0]] + l[1..];
      if l[1..] == [] || Rank(l[0]) > TopRank(l[1..]) {
        assert l[0] in l && Rank(l[0]) == TopRank(l) by { if l[1..] == [] { SmallRank(l); } }
      } else {
        var x :| x in l[1..] && Rank(x) == TopRank(l[1..]);
        assert x in l;
      }
    }
  }

  lemma {:induction false} SmallRank(l: seq<Request>)
    requires |l| == 1
    ensures Rank(l[0]) == TopRank(l)
  {}

  lemma {:induction false} OfRankIs(l: seq<Request>, n: nat)
    requires Sorted(l)
    ensures Sorted(OfRank(l, n)) && forall x :: x in OfRank(l, n) <==> x in l && Rank(x) == n
  {
    hide Rank;
    if l != [] {
      OfRankIs(l[1..], n);
      assert l == [l[0]] + l[1..];
      forall x | x in OfRank(l[1..], n) ensures l[0].pos < x.pos {
        var i :| 0 <= i < |l[1..]| && l[1..][i] == x;
        assert l[i + 1] == x;
      }
    }
  }

  /** Whether a request is the best of its list can be seen from its rank and the requests next to it among those of that
      rank. */
  lemma {:induction false} BestIsHere(t: Tunables, last: nat, l: seq<Request>, rq: Request)
    requires Sorted(l) && rq in l
    ensures Best(t, last, l, Some(rq)) <==> Leads(t, last, l, rq)
  {
    hide ChooseReq, Sooner, Rank, FirstHere, TopRank, OfRank, Beats;
    TopRankIs(l);
    var n := TopRank(l);
    var top := OfRank(l, n);
    OfRankIs(l, n);
    if Rank(rq) != n {
      var x :| x in l && Rank(x) == n;
      BeatsMeans(t, last, l, rq, x);
    } else {
      assert rq in top;
      var k :| 0 <= k < |top| && top[k] == rq;
      FirstIsHere(SeekStyle(t), last, top, k);
      forall x | x in l ensures Rank(x) <= n && (Beats(t, last, rq, x) <==> x == rq || Rank(x) < n || Sooner(SeekStyle(t), last, rq.pos, x.pos)) {
        BeatsMeans(t, last, l, rq, x);
      }
      assert forall j :: 0 <= j < |top| ==> top[j] in top;
      OnlyThere(top, k, rq);
    }
  }

  /** rq has the best rank, and is the first one by sectors among those that have it. */
  ghost predicate Leads(t: Tunables, last: nat, l: seq<Request>, rq: Request) {
    var top := OfRank(l, TopRank(l));
    exists k :: 0 <= k < |top| && top[k] == rq && FirstHere(SeekStyle(t), last, top, k)
  }

  lemma {:induction false} OnlyThere(l: seq<Request>, k: nat, rq: Request)
    requires Sorted(l) && k < |l| && l[k] == rq
    ensures forall j :: 0 <= j < |l| && l[j] == rq ==> j == k
  {}

  lemma {:induction false} BeatsMeans(t: Tunables, last: nat, l: seq<Request>, a: Request, b: Request)
    requires Sorted(l) && a in l && b in l
    ensures Beats(t, last, a, b) <==> a == b || Rank(a) > Rank(b) || (Rank(a) == Rank(b) && Sooner(SeekStyle(t), last, a.pos, b.pos))
    ensures a != b ==> a.pos != b.pos
  {
    hide Sooner, Rank;
    var i, j :| 0 <= i < |l| && l[i] == a && 0 <= j < |l| && l[j] == b;
    if i != j { assert l[i].pos != l[j].pos; ChooseMeans(t, last, a, b); } else { ChooseSelf(t, last, a); }
  }

  lemma {:induction false} ChooseSelf(t: Tunables, last: nat, a: Request)
    ensures Beats(t, last, a, a)
  {}

  /** A new request makes the cached one the best exactly if it was the best before, or the new one is. */
  lemma {:induction false} InsertBest(t: Tunables, last: nat, l: seq<Request>, next: Option<Request>, rq: Request)
    requires Sorted(l) && !HasPos(l, rq.pos) && (next == None <==> l == []) && (next.Some? ==> next.value in l)
    ensures Best(t, last, Insert(l, rq), ChooseReq(t, last, next, Some(rq)))
       <==> Best(t, last, l, next) || (forall x :: x in l ==> Beats(t, last, rq, x))
  {
    hide ChooseReq, Insert;
    InsertSorted(l, rq);
    var l' := Insert(l, rq);
    assert rq !in l;
    if next.Some? { Chosen(t, last, l, next.value, rq); } else { ChooseMeans(t, last, rq, rq.(pos := rq.pos + 1)); ChooseSelf(t, last, rq); }
  }

  /** Which of the two is chosen. */
  lemma {:induction false} Chosen(t: Tunables, last: nat, l: seq<Request>, a: Request, rq: Request)
    requires Sorted(l) && !HasPos(l, rq.pos) && a in l
    ensures ChooseReq(t, last, Some(a), Some(rq)) == if Beats(t, last, a, rq) then Some(a) else Some(rq)
    ensures Beats(t, last, a, rq) <==> !Beats(t, last, rq, a)
    ensures Beats(t, last, rq, rq) && Beats(t, last, a, a)
    ensures Beats(t, last, a, rq) && Best(t, last, l, Some(a)) ==> forall x :: x in l || x == rq ==> Beats(t, last, a, x)
    ensures Beats(t, last, rq, a) && Best(t, last, l, Some(a)) ==> forall x :: x in l || x == rq ==> Beats(t, last, rq, x)
  {
    hide ChooseReq, Sooner, Rank;
    assert a.pos != rq.pos;
    ChooseMeans(t, last, a, rq);
    ChooseMeans(t, last, rq, a);
    SoonerOrder2(t, last, a, rq);
    ChooseSelf(t, last, a);
    ChooseSelf(t, last, rq);
    forall x | x in l && x != a && Beats(t, last, rq, a) && Beats(t, last, a, x) ensures Beats(t, last, rq, x) {
      BeatsMeans(t, last, l, a, x);
      assert x.pos != rq.pos;
      ChooseIsTotalOrder(t, last, rq, a, x);
    }
  }

  lemma {:induction false} SoonerOrder2(t: Tunables, last: nat, a: Request, b: Request)
    requires a.pos != b.pos
    ensures Sooner(SeekStyle(t), last, a.pos, b.pos) <==> !Sooner(SeekStyle(t), last, b.pos, a.pos)
  {
    SoonerOrder(SeekStyle(t), last, a.pos, b.pos, a.pos + b.pos + 1);
  }

  /** One of the two requests that cfq_find_next_rq looks at leads the rest, or nothing is left. */
  ghost predicate NeighbourLeads(t: Tunables, last: nat, l: seq<Request>, i: nat)
    requires i < |l|
  {
    var rest := Without(l, i);
    |l| == 1 || (i > 0 && Leads(t, last, rest, l[i - 1])) || Leads(t, last, rest, if i + 1 < |l| then l[i + 1] else l[0])
  }

  /** After the removal of request i, cfq_find_next_rq gives the best of the rest exactly if one of the two requests that it looks
      at leads the rest. */
  lemma {:induction false} FindNextIsBest(t: Tunables, last: nat, l: seq<Request>, i: nat)
    requires Sorted(l) && i < |l|
    ensures var rest := Without(l, i);
      Best(t, last, rest, FindNext(t, last, l, i)) <==> NeighbourLeads(t, last, l, i)
  {
    hide ChooseReq, Leads, Beats;
    var rest := Without(l, i);
    if |l| > 1 {
      var next := if i + 1 < |l| then l[i + 1] else l[0];
      WithoutSorted(l, i);
      assert next in rest by { assert rest[if i + 1 < |l| then i else 0] == next; }
      BestIsHere(t, last, rest, next);
      if i > 0 {
        assert rest[i - 1] == l[i - 1];
        BestIsHere(t, last, rest, l[i - 1]);
        BestOfTwo(t, last, rest, next, l[i - 1]);
      } else {
        ChooseMeans(t, last, next, next.(pos := next.pos + 1));
      }
    } else {
      FindNextIsNeighbour(t, last, l, i);
      assert rest == [];
    }
  }

  lemma {:induction false} BestOfTwo(t: Tunables, last: nat, l: seq<Request>, a: Request, b: Request)
    requires Sorted(l) && a in l && b in l
    ensures Best(t, last, l, ChooseReq(t, last, Some(a), Some(b))) <==> Best(t, last, l, Some(a)) || Best(t, last, l, Some(b))
  {
    hide ChooseReq, Sooner, Rank;
    BeatsMeans(t, last, l, a, b);
    BeatsMeans(t, last, l, b, a);
    if a != b {
      ChooseMeans(t, last, a, b);
      SoonerOrder2(t, last, a, b);
    } else {
      ChooseSelf(t, last, a);
    }
  }

  lemma {:induction false} WithoutSorted(l: seq<Request>, i: nat)
    requires Sorted(l) && i < |l|
    ensures Sorted(Without(l, i))
  {}

  // ---------------------------------------------------------------- counting

  function CountDir(l: seq<Request>, d: Dir): nat {
    if l == [] then 0 else CountDir(l[1..], d) + if l[0].dir == d then 1 else 0
  }

  function CountMeta(l: seq<Request>): nat {
    if l == [] then 0 else CountMeta(l[1..]) + if l[0].meta then 1 else 0
  }

  lemma {:induction false} CountConcat(a: seq<Request>, b: seq<Request>, d: Dir)
    ensures CountDir(a + b, d) == CountDir(a, d) + CountDir(b, d)
    ensures CountMeta(a + b) == CountMeta(a) + CountMeta(b)
  {
    if a == [] {
      assert a + b == b;
    } else {
      CountConcat(a[1..], b, d);
      assert (a + b)[1..] == a[1..] + b;
    }
  }

  lemma CountRemove(l: seq<Request>, rq: Request, d: Dir)
    requires rq in l
    ensures CountDir(l, d) == CountDir(Remove(l, rq), d) + if rq.dir == d then 1 else 0
    ensures CountMeta(l) == CountMeta(Remove(l, rq)) + if rq.meta then 1 else 0
  {
    var i := IndexOf(l, rq);
    var a, b := l[..i], l[i + 1..];
    assert l == a + ([rq] + b);
    CountConcat(a, [rq] + b, d);
    CountConcat([rq], b, d);
    CountConcat(a, b, d);
    assert CountDir([rq], d) == if rq.dir == d then 1 else 0;
    assert CountMeta([rq]) == if rq.meta then 1 else 0;
  }

  lemma {:induction false} CountInsert(l: seq<Request>, rq: Request, d: Dir)
    ensures CountDir(Insert(l, rq), d) == CountDir(l, d) + if rq.dir == d then 1 else 0
  {
    if l == [] || rq.pos < l[0].pos {
      assert ([rq] + l)[1..] == l;
    } else {
      CountInsert(l[1..], rq, d);
      assert ([l[0]] + Insert(l[1..], rq))[1..] == Insert(l[1..], rq);
    }
  }

  // ---------------------------------------------------------------- the queue

  /** A queue; flight holds the requests that it has sent and not got back, of which the code keeps only the number,
      dispatched. */
  datatype Queue = Queue(sync: bool, slot: Slot, ioprio: nat, resid: int, onRr: bool, sorted: seq<Request>,
                         fifo: seq<Request>, next: Option<Request>, queued: PerDir<int>, metaPending: int, dispatched: int,
                         flight: multiset<Request>)

  function EmptyQueue(sync: bool, cls: Class, ioprio: nat): Queue {
    Queue(sync, Slot(cls, 0), ioprio, 0, false, [], [], None, PerDir(0, 0), 0, 0, multiset{})
  }

  /** The lists and counters agree; extra holds a request that a front merge has taken off the sorted list only. */
  ghost predicate QueueOk(q: Queue, extra: multiset<Request>) {
    && Sorted(q.sorted)
    && multiset(q.fifo) == multiset(q.sorted) + extra
    && q.queued == PerDir(CountDir(q.sorted, Async), CountDir(q.sorted, Sync))
    && q.metaPending == CountMeta(q.fifo)
    && q.dispatched == |q.flight|
    && (q.onRr <==> q.sorted != [])
    && (extra == multiset{} ==> NextOk(q))
  }

  ghost predicate NextOk(q: Queue) {
    (q.next == None <==> q.sorted == []) && (q.next.Some? ==> q.next.value in q.sorted)
  }

  /** cfq_remove_request, without its effect on the service tree. */
  function Removed(q: Queue, t: Tunables, last: nat, rq: Request): Queue
    requires rq in q.sorted && rq in q.fifo
  {
    q.(next := if q.next == Some(rq) then FindNext(t, last, q.sorted, IndexOf(q.sorted, rq)) else q.next,
       fifo := Remove(q.fifo, rq),
       queued := q.queued.Set(rq.dir, q.queued.Get(rq.dir) - 1),
       sorted := Remove(q.sorted, rq),
       onRr := q.onRr && Remove(q.sorted, rq) != [],
       metaPending := if rq.meta then q.metaPending - 1 else q.metaPending)
  }

  /** The same step by step, as cfq_remove_request and cfq_del_rq_rb go about it. */
  method RemoveFrom(q: Queue, t: Tunables, last: nat, rq: Request) returns (me: Queue)
    requires rq in q.sorted && rq in q.fifo
    ensures me == Removed(q, t, last, rq)
  {
    hide FindNext, Remove;
    me := q;
    if me.next == Some(rq) {
      me := me.(next := FindNext(t, last, me.sorted, IndexOf(me.sorted, rq)));
    }
    me := me.(fifo := Remove(me.fifo, rq));
    me := me.(queued := me.queued.Set(rq.dir, me.queued.Get(rq.dir) - 1));
    me := me.(sorted := Remove(me.sorted, rq));
    if me.onRr && me.sorted == [] {
      me := me.(onRr := false);
    }
    if rq.meta {
      me := me.(metaPending := me.metaPending - 1);
    }
  }

  lemma ListsRemove(sorted: seq<Request>, fifo: seq<Request>, extra: multiset<Request>, rq: Request)
    requires Sorted(sorted) && multiset(fifo) == multiset(sorted) + extra && rq in sorted
    ensures rq in fifo && Sorted(Remove(sorted, rq))
    ensures multiset(Remove(fifo, rq)) == multiset(fifo) - multiset{rq}
    ensures multiset(Remove(sorted, rq)) == multiset(sorted) - multiset{rq}
    ensures multiset(Remove(fifo, rq)) == multiset(Remove(sorted, rq)) + extra
    ensures |Remove(fifo, rq)| == |fifo| - 1
  {
    hide Remove, Sorted;
    assert rq in multiset(sorted);
    assert rq in multiset(fifo);
    RemoveSorted(sorted, rq);
    RemoveContents(sorted, rq);
    RemoveContents(fifo, rq);
  }

  /** Removing a request keeps lists and counters in step; the BUG_ON and WARN_ON on the counters cannot fire. */
  lemma RemovedOk(q: Queue, extra: multiset<Request>, t: Tunables, last: nat, rq: Request)
    requires QueueOk(q, extra) && rq in q.sorted
    ensures rq in q.fifo && q.queued.Get(rq.dir) > 0 && (rq.meta ==> q.metaPending > 0)
    ensures QueueOk(Removed(q, t, last, rq), extra)
    ensures |Removed(q, t, last, rq).fifo| == |q.fifo| - 1
    ensures multiset(Removed(q, t, last, rq).fifo) == multiset(q.fifo) - multiset{rq}
    ensures multiset(Removed(q, t, last, rq).sorted) == multiset(q.sorted) - multiset{rq}
    ensures var q' := Removed(q, t, last, rq); q'.sync == q.sync && q'.slot == q.slot && q'.dispatched == q.dispatched
  {
    hide FindNext, CountDir, CountMeta, Remove, Sorted, NextOk;
    ListsRemove(q.sorted, q.fifo, extra, rq);
    CountRemove(q.sorted, rq, Sync);
    CountRemove(q.sorted, rq, Async);
    CountRemove(q.fifo, rq, Sync);
    if extra == multiset{} { RemovedNext(q, t, last, rq); }
  }

  lemma RemovedNext(q: Queue, t: Tunables, last: nat, rq: Request)
    requires Sorted(q.sorted) && rq in q.sorted && rq in q.fifo && NextOk(q)
    ensures NextOk(Removed(q, t, last, rq))
  {}

  /** What cfq_dispatch_insert does to the queue. */
  function Dispatched(q: Queue, t: Tunables, last: nat, rq: Request): Queue
    requires rq in q.sorted && rq in q.fifo
  {
    var q1 := q.(next := FindNext(t, last, q.sorted, IndexOf(q.sorted, rq)));
    Removed(q1, t, last, rq).(dispatched := q.dispatched + 1, flight := q.flight + multiset{rq})
  }

  method DispatchFrom(q: Queue, t: Tunables, last: nat, rq: Request) returns (me: Queue)
    requires rq in q.sorted && rq in q.fifo
    ensures me == Dispatched(q, t, last, rq)
  {
    hide FindNext, Remove;
    me := q.(next := FindNext(t, last, q.sorted, IndexOf(q.sorted, rq)));
    me := RemoveFrom(me, t, last, rq);
    me := me.(dispatched := me.dispatched + 1);
    me := me.(flight := me.flight + multiset{rq});
  }

  /** What cfq_completed_request does to the queue. */
  function Returned(q: Queue, rq: Request): Queue {
    q.(dispatched := q.dispatched - 1, flight := q.flight - multiset{rq})
  }

  lemma ReturnedOk(q: Queue, rq: Request)
    requires QueueOk(q, multiset{}) && rq in q.flight
    ensures q.dispatched > 0 && QueueOk(Returned(q, rq), multiset{})
    ensures var q' := Returned(q, rq);
      && q'.onRr == q.onRr && q'.slot == q.slot && q'.fifo == q.fifo && q'.sync == q.sync && q'.dispatched == q.dispatched - 1
  {}

  lemma {:induction false} DispatchedBest(q: Queue, t: Tunables, last: nat, rq: Request)
    requires Sorted(q.sorted) && rq in q.sorted && rq in q.fifo
    ensures var q' := Dispatched(q, t, last, rq);
      Best(t, last, q'.sorted, q'.next) <==> NeighbourLeads(t, last, q.sorted, IndexOf(q.sorted, rq))
  {
    hide Best, Leads, FindNext, Without;
    var i := IndexOf(q.sorted, rq);
    FindNextIsBest(t, last, q.sorted, i);
  }

  lemma DispatchedOk(q: Queue, extra: multiset<Request>, t: Tunables, last: nat, rq: Request)
    requires QueueOk(q, extra) && rq in q.sorted
    ensures rq in q.fifo
    ensures var q' := Dispatched(q, t, last, rq);
      && QueueOk(q', extra) && NextOk(q')
      && |q'.fifo| == |q.fifo| - 1
      && multiset(q'.fifo) == multiset(q.fifo) - multiset{rq}
      && multiset(q'.sorted) == multiset(q.sorted) - multiset{rq}
      && q'.dispatched == q.dispatched + 1 && q'.sync == q.sync && q'.slot == q.slot
  {
    hide FindNext, CountDir, CountMeta, Remove, Removed, Sorted;
    var q1 := q.(next := FindNext(t, last, q.sorted, IndexOf(q.sorted, rq)));
    RemovedOk(q, extra, t, last, rq);
    DispatchedNext(q, t, last, rq);
    RemovedNextOnly(q, q1, t, last, rq);
  }

  /** Only the cached request depends on which one was cached before. */
  lemma RemovedNextOnly(q: Queue, q1: Queue, t: Tunables, last: nat, rq: Request)
    requires rq in q.sorted && rq in q.fifo && q1 == q.(next := q1.next)
    ensures Removed(q1, t, last, rq) == Removed(q, t, last, rq).(next := Removed(q1, t, last, rq).next)
  {}

  lemma DispatchedNext(q: Queue, t: Tunables, last: nat, rq: Request)
    requires Sorted(q.sorted) && rq in q.sorted && rq in q.fifo
    ensures NextOk(Dispatched(q, t, last, rq))
  {}

  /** The end of cfq_add_rq_rb, where the sector of rq is free. */
  function Attached(q: Queue, t: Tunables, last: nat, rq: Request): Queue {
    q.(queued := q.queued.Set(rq.dir, q.queued.Get(rq.dir) + 1),
       sorted := Insert(q.sorted, rq),
       onRr := true,
       next := ChooseReq(t, last, q.next, Some(rq)))
  }

  /** The same step by step; the counter of the direction goes first. */
  method AttachTo(q: Queue, t: Tunables, last: nat, rq: Request) returns (me: Queue)
    ensures me == Attached(q, t, last, rq)
  {
    hide ChooseReq, Insert;
    me := q.(queued := q.queued.Set(rq.dir, q.queued.Get(rq.dir) + 1));
    me := me.(sorted := Insert(me.sorted, rq));
    if !me.onRr {
      me := me.(onRr := true);
    }
    me := me.(next := ChooseReq(t, last, me.next, Some(rq)));
  }

  /** The lists and counters agree apart from rq, which is about to be attached. */
  ghost predicate ReadyFor(q: Queue, extra: multiset<Request>, rq: Request) {
    && Sorted(q.sorted) && !HasPos(q.sorted, rq.pos)
    && multiset(q.fifo) == multiset(q.sorted) + extra
    && q.queued == PerDir(CountDir(q.sorted, Async), CountDir(q.sorted, Sync))
    && q.metaPending == CountMeta(q.fifo)
    && q.dispatched == |q.flight|
    && (q.next.Some? ==> q.next.value in q.sorted || q.next.value == rq)
  }

  /** Attaching a request whose place in the fifo exists already. */
  lemma AttachedOk(q: Queue, t: Tunables, last: nat, rq: Request)
    requires ReadyFor(q, multiset{rq}, rq)
    ensures QueueOk(Attached(q, t, last, rq), multiset{})
    ensures rq in Attached(q, t, last, rq).sorted
  {
    hide ChooseReq, CountDir, CountMeta, Sorted, HasPos;
    InsertSorted(q.sorted, rq);
    CountInsert(q.sorted, rq, Sync);
    CountInsert(q.sorted, rq, Async);
    ChooseIsOneOf(t, last, q.next, Some(rq));
  }

  lemma ChooseIsOneOf(t: Tunables, last: nat, a: Option<Request>, b: Option<Request>)
    ensures ChooseReq(t, last, a, b) in {a, b}
    ensures b.Some? ==> ChooseReq(t, last, a, b).Some?
  {}

  /** cfq_insert_request once the alias is gone: the request is sorted in and appended to the fifo. */
  function Inserted(q: Queue, t: Tunables, last: nat, rq: Request): Queue {
    var q1 := Attached(q, t, last, rq);
    q1.(fifo := q.fifo + [rq], metaPending := if rq.meta then q.metaPending + 1 else q.metaPending)
  }

  method InsertInto(q: Queue, t: Tunables, last: nat, rq: Request) returns (me: Queue)
    ensures me == Inserted(q, t, last, rq)
  {
    hide ChooseReq, Insert;
    me := q;
    if rq.meta {
      me := me.(metaPending := me.metaPending + 1);
    }
    me := AttachTo(me, t, last, rq);
    me := me.(fifo := me.fifo + [rq]);
  }

  lemma InsertedOk(q: Queue, t: Tunables, last: nat, rq: Request)
    requires QueueOk(q, multiset{}) && !HasPos(q.sorted, rq.pos)
    ensures QueueOk(Inserted(q, t, last, rq), multiset{})
    ensures |Inserted(q, t, last, rq).fifo| == |q.fifo| + 1
  {
    hide ChooseReq, CountDir, CountMeta, Sorted, HasPos;
    var q0 := q.(fifo := q.fifo + [rq], metaPending := if rq.meta then q.metaPending + 1 else q.metaPending);
    CountConcat(q.fifo, [rq], Sync);
    CountOne(rq);
    AttachedOk(q0, t, last, rq);
    assert Attached(q0, t, last, rq) == Inserted(q, t, last, rq);
  }

  lemma CountOne(rq: Request)
    ensures CountMeta([rq]) == if rq.meta then 1 else 0
  {}

  // ---------------------------------------------------------------- merging

  /** A front merge has moved the start of rq to where rq' starts; cfq_reposition_rq_rb takes it off the sorted list. */
  function Detached(q: Queue, rq: Request, rq': Request): Queue
    requires rq in q.sorted && rq in q.fifo
  {
    q.(sorted := Remove(q.sorted, rq),
       fifo := q.fifo[IndexOf(q.fifo, rq) := rq'],
       next := if q.next == Some(rq) then Some(rq') else q.next,
       queued := q.queued.Set(rq.dir, q.queued.Get(rq.dir) - 1))
  }

  method DetachFrom(q: Queue, rq: Request, rq': Request) returns (me: Queue)
    requires rq in q.sorted && rq in q.fifo
    ensures me == Detached(q, rq, rq')
  {
    hide Remove;
    me := q.(fifo := q.fifo[IndexOf(q.fifo, rq) := rq']);
    if me.next == Some(rq) {
      me := me.(next := Some(rq'));
    }
    me := me.(sorted := Remove(me.sorted, rq));
    me := me.(queued := me.queued.Set(rq.dir, me.queued.Get(rq.dir) - 1));
  }

  lemma DetachedOk(q: Queue, rq: Request, rq': Request)
    requires QueueOk(q, multiset{}) && rq in q.sorted && rq'.dir == rq.dir && rq'.meta == rq.meta
    ensures rq in q.fifo
    ensures var q' := Detached(q, rq, rq');
      && Sorted(q'.sorted)
      && multiset(q'.sorted) == multiset(q.sorted) - multiset{rq}
      && multiset(q'.fifo) == multiset(q'.sorted) + multiset{rq'}
      && multiset(q'.fifo) == multiset(q.fifo) - multiset{rq} + multiset{rq'}
      && |q'.fifo| == |q.fifo|
      && q'.queued == PerDir(CountDir(q'.sorted, Async), CountDir(q'.sorted, Sync))
      && q'.metaPending == CountMeta(q'.fifo)
      && (q'.next.Some? ==> q'.next.value in q'.sorted || q'.next.value == rq')
  {
    hide CountDir, CountMeta, Sorted, Remove, NextOk;
    ListsRemove(q.sorted, q.fifo, multiset{}, rq);
    CountRemove(q.sorted, rq, Sync);
    CountRemove(q.sorted, rq, Async);
    ReplaceContents(q.fifo, IndexOf(q.fifo, rq), rq');
    DetachedNext(q, rq, rq');
  }

  lemma DetachedNext(q: Queue, rq: Request, rq': Request)
    requires NextOk(q) && Sorted(q.sorted) && rq in q.sorted && rq in q.fifo
    ensures var q' := Detached(q, rq, rq'); q'.next.Some? ==> q'.next.value in q'.sorted || q'.next.value == rq'
  {}

  lemma ReplaceContents(l: seq<Request>, i: nat, x: Request)
    requires i < |l| && x.meta == l[i].meta
    ensures multiset(l[i := x]) == multiset(l) - multiset{l[i]} + multiset{x}
    ensures CountMeta(l[i := x]) == CountMeta(l)
  {
    hide CountMeta;
    var a, b := l[..i], l[i + 1..];
    assert l == a + ([l[i]] + b);
    assert l[i := x] == a + ([x] + b);
    CountConcat(a, [l[i]] + b, Sync);
    CountConcat(a, [x] + b, Sync);
    CountConcat([l[i]], b, Sync);
    CountConcat([x], b, Sync);
    CountOne(l[i]);
    CountOne(x);
  }

  /** list_move of rq to the place after next in the fifo. */
  function MovedAfter(l: seq<Request>, rq: Request, next: Request): seq<Request>
    requires rq in l && next in Remove(l, rq)
  {
    var l1 := Remove(l, rq);
    var i := IndexOf(l1, next) + 1;
    l1[..i] + [rq] + l1[i..]
  }

  lemma MovedContents(l: seq<Request>, rq: Request, next: Request)
    requires rq in l && next in Remove(l, rq)
    ensures multiset(MovedAfter(l, rq, next)) == multiset(l)
    ensures CountMeta(MovedAfter(l, rq, next)) == CountMeta(l)
    ensures |MovedAfter(l, rq, next)| == |l|
  {
    hide CountMeta;
    var l1 := Remove(l, rq);
    var i := IndexOf(l1, next) + 1;
    RemoveContents(l, rq);
    CountRemove(l, rq, Sync);
    assert l1 == l1[..i] + l1[i..];
    assert MovedAfter(l, rq, next) == l1[..i] + ([rq] + l1[i..]);
    CountConcat(l1[..i], l1[i..], Sync);
    CountConcat(l1[..i], [rq] + l1[i..], Sync);
    CountConcat([rq], l1[i..], Sync);
    CountOne(rq);
    assert rq in multiset(l);
    calc {
      multiset(MovedAfter(l, rq, next));
      multiset(l1[..i]) + multiset([rq] + l1[i..]);
      multiset(l1[..i]) + multiset(l1[i..]) + multiset{rq};
      { assert multiset(l1) == multiset(l1[..i]) + multiset(l1[i..]); }
      multiset(l1) + multiset{rq};
      multiset(l);
    }
  }

  /** The list without next, with rq where next was. */
  function InPlaceOf(l: seq<Request>, rq: Request, next: Request): seq<Request>
    requires rq in l && next in Remove(l, rq)
  {
    var l1 := Remove(l, rq);
    l1[IndexOf(l1, next) := rq]
  }

  /** Moving rq behind next and then removing next puts rq in the place of next. */
  lemma {:induction false} TakesPlace(l: seq<Request>, rq: Request, next: Request)
    requires rq in l && next in Remove(l, rq) && rq != next
    ensures next in MovedAfter(l, rq, next) && Remove(MovedAfter(l, rq, next), next) == InPlaceOf(l, rq, next)
    ensures next in l
  {
    hide IndexOf, Remove, Without;
    var l1 := Remove(l, rq);
    var i := IndexOf(l1, next);
    var m := l1[..i + 1] + [rq] + l1[i + 1..];
    FirstIndex(l1, m, i, next);
    MovedWithout(l1, i, rq, m);
    RemoveIs(m, next);
    StillIn(l, rq, next);
  }

  lemma {:induction false} MovedWithout(l: seq<Request>, i: nat, rq: Request, m: seq<Request>)
    requires i < |l| && m == l[..i + 1] + [rq] + l[i + 1..]
    ensures Without(m, i) == l[i := rq]
  {}

  lemma RemoveIs(l: seq<Request>, x: Request)
    requires x in l
    ensures Remove(l, x) == Without(l, IndexOf(l, x))
  {}

  lemma StillIn(l: seq<Request>, rq: Request, x: Request)
    requires rq in l && x in Remove(l, rq)
    ensures x in l
  {}

  lemma {:induction false} FirstIndex(l: seq<Request>, m: seq<Request>, i: nat, x: Request)
    requires x in l && i == IndexOf(l, x) && i < |m| && m[..i + 1] == l[..i + 1]
    ensures x in m && IndexOf(m, x) == i
  {
    assert m[i] == m[..i + 1][i] == l[i];
    if i > 0 {
      assert m[0] == m[..i + 1][0] == l[0];
      assert m[1..][..i] == m[..i + 1][1..] == l[1..][..i];
      FirstIndex(l[1..], m[1..], i - 1, x);
    }
  }

  lemma RemovedFifo(q: Queue, t: Tunables, last: nat, rq: Request)
    requires rq in q.sorted && rq in q.fifo
    ensures Removed(q, t, last, rq).fifo == Remove(q.fifo, rq)
  {}
}
