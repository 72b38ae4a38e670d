/**
  The anticipatory scheduler's state of block/as-iosched.c (struct as_data) and the hooks that change it:
  adding, dispatching and completing requests, batch switching, and the anticipation machine.

  The time (jiffies) is a parameter, and so is the part of as_can_break_anticipation that judges by the seek and think-time
  statistics of processes: what is proved holds for every such judgement.
 */
module AsSched {
  import opened Elevator
  import opened Wrappers
  import opened AsChoice

  // ---------------------------------------------------------------- the queued requests

  /** sort_list, fifo_list, next_rq and last_sector of one direction. */
  datatype Lane = Lane(sorted: seq<Request>, fifo: seq<Request>, next: Option<Request>, last: nat)

  const EmptyLane := Lane([], [], None, 0)

  /** Both lists hold the same requests; next_rq is one of them, and missing only if there is none. While exact
      holds, next_rq is the choice over the whole list for the current head position. */
  ghost predicate LaneOk(d: Dir, l: Lane, exact: bool) {
    && Sorted(l.sorted)
    && (forall x :: x in l.sorted ==> x.dir == d)
    && multiset(l.fifo) == multiset(l.sorted)
    && (l.next == None <==> l.sorted == [])
    && (l.next.Some? ==> l.next.value in l.sorted)
    && (exact ==> Best(l.last, l.sorted, l.next))
  }

  ghost predicate LanesOk(lanes: PerDir<Lane>, exact: PerDir<bool>, inFlight: set<Request>) {
    && LaneOk(Sync, lanes.sync, exact.sync)
    && LaneOk(Async, lanes.async, exact.async)
    && forall x :: x in inFlight ==> x !in lanes.sync.sorted && x !in lanes.async.sorted
  }

  /** as_remove_queued_request */
  function RemoveQueued(l: Lane, rq: Request): Lane
    requires rq in l.sorted && rq in l.fifo
  {
    var next := if l.next == Some(rq) then FindNext(l.last, l.sorted, IndexOf(l.sorted, rq)) else l.next;
    Lane(Remove(l.sorted, rq), Remove(l.fifo, rq), next, l.last)
  }

  /** What as_move_to_dispatch does to the lists: the head moves to the end of rq first. */
  function TakeOut(l: Lane, rq: Request): Lane
    requires rq in l.sorted && rq in l.fifo
  {
    var l1 := l.(last := rq.End());
    RemoveQueued(l1.(next := FindNext(l1.last, l1.sorted, IndexOf(l1.sorted, rq))), rq)
  }

  /** What as_add_request does to the lists at a free sector. */
  function PutIn(l: Lane, rq: Request): Lane {
    Lane(Insert(l.sorted, rq), l.fifo + [rq], ChooseReq(l.last, Some(rq), l.next), l.last)
  }

  /** The same three step by step, as the code goes about them. */
  method RemoveFrom(l: Lane, rq: Request) returns (m: Lane)
    requires rq in l.sorted && rq in l.fifo
    ensures m == RemoveQueued(l, rq)
  {
    hide FindNext, Remove;
    m := l;
    if m.next == Some(rq) {
      m := m.(next := FindNext(m.last, m.sorted, IndexOf(m.sorted, rq)));
    }
    m := m.(fifo := Remove(m.fifo, rq));
    m := m.(sorted := Remove(m.sorted, rq));
  }

  method TakeFrom(l: Lane, rq: Request) returns (m: Lane)
    requires rq in l.sorted && rq in l.fifo
    ensures m == TakeOut(l, rq)
  {
    hide FindNext, RemoveQueued;
    m := l.(last := rq.pos + rq.sectors);
    m := m.(next := FindNext(m.last, m.sorted, IndexOf(m.sorted, rq)));
    m := RemoveFrom(m, rq);
  }

  method AddTo(l: Lane, rq: Request) returns (m: Lane)
    ensures m == PutIn(l, rq)
  {
    hide ChooseReq, Insert;
    m := l.(sorted := Insert(l.sorted, rq));
    m := m.(fifo := m.fifo + [rq]);
    m := m.(next := ChooseReq(m.last, Some(rq), m.next));
  }

  /** Removing any request, also one that is not dispatched, leaves a cache that is in the list. */
  lemma {:induction false} RemoveQueuedOk(d: Dir, l: Lane, rq: Request)
    requires LaneOk(d, l, false) && rq in l.sorted
    ensures rq in l.fifo && LaneOk(d, RemoveQueued(l, rq), false)
  {
    assert Remove(l.sorted, rq) == Without(l.sorted, IndexOf(l.sorted, rq));
    hide FindNext, Remove, Without, Sorted;
    assert rq in multiset(l.sorted);
    RemoveSorted(l.sorted, rq);
    RemoveContents(l.sorted, rq);
    RemoveContents(l.fifo, rq);
    FindNextIsNeighbour(l.last, l.sorted, IndexOf(l.sorted, rq));
  }

  /** The cache is right for the whole list after a removal exactly if the neighbours of rq decide. */
  lemma TakeOutOk(d: Dir, l: Lane, exact: bool, rq: Request)
    requires LaneOk(d, l, exact) && rq in l.sorted
    ensures rq in l.fifo
    ensures LaneOk(d, TakeOut(l, rq), NeighboursDecide(l.sorted, IndexOf(l.sorted, rq)))
    ensures !NeighboursDecide(l.sorted, IndexOf(l.sorted, rq)) ==>
      !Best(rq.End(), TakeOut(l, rq).sorted, TakeOut(l, rq).next)
    ensures TakeOut(l, rq) ==
      Lane(Remove(l.sorted, rq), Remove(l.fifo, rq), FindNext(rq.End(), l.sorted, IndexOf(l.sorted, rq)), rq.End())
    ensures forall x :: x in TakeOut(l, rq).sorted <==> x in l.sorted && x != rq
  {
    hide FindNext, NeighboursDecide, Best, Sorted;
    var i := IndexOf(l.sorted, rq);
    TakeOutFields(l, rq);
    assert Remove(l.sorted, rq) == Without(l.sorted, i);
    FindNextIsBest(l.sorted, i);
    FindNextIsNeighbour(rq.End(), l.sorted, i);
  }

  lemma TakeOutFields(l: Lane, rq: Request)
    requires Sorted(l.sorted) && multiset(l.fifo) == multiset(l.sorted) && rq in l.sorted
    ensures rq in l.fifo
    ensures TakeOut(l, rq) ==
      Lane(Remove(l.sorted, rq), Remove(l.fifo, rq), FindNext(rq.End(), l.sorted, IndexOf(l.sorted, rq)), rq.End())
    ensures Sorted(Remove(l.sorted, rq)) && multiset(Remove(l.fifo, rq)) == multiset(Remove(l.sorted, rq))
    ensures |Remove(l.sorted, rq)| == |l.sorted| - 1
    ensures forall x :: x in Remove(l.sorted, rq) <==> x in l.sorted && x != rq
  {
    hide FindNext, Remove, Sorted;
    assert rq in multiset(l.sorted);
    FindNextIsNeighbour(rq.End(), l.sorted, IndexOf(l.sorted, rq));
    assert FindNext(rq.End(), l.sorted, IndexOf(l.sorted, rq)) != Some(rq) by {
      if |l.sorted| > 1 { NotInRest(l.sorted, rq); }
    }
    RemoveSorted(l.sorted, rq);
    RemoveContents(l.sorted, rq);
    RemoveContents(l.fifo, rq);
  }

  lemma NotInRest(l: seq<Request>, rq: Request)
    requires Sorted(l) && rq in l
    ensures rq !in Without(l, IndexOf(l, rq))
  {}

  lemma PutInOk(d: Dir, l: Lane, exact: bool, rq: Request)
    requires LaneOk(d, l, exact) && !HasPos(l.sorted, rq.pos) && rq.dir == d
    ensures LaneOk(d, PutIn(l, rq), exact)
    ensures forall x :: x in PutIn(l, rq).sorted <==> x in l.sorted || x == rq
  {
    hide Beats;
    InsertSorted(l.sorted, rq);
    if exact {
      forall x, y | x in l.sorted && y in l.sorted && x != y ensures x.pos != y.pos {
        DistinctPos(l.sorted, x, y);
      }
      forall x | x in l.sorted ensures x.pos != rq.pos {
        assert l.sorted[IndexOf(l.sorted, x)].pos != rq.pos;
      }
      ChooseKeepsBest(l.last, l.sorted, l.next, rq, Insert(l.sorted, rq));
    }
  }

  lemma LanesTakeOut(lanes: PerDir<Lane>, exact: PerDir<bool>, inFlight: set<Request>, rq: Request)
    requires LanesOk(lanes, exact, inFlight) && rq in lanes.Get(rq.dir).sorted
    ensures rq in lanes.Get(rq.dir).fifo && rq !in inFlight
    ensures var l := lanes.Get(rq.dir);
      LanesOk(lanes.Set(rq.dir, TakeOut(l, rq)),
              exact.Set(rq.dir, NeighboursDecide(l.sorted, IndexOf(l.sorted, rq))), inFlight + {rq})
  {
    hide TakeOut, NeighboursDecide, Best, Sorted;
    TakeOutOk(rq.dir, lanes.Get(rq.dir), exact.Get(rq.dir), rq);
  }

  /** An alias lies in the same direction, and with it gone the sector is free. */
  lemma AliasLeaves(lanes: PerDir<Lane>, exact: PerDir<bool>, inFlight: set<Request>, d: Dir, a: Request)
    requires LanesOk(lanes, exact, inFlight) && a in lanes.Get(d).sorted
    ensures a.dir == d && a in lanes.Get(d).fifo && !HasPos(TakeOut(lanes.Get(d), a).sorted, a.pos)
  {
    hide TakeOut, NeighboursDecide, Best;
    var l := lanes.Get(d);
    TakeOutOk(d, l, exact.Get(d), a);
    var t := TakeOut(l, a).sorted;
    forall i | 0 <= i < |t| ensures t[i].pos != a.pos {
      assert t[i] in t;
      DistinctPos(l.sorted, t[i], a);
    }
  }

  lemma LanesPutIn(lanes: PerDir<Lane>, exact: PerDir<bool>, inFlight: set<Request>, rq: Request)
    requires LanesOk(lanes, exact, inFlight) && rq !in inFlight && !HasPos(lanes.Get(rq.dir).sorted, rq.pos)
    ensures LanesOk(lanes.Set(rq.dir, PutIn(lanes.Get(rq.dir), rq)), exact, inFlight)
  {
    hide PutIn, Best, Sorted;
    PutInOk(rq.dir, lanes.Get(rq.dir), exact.Get(rq.dir), rq);
  }

  // ---------------------------------------------------------------- batches

  /** The fields of as_data that drive the batches. */
  datatype Batch = Batch(changed: bool, newBatch: bool, dir: Dir, expires: int, writeCount: int, writesLeft: int,
                         idled: bool, lastCheck: PerDir<int>, nrDispatched: int)
  {
    /** The direction that may be in flight: that of the batch, or the one being drained. */
    function FlightDir(): Dir { if changed then dir.Other() else dir }

    /** What as_move_to_dispatch counts. */
    function Dispatched(rq: Request): Batch {
      this.(nrDispatched := nrDispatched + 1,
            writesLeft := if rq.dir == Async && writesLeft != 0 then writesLeft - 1 else writesLeft)
    }

    /** as_batch_expired */
    predicate Expired(now: int) {
      !changed && !newBatch && (now > expires || (dir == Async && writesLeft == 0))
    }

    /** The choice of a direction in as_dispatch_request when no batch is running; the precondition is its BUG(). */
    function Switched(haveReads: bool, haveWrites: bool, now: int): Batch
      requires haveReads || haveWrites
    {
      if haveReads && !(haveWrites && dir == Sync) then
        this.(changed := changed || dir == Async, dir := Sync, lastCheck := lastCheck.Set(Sync, now))
      else
        this.(changed := changed || dir == Sync, newBatch := newBatch && dir == Async, dir := Async,
              writesLeft := writeCount, idled := false, lastCheck := lastCheck.Set(Async, now))
    }

    /** A changed batch that has nothing left to drain starts at once. */
    function Started(now: int, batchExpire: PerDir<int>): Batch {
      if changed then
        if dir == Async then this.(expires := now + batchExpire.async, changed := false)
        else this.(newBatch := true, changed := false)
      else this
    }

    /** update_write_batch */
    function WithWriteBatch(now: int, batchExpire: PerDir<int>): Batch {
      var limit := batchExpire.async;
      var time := Max(now - expires + limit, 0);
      var count :=
        if time > limit && !idled then (if time > limit * 3 then writeCount / 2 else writeCount - 1)
        else if time < limit && writesLeft == 0 then (if limit > time * 3 then writeCount * 2 else writeCount + 1)
        else writeCount;
      this.(writeCount := Max(count, 1))
    }

    /** What as_completed_request does to the batch. */
    function Completed(rq: Request, now: int, batchExpire: PerDir<int>): Batch {
      var b := if Drained() then this.(expires := now + batchExpire.Get(dir), changed := false, newBatch := newBatch || dir == Sync)
               else this;
      var b1 := b.(nrDispatched := nrDispatched - 1);
      if b1.newBatch && b1.dir == rq.dir
      then b1.WithWriteBatch(now, batchExpire).(expires := now + batchExpire.sync, newBatch := false)
      else b1
    }

    /** The request being completed is the last of the old batch. */
    predicate Drained() { changed && nrDispatched == 1 }
  }

  /** changed_batch and new_batch are never both set, new_batch means a read batch, a changed batch has something left to
      drain, and, unless mixed, everything in flight has one direction. */
  ghost predicate BatchOk(b: Batch, inFlight: set<Request>, mixed: bool) {
    && b.nrDispatched == |inFlight|
    && !(b.changed && b.newBatch)
    && (b.newBatch ==> b.dir == Sync)
    && (b.changed ==> inFlight != {})
    && (!mixed ==> forall x :: x in inFlight ==> x.dir == b.FlightDir())
    && b.writeCount >= 1 && b.writesLeft >= 0
  }

  // ---------------------------------------------------------------- anticipation

  datatype AnticStatus = AnticOff | WaitReq | WaitNext | AnticFinished

  /** antic_status, antic_start, the timer and the work item, io_context and ioc_finished. */
  datatype Antic = Antic(status: AnticStatus, start: int, armed: bool, workPending: bool, ioc: Option<nat>, finished: bool) {

    predicate Waiting() { status == WaitReq || status == WaitNext }

    /** as_antic_waitnext; the precondition is its BUG_ON. */
    function WaitingForNext(): Antic
      requires status in {AnticOff, WaitReq}
    {
      this.(armed := true, status := WaitNext)
    }

    /** as_antic_waitreq; the precondition is its BUG_ON. */
    function WaitingForReq(): Antic
      requires status != AnticFinished
    {
      if status == AnticOff then
        if ioc == None || finished then WaitingForNext() else this.(status := WaitReq)
      else this
    }

    /** What as_move_to_dispatch does to anticipation: copy_io_context leaves io_context alone if rq has none. */
    function Dispatched(rq: Request): Antic {
      Stopped().(status := AnticOff, finished := false,
                 ioc := if rq.dir == Async then None else if rq.ioc.Some? then rq.ioc else ioc)
    }

    /** What as_completed_request does to anticipation. */
    function Completed(rq: Request, now: int, drained: bool): Antic {
      var a := this.(workPending := workPending || drained);
      if ioc == rq.ioc && ioc.Some? then
        var a1 := a.(start := now, finished := true);
        if status == WaitReq then a1.WaitingForNext() else a1
      else a
    }

    /** as_can_anticipate, given the verdict of as_can_break_anticipation. */
    predicate CanAnticipate(canBreak: bool) {
      ioc.Some? && status != AnticFinished && !canBreak
    }

    /** as_antic_stop */
    function Stopped(): Antic {
      if Waiting() then this.(armed := armed && status != WaitNext, status := AnticFinished, workPending := true)
      else this
    }
  }

  /** A request of the process that anticipation names is in flight. */
  ghost predicate NamedFlies(a: Antic, inFlight: set<Request>) { exists x :: x in inFlight && x.ioc == a.ioc }

  /** Dispatching rq leaves an earlier process named that has nothing in flight: rq is a read without an io_context. */
  ghost predicate GoesStale(a: Antic, inFlight: set<Request>, rq: Request) {
    rq.dir == Sync && rq.ioc == None && a.ioc.Some? && !NamedFlies(a, inFlight)
  }

  /** Anticipation names a process of which something is in flight or has completed, unless the last dispatch was stale; and
      the timer runs while it waits for the next request of that process. */
  ghost predicate AnticOk(a: Antic, inFlight: set<Request>, stale: bool) {
    && (a.Waiting() ==> a.ioc.Some?)
    && (a.status == WaitReq ==> !a.finished)
    && (a.status == WaitNext ==> a.finished)
    && (a.armed <==> a.status == WaitNext)
    && (stale <==> a.ioc.Some? && !a.finished && !NamedFlies(a, inFlight))
  }

  /** A wait is for something that comes, the timer or a request in flight whose completion arms it, exactly if the last
      dispatch was not stale. */
  lemma WaitEnds(a: Antic, inFlight: set<Request>, stale: bool)
    requires AnticOk(a, inFlight, stale) && a.Waiting()
    ensures a.armed || NamedFlies(a, inFlight) <==> !stale
    ensures stale ==> a.status == WaitReq
    ensures forall rq, now, drained :: rq in inFlight && rq.ioc == a.ioc ==> a.Completed(rq, now, drained).armed
  {}

  /** A completion: when it comes, and whether the batch has drained with it. */
  datatype Done = Done(rq: Request, now: int, drained: bool)

  function AllCompleted(a: Antic, done: seq<Done>): Antic
    decreases |done|
  {
    if done == [] then a else AllCompleted(a.Completed(done[0].rq, done[0].now, done[0].drained), done[1..])
  }

  /** So when everything that is in flight has completed, in whatever order, the timer runs exactly if the wait is not stale. */
  lemma {:induction false} TimerRuns(a: Antic, inFlight: set<Request>, stale: bool, done: seq<Done>)
    requires AnticOk(a, inFlight, stale) && a.Waiting()
    requires forall i :: 0 <= i < |done| ==> done[i].rq in inFlight
    requires forall x :: x in inFlight ==> exists i :: 0 <= i < |done| && done[i].rq == x
    requires forall i, j :: 0 <= i < j < |done| ==> done[i].rq != done[j].rq
    ensures var a' := AllCompleted(a, done); a'.Waiting() && (a'.armed <==> !stale)
    decreases |done|
  {
    if done == [] {
      assert inFlight == {};
    } else {
      var d, rest := done[0], done[1..];
      AnticComplete(a, inFlight, stale, d.rq, d.now, d.drained);
      forall x | x in inFlight - {d.rq} ensures exists i :: 0 <= i < |rest| && rest[i].rq == x {
        var i :| 0 <= i < |done| && done[i].rq == x;
        assert rest[i - 1].rq == x;
      }
      TimerRuns(a.Completed(d.rq, d.now, d.drained), inFlight - {d.rq}, stale, rest);
    }
  }

  lemma BatchDispatch(b: Batch, inFlight: set<Request>, mixed: bool, rq: Request)
    requires BatchOk(b, inFlight, mixed) && rq !in inFlight
    ensures BatchOk(b.Dispatched(rq), inFlight + {rq}, mixed || rq.dir != b.FlightDir())
  {}

  lemma AnticDispatch(a: Antic, inFlight: set<Request>, stale: bool, rq: Request)
    requires AnticOk(a, inFlight, stale)
    ensures AnticOk(a.Dispatched(rq), inFlight + {rq}, GoesStale(a, inFlight, rq))
  {
    assert rq in inFlight + {rq};
  }

  lemma DispatchStops(a: Antic, rq: Request)
    ensures !a.Dispatched(rq).Waiting() && a.Dispatched(rq).Stopped() == a.Dispatched(rq)
  {}

  /** Switching batches: what is in flight belongs to the batch that the switch ends. */
  lemma BatchSwitch(b: Batch, inFlight: set<Request>, mixed: bool, haveReads: bool, haveWrites: bool, now: int)
    requires BatchOk(b, inFlight, mixed) && !b.changed && (haveReads || haveWrites)
    ensures var b' := b.Switched(haveReads, haveWrites, now);
      && (b'.nrDispatched != 0 || !b'.changed ==> BatchOk(b', inFlight, mixed))
      && b'.nrDispatched == b.nrDispatched == |inFlight|
      && b'.dir == (if haveReads && haveWrites then b.dir.Other() else if haveReads then Sync else Async)
      && (b'.changed <==> b'.dir != b.dir)
      && b' == b'.(lastCheck := b'.lastCheck.Set(b'.dir, now))
  {}

  lemma NothingToStart(b: Batch, now: int, be: PerDir<int>)
    requires !b.changed
    ensures b.Started(now, be) == b
  {}

  lemma BatchStart(b: Batch, inFlight: set<Request>, mixed: bool, haveReads: bool, haveWrites: bool, now: int, t: PerDir<int>, be: PerDir<int>)
    requires BatchOk(b, inFlight, mixed) && !b.changed && (haveReads || haveWrites) && b.nrDispatched == 0
    ensures var b' := b.Switched(haveReads, haveWrites, now).(lastCheck := t).Started(now, be);
      BatchOk(b', inFlight, mixed) && !b'.changed && b'.dir == b.Switched(haveReads, haveWrites, now).dir
  {}

  lemma BatchComplete(b: Batch, inFlight: set<Request>, mixed: bool, rq: Request, now: int, be: PerDir<int>)
    requires BatchOk(b, inFlight, mixed) && rq in inFlight
    ensures BatchOk(b.Completed(rq, now, be), inFlight - {rq}, mixed && inFlight != {rq})
  {}

  /** When a batch starts with a completion: the last one of the old batch, or the first read of a new read batch. Its deadline
      is then set by its direction, and nothing else moves a deadline. */
  lemma {:induction false} CompletedMeans(b: Batch, rq: Request, now: int, be: PerDir<int>)
    requires b.newBatch ==> b.dir == Sync
    ensures var b' := b.Completed(rq, now, be); var ends, starts := b.changed && b.nrDispatched == 1, b.newBatch && rq.dir == Sync;
      && b'.expires == (if ends || starts then now + (if b.dir == Sync then be.sync else be.async) else b.expires)
      && b'.changed == (b.changed && !ends) && b'.dir == b.dir && b'.nrDispatched == b.nrDispatched - 1
      && b'.newBatch == ((b.newBatch || ends) && b.dir == Sync && rq.dir == Async)
      && b'.writesLeft == b.writesLeft && b'.idled == b.idled && b'.lastCheck == b.lastCheck
  {}

  lemma SameBatch(b: Batch, rq: Request)
    ensures var b' := b.Dispatched(rq);
      b'.dir == b.dir && b'.changed == b.changed && b'.newBatch == b.newBatch && b'.expires == b.expires
  {}

  lemma SwitchedIdled(b: Batch, haveReads: bool, haveWrites: bool, now: int, be: PerDir<int>, rq: Request)
    requires haveReads || haveWrites
    ensures b.Switched(haveReads, haveWrites, now).idled ==> b.idled
    ensures b.Switched(haveReads, haveWrites, now).Started(now, be).Dispatched(rq).idled ==> b.idled
  {}

  lemma SomethingIn()
    ensures forall l, rq :: PutIn(l, rq).fifo != []
  {}

  lemma BatchFacts(b: Batch, inFlight: set<Request>, mixed: bool)
    requires BatchOk(b, inFlight, mixed)
    ensures !(b.changed && b.newBatch) && (b.newBatch ==> b.dir == Sync)
  {}

  lemma AnticComplete(a: Antic, inFlight: set<Request>, stale: bool, rq: Request, now: int, drained: bool)
    requires AnticOk(a, inFlight, stale) && rq in inFlight
    ensures AnticOk(a.Completed(rq, now, drained), inFlight - {rq}, stale)
  {}

  lemma StopOk(a: Antic, inFlight: set<Request>, stale: bool)
    requires AnticOk(a, inFlight, stale)
    ensures AnticOk(a.Stopped(), inFlight, stale)
  {}

  /** as_can_break_anticipation, for a request rq at hand if there is one: it is of the named process, or the wait has lasted
      too long, or that process has other requests queued or dispatched, or the statistics say so, as guess tells. */
  predicate Breaks(a: Antic, lanes: PerDir<Lane>, rqState: map<Request, RqState>, rq: Option<Request>, now: int, anticExpire: int,
                   guess: bool)
  {
    || (rq.Some? && rq.value.ioc == a.ioc)
    || (a.finished && Abs(now - a.start) >= anticExpire)
    || (exists x :: x in lanes.sync.fifo && x.ioc == a.ioc)
    || (exists x :: x in lanes.async.fifo && x.ioc == a.ioc)
    || (exists x :: x in rqState && rqState[x] == RqDispatched && x.ioc == a.ioc)
    || guess
  }

  /** as_update_rq, given the verdict of as_can_break_anticipation. */
  function Interrupted(a: Antic, canBreak: bool): Antic {
    if a.Waiting() && canBreak then a.Stopped() else a
  }

  datatype RqState = RqNew | RqQueued | RqDispatched | RqRemoved | RqPostsched

  /** A dispatched request, whether the driver has activated it or not, is in flight. */
  ghost predicate StatesOk(rqState: map<Request, RqState>, inFlight: set<Request>) {
    forall x :: x in rqState && rqState[x] in {RqDispatched, RqRemoved} ==> x in inFlight
  }

  /** Every request of a FIFO has a deadline, the deadlines are in the order of the FIFO, and none is later than last. */
  ghost predicate Deadlines(fifo: seq<Request>, fifoTime: map<Request, int>, last: int) {
    && (forall i :: 0 <= i < |fifo| ==> fifo[i] in fifoTime && fifoTime[fifo[i]] <= last)
    && (forall i, j :: 0 <= i < j < |fifo| ==> fifoTime[fifo[i]] <= fifoTime[fifo[j]])
  }

  ghost predicate TimesOk(lanes: PerDir<Lane>, fifoTime: map<Request, int>, fifoExpire: PerDir<int>, clock: int) {
    && Deadlines(lanes.sync.fifo, fifoTime, clock + fifoExpire.sync)
    && Deadlines(lanes.async.fifo, fifoTime, clock + fifoExpire.async)
  }

  lemma {:induction false} LaneTimes(lanes: PerDir<Lane>, fifoTime: map<Request, int>, fifoExpire: PerDir<int>, clock: int, d: Dir)
    requires TimesOk(lanes, fifoTime, fifoExpire, clock)
    ensures Deadlines(lanes.Get(d).fifo, fifoTime, clock + fifoExpire.Get(d))
    ensures forall x :: x in lanes.Get(d).fifo ==> x in fifoTime
  {}

  /** It is enough to look at the head of a FIFO: if anything is overdue, the head is. */
  lemma {:induction false} HeadIsMostUrgent(fifo: seq<Request>, fifoTime: map<Request, int>, last: int, now: int)
    requires Deadlines(fifo, fifoTime, last) && fifo != []
    ensures now > fifoTime[fifo[0]] <==> exists x :: x in fifo && now > fifoTime[x]
  {}

  lemma {:induction false} TimesTakeOut(lanes: PerDir<Lane>, fifoTime: map<Request, int>, fifoExpire: PerDir<int>, clock: int, rq: Request)
    requires TimesOk(lanes, fifoTime, fifoExpire, clock)
    requires rq in lanes.Get(rq.dir).sorted && rq in lanes.Get(rq.dir).fifo
    ensures TimesOk(lanes.Set(rq.dir, TakeOut(lanes.Get(rq.dir), rq)), fifoTime, fifoExpire, clock)
  {
    hide FindNext;
    var f := lanes.Get(rq.dir).fifo;
    var i := IndexOf(f, rq);
    var f' := TakeOut(lanes.Get(rq.dir), rq).fifo;
    assert f' == Without(f, i);
    assert forall k :: 0 <= k < |f'| ==> f'[k] == f[if k < i then k else k + 1];
  }

  /** A clock that does not go back keeps the FIFO in the order of its deadlines. */
  lemma {:induction false} TimesPutIn(lanes: PerDir<Lane>, fifoTime: map<Request, int>, fifoExpire: PerDir<int>, clock: int, rq: Request, now: int)
    requires TimesOk(lanes, fifoTime, fifoExpire, clock) && clock <= now
    requires rq !in lanes.sync.fifo && rq !in lanes.async.fifo
    ensures TimesOk(lanes.Set(rq.dir, PutIn(lanes.Get(rq.dir), rq)), fifoTime[rq := now + fifoExpire.Get(rq.dir)], fifoExpire, now)
  {
    hide ChooseReq, Insert;
    var t := fifoTime[rq := now + fifoExpire.Get(rq.dir)];
    forall d: Dir ensures Deadlines(lanes.Get(d).fifo, t, now + fifoExpire.Get(d)) {
      var f := lanes.Get(d).fifo;
      assert forall k :: 0 <= k < |f| ==> f[k] in f;
    }
    assert Deadlines(lanes.Get(Sync).fifo, t, now + fifoExpire.sync) && Deadlines(lanes.Get(Async).fifo, t, now + fifoExpire.async);
  }

  function Max(x: int, y: int): (r: int)
    ensures r >= x && r >= y && (r == x || r == y)
  {
    if x < y then y else x
  }

  function Abs(x: int): (r: int)
    ensures r >= 0 && (r == x || r == -x)
  {
    if x < 0 then -x else x
  }

  /** What is known about a run: the requests given to the driver and not completed; for each direction whether next_rq
      was last computed where the neighbours decide; whether both directions may be in flight, after a forced dispatch or
      an alias of the wrong direction; whether anticipation names an earlier process; and when a request was last added. */
  datatype Track = Track(inFlight: set<Request>, exact: PerDir<bool>, mixed: bool, stale: bool, clock: int)

  class AsData {
    var lanes: PerDir<Lane>
    var batch: Batch
    var antic: Antic
    var fifoTime: map<Request, int>
    var rqState: map<Request, RqState>

    const fifoExpire: PerDir<int>
    const batchExpire: PerDir<int>
    const anticExpire: int

    ghost var track: Track

    ghost predicate Valid()
      reads this
    {
      && LanesOk(lanes, track.exact, track.inFlight) && BatchOk(batch, track.inFlight, track.mixed) && AnticOk(antic, track.inFlight, track.stale)
      && StatesOk(rqState, track.inFlight) && TimesOk(lanes, fifoTime, fifoExpire, track.clock)
    }

    /** A read batch is being served until e while a write waits. Nothing but a dispatch after that time ends this, and the
        first dispatch after it does, unless anticipation holds everything back: so reads that keep coming do not starve
        writes. */
    predicate Holding(e: int)
      reads this
    {
      batch.dir == Sync && !batch.changed && !batch.newBatch && batch.expires == e && lanes.async.fifo != []
    }

    /** as_init_queue; hz is the number of jiffies in a second. */
    constructor (hz: nat, now: int)
      ensures Valid() && !track.mixed && track.exact == PerDir(true, true)
      ensures lanes == PerDir(EmptyLane, EmptyLane) && track.inFlight == {} && track.clock == now
      ensures batch.dir == Async && antic.status == AnticOff && antic.ioc == None && !antic.armed
      ensures !batch.idled && batch.writeCount == Max(batchExpire.async / 10, 2) && batch.expires == now + batchExpire.sync
      ensures fifoExpire == PerDir(hz / 4, hz / 8) && batchExpire == PerDir(hz / 8, hz / 2) && anticExpire > 0
    {
      lanes := PerDir(EmptyLane, EmptyLane);
      fifoExpire, batchExpire := PerDir(hz / 4, hz / 8), PerDir(hz / 8, hz / 2);
      anticExpire := if hz / 150 != 0 then hz / 150 else 1;
      batch := Batch(false, false, Async, now + hz / 2, Max(hz / 8 / 10, 2), 0, false, PerDir(0, 0), 0);
      antic := Antic(AnticOff, 0, false, false, None, false);
      fifoTime, rqState := map[], map[];
      track := Track({}, PerDir(true, true), false, false, now);
    }

    /** as_move_to_dispatch */
    method MoveToDispatch(rq: Request)
      requires Valid() && rq in lanes.Get(rq.dir).sorted
      modifies this
      ensures Valid()
      ensures rq in old(lanes.Get(rq.dir).fifo) && rq !in old(track.inFlight)
      ensures lanes == old(lanes.Set(rq.dir, TakeOut(lanes.Get(rq.dir), rq)))
      ensures track.exact == old(var l := lanes.Get(rq.dir).sorted; track.exact.Set(rq.dir, NeighboursDecide(l, IndexOf(l, rq))))
      ensures track.inFlight == old(track.inFlight) + {rq}
      ensures track.mixed == (old(track.mixed) || rq.dir != old(batch.FlightDir()))
      ensures batch == old(batch.Dispatched(rq)) && antic == old(antic.Dispatched(rq))
      ensures track.stale == old(GoesStale(antic, track.inFlight, rq))
      ensures rqState == old(rqState)[rq := RqDispatched] && fifoTime == old(fifoTime) && track.clock == old(track.clock)
    {
      hide LanesOk, BatchOk, AnticOk, StatesOk, TimesOk, TakeOut, NeighboursDecide, IndexOf, PerDir.Get, PerDir.Set, GoesStale;
      hide Batch.Dispatched, Antic.Dispatched;
      LanesTakeOut(lanes, track.exact, track.inFlight, rq);
      BatchDispatch(batch, track.inFlight, track.mixed, rq);
      AnticDispatch(antic, track.inFlight, track.stale, rq);
      StatesDispatch(rqState, track.inFlight, rq);
      TimesTakeOut(lanes, fifoTime, fifoExpire, track.clock, rq);
      var l := lanes.Get(rq.dir);
      track := Track(track.inFlight + {rq}, track.exact.Set(rq.dir, NeighboursDecide(l.sorted, IndexOf(l.sorted, rq))),
                     track.mixed || rq.dir != batch.FlightDir(), GoesStale(antic, track.inFlight, rq), track.clock);
      Note(rq);
      l := TakeFrom(l, rq);
      lanes := lanes.Set(rq.dir, l);
      rqState := rqState[rq := RqDispatched];
    }

    /** What it does to anticipation and to the counters. */
    method Note(rq: Request)
      modifies this`batch, this`antic
      ensures batch == old(batch.Dispatched(rq)) && antic == old(antic.Dispatched(rq))
    {
      AnticStop();
      antic := antic.(status := AnticOff);
      if rq.dir == Sync {
        if rq.ioc.Some? {
          antic := antic.(ioc := rq.ioc);
        }
      } else {
        antic := antic.(ioc := None);
        if batch.writesLeft != 0 {
          batch := batch.(writesLeft := batch.writesLeft - 1);
        }
      }
      antic := antic.(finished := false);
      batch := batch.(nrDispatched := batch.nrDispatched + 1);
    }

    /** as_antic_stop */
    method AnticStop()
      modifies this`antic
      ensures antic == old(antic).Stopped()
    {
      if antic.status == WaitReq || antic.status == WaitNext {
        if antic.status == WaitNext {
          antic := antic.(armed := false);
        }
        antic := antic.(status := AnticFinished);
        antic := antic.(workPending := true);
      }
    }

    /** as_completed_request */
    method CompletedRequest(rq: Request, now: int)
      requires Valid()
      modifies this
      ensures Valid() && lanes == old(lanes) && track.exact == old(track.exact) && track.clock == old(track.clock)
      ensures rqState == old(rqState)[rq := RqPostsched]
      ensures old(rq in rqState && rqState[rq] == RqRemoved) ==>
        && rq in old(track.inFlight) && track.inFlight == old(track.inFlight) - {rq}
        && batch == old(batch.Completed(rq, now, batchExpire)) && antic == old(antic.Completed(rq, now, batch.Drained()))
        && track.mixed == (old(track.mixed) && track.inFlight != {})
      ensures !old(rq in rqState && rqState[rq] == RqRemoved) ==>
        track.inFlight == old(track.inFlight) && batch == old(batch) && antic == old(antic) && track.mixed == old(track.mixed)
      ensures forall e :: old(Holding(e)) ==> Holding(e)
      ensures old(rq in rqState && rqState[rq] == RqRemoved) && old(batch.newBatch) && rq.dir == Sync ==>
        !batch.newBatch && batch.expires == now + batchExpire.sync
      ensures old(rq in rqState && rqState[rq] == RqRemoved) && old(batch.changed) && old(batch.nrDispatched) == 1 ==>
        !batch.changed && batch.expires == now + (if batch.dir == Sync then batchExpire.sync else batchExpire.async)
    {
      hide LanesOk, BatchOk, AnticOk, StatesOk, TimesOk, Batch.Completed, Antic.Completed;
      BatchFacts(batch, track.inFlight, track.mixed);
      CompletedMeans(batch, rq, now, batchExpire);
      StatesComplete(rqState, track.inFlight, rq);
      if rq in rqState && rqState[rq] == RqRemoved {
        BatchComplete(batch, track.inFlight, track.mixed, rq, now, batchExpire);
        AnticComplete(antic, track.inFlight, track.stale, rq, now, batch.Drained());
        LanesComplete(lanes, track.exact, track.inFlight, rq);
        var drained := AccountBatch(rq, now);
        AccountAntic(rq, now, drained);
        track := track.(mixed := track.mixed && track.inFlight != {rq}, inFlight := track.inFlight - {rq});
      }
      rqState := rqState[rq := RqPostsched];
    }

    /** What it does to the batch; drained tells whether the old batch has ended. */
    method AccountBatch(rq: Request, now: int) returns (drained: bool)
      modifies this`batch
      ensures drained == old(batch.Drained()) && batch == old(batch.Completed(rq, now, batchExpire))
    {
      hide Batch.WithWriteBatch;
      drained := batch.changed && batch.nrDispatched == 1;
      if drained {
        batch := batch.(expires := now + batchExpire.Get(batch.dir));
        batch := batch.(changed := false);
        if batch.dir == Sync {
          batch := batch.(newBatch := true);
        }
      }
      batch := batch.(nrDispatched := batch.nrDispatched - 1);
      if batch.newBatch && batch.dir == rq.dir {
        UpdateWriteBatch(now);
        batch := batch.(expires := now + batchExpire.sync);
        batch := batch.(newBatch := false);
      }
    }

    /** And what it does to anticipation. */
    method AccountAntic(rq: Request, now: int, drained: bool)
      modifies this`antic
      ensures antic == old(antic).Completed(rq, now, drained)
    {
      if drained {
        antic := antic.(workPending := true);
      }
      if antic.ioc == rq.ioc && antic.ioc.Some? {
        antic := antic.(start := now);
        antic := antic.(finished := true);
        if antic.status == WaitReq {
          antic := antic.(armed := true);
          antic := antic.(status := WaitNext);
        }
      }
    }

    /** update_write_batch */
    method UpdateWriteBatch(now: int)
      modifies this`batch
      ensures batch == old(batch).WithWriteBatch(now, batchExpire)
    {
      var limit, count := batchExpire.async, batch.writeCount;
      var time := (now - batch.expires) + limit;
      if time < 0 {
        time := 0;
      }
      if time > limit && !batch.idled {
        if time > limit * 3 {
          count := count / 2;
        } else {
          count := count - 1;
        }
      } else if time < limit && batch.writesLeft == 0 {
        if limit > time * 3 {
          count := count * 2;
        } else {
          count := count + 1;
        }
      }
      if count < 1 {
        count := 1;
      }
      batch := batch.(writeCount := count);
    }

    /** as_activate_request: the driver takes a dispatched request. */
    method ActivateRequest(rq: Request)
      requires Valid() && rq in rqState && rqState[rq] == RqDispatched
      modifies this`rqState
      ensures Valid() && rqState == old(rqState)[rq := RqRemoved]
    {
      rqState := rqState[rq := RqRemoved];
    }

    /** as_deactivate_request: the driver gives it back. */
    method DeactivateRequest(rq: Request)
      requires Valid() && rq in rqState && rqState[rq] == RqRemoved
      modifies this`rqState
      ensures Valid() && rqState == old(rqState)[rq := RqDispatched]
    {
      rqState := rqState[rq := RqDispatched];
    }

    /** as_antic_timeout: the timer has gone off, perhaps just before it was stopped. */
    method AnticTimeout()
      requires Valid()
      modifies this`antic
      ensures Valid() && !antic.armed && !antic.Waiting()
      ensures antic == if old(antic.Waiting()) then old(antic).(armed := false, status := AnticFinished, workPending := true)
                       else old(antic).(armed := false)
    {
      antic := antic.(armed := false);
      if antic.Waiting() {
        antic := antic.(status := AnticFinished, workPending := true);
      }
    }

    /** The FIFO of d has not been looked at for fifo_expire, and its head is overdue. */
    predicate Overdue(d: Dir, now: int)
      requires TimesOk(lanes, fifoTime, fifoExpire, track.clock)
      reads this
    {
      && Abs(now - batch.lastCheck.Get(d)) >= fifoExpire.Get(d)
      && lanes.Get(d).fifo != [] && now > fifoTime[lanes.Get(d).fifo[0]]
    }

    /** as_fifo_expired: unless it was asked less than fifo_expire ago, it says whether any request of the FIFO is overdue. */
    method FifoExpired(d: Dir, now: int) returns (expired: bool)
      requires TimesOk(lanes, fifoTime, fifoExpire, track.clock)
      modifies this`batch
      ensures expired == old(Overdue(d, now))
      ensures var asked := Abs(now - old(batch).lastCheck.Get(d)) < fifoExpire.Get(d);
        && batch == (if asked then old(batch) else old(batch).(lastCheck := old(batch).lastCheck.Set(d, now)))
        && (expired <==> !asked && exists x :: x in lanes.Get(d).fifo && now > fifoTime[x])
    {
      hide TimesOk;
      var delta := now - batch.lastCheck.Get(d);
      if delta < 0 {
        delta := -delta;
      }
      LaneTimes(lanes, fifoTime, fifoExpire, track.clock, d);
      if delta < fifoExpire.Get(d) {
        return false;
      }
      batch := batch.(lastCheck := batch.lastCheck.Set(d, now));
      if lanes.Get(d).fifo == [] {
        return false;
      }
      HeadIsMostUrgent(lanes.Get(d).fifo, fifoTime, track.clock + fifoExpire.Get(d), now);
      var rq := lanes.Get(d).fifo[0];
      expired := now > fifoTime[rq];
    }

    /** The lists and the deadline of a new request at a free sector. */
    method Enqueue(rq: Request, now: int)
      modifies this`lanes, this`fifoTime
      ensures lanes == old(lanes.Set(rq.dir, PutIn(lanes.Get(rq.dir), rq)))
      ensures fifoTime == old(fifoTime)[rq := now + fifoExpire.Get(rq.dir)]
    {
      hide PutIn;
      var l := AddTo(lanes.Get(rq.dir), rq);
      fifoTime := fifoTime[rq := now + fifoExpire.Get(rq.dir)];
      lanes := lanes.Set(rq.dir, l);
    }

    /** as_add_request. A queued request at the same sector, the alias, is dispatched first, whatever the batch. The clock
        does not go back. */
    method AddRequest(rq: Request, now: int, guess: bool)
      requires Valid() && rq !in track.inFlight && rq !in lanes.Get(rq.dir).sorted && track.clock <= now
      modifies this
      ensures Valid() && batch.FlightDir() == old(batch.FlightDir())
      ensures var l := old(lanes.Get(rq.dir)); var alias := AtPos(l.sorted, rq.pos);
        if alias == None then
          && lanes == old(lanes.Set(rq.dir, PutIn(lanes.Get(rq.dir), rq)))
          && track.inFlight == old(track.inFlight) && track.exact == old(track.exact) && track.mixed == old(track.mixed) && batch == old(batch)
          && antic == Interrupted(old(antic), Breaks(old(antic), lanes, old(rqState)[rq := RqNew], Some(rq), now, anticExpire, guess))
          && rqState == old(rqState)[rq := RqQueued]
        else
          && alias.value in l.sorted && alias.value in l.fifo
          && lanes == old(lanes).Set(rq.dir, PutIn(TakeOut(l, alias.value), rq))
          && track.inFlight == old(track.inFlight) + {alias.value}
          && track.exact == old(track.exact).Set(rq.dir, NeighboursDecide(l.sorted, IndexOf(l.sorted, alias.value)))
          && track.mixed == (old(track.mixed) || rq.dir != old(batch.FlightDir())) && batch == old(batch).Dispatched(alias.value)
          && antic == old(antic).Dispatched(alias.value)
          && rqState == old(rqState)[alias.value := RqDispatched][rq := RqQueued]
      ensures fifoTime == old(fifoTime)[rq := now + fifoExpire.Get(rq.dir)] && track.clock == now
      ensures old(track.exact == PerDir(true, true)) && Apart(old(lanes).Get(rq.dir).sorted) ==> track.exact == PerDir(true, true)
      ensures forall e :: old(Holding(e)) ==> Holding(e)
    {
      hide Apart, Antic.Dispatched, Antic.Stopped, Batch.Dispatched, AtPos, HasPos;
      hide LanesOk, BatchOk, AnticOk, StatesOk, TimesOk, TakeOut, PutIn, NeighboursDecide, IndexOf;
      StatesNew(rqState, track.inFlight, rq);
      rqState := rqState[rq := RqNew];
      ghost var l := lanes.Get(rq.dir).sorted;
      ghost var alias := AtPos(l, rq.pos);
      if alias.Some? && Apart(l) { ApartDecides(l, IndexOf(l, alias.value)); }
      AddAliasFree(rq);
      LanesPutIn(lanes, track.exact, track.inFlight, rq);
      NotQueued(lanes, track.exact, track.inFlight, rq);
      TimesPutIn(lanes, fifoTime, fifoExpire, track.clock, rq, now);
      track := track.(clock := now);
      Enqueue(rq, now);
      if antic.status == WaitReq || antic.status == WaitNext {
        var breaks := CanBreakAnticipation(Some(rq), now, guess);
        if breaks {
          StopOk(antic, track.inFlight, track.stale);
          AnticStop();
        }
      }
      StatesNew(rqState, track.inFlight, rq);
      if alias.Some? { StatesApart(old(rqState), rq, alias.value); SameBatch(old(batch), alias.value); }
      assert lanes.async.fifo == old(lanes).async.fifo || lanes.async.fifo != [] by { SomethingIn(); }
      rqState := rqState[rq := RqQueued];
    }

    /** as_add_rq_rb: the loop that clears the sector of rq. */
    method AddAliasFree(rq: Request)
      requires Valid() && rq !in track.inFlight && rq !in lanes.Get(rq.dir).sorted
      modifies this
      ensures Valid() && !HasPos(lanes.Get(rq.dir).sorted, rq.pos) && rq !in track.inFlight
      ensures rq !in lanes.Get(rq.dir).sorted && fifoTime == old(fifoTime) && track.clock == old(track.clock)
      ensures batch.FlightDir() == old(batch.FlightDir())
      ensures var l := old(lanes.Get(rq.dir)); var alias := AtPos(l.sorted, rq.pos);
        if alias == None then
          && lanes == old(lanes) && track == old(track) && batch == old(batch) && antic == old(antic) && rqState == old(rqState)
        else
          && alias.value in l.sorted && alias.value in l.fifo
          && lanes == old(lanes).Set(rq.dir, TakeOut(l, alias.value))
          && track.inFlight == old(track.inFlight) + {alias.value}
          && track.exact == old(track.exact).Set(rq.dir, NeighboursDecide(l.sorted, IndexOf(l.sorted, alias.value)))
          && track.mixed == (old(track.mixed) || rq.dir != old(batch.FlightDir())) && batch == old(batch).Dispatched(alias.value)
          && antic == old(antic).Dispatched(alias.value) && !antic.Waiting() && rqState == old(rqState)[alias.value := RqDispatched]
    {
      hide LanesOk, BatchOk, AnticOk, StatesOk, TimesOk, TakeOut, NeighboursDecide, IndexOf, HasPos, Antic.Dispatched, Antic.Stopped;
      ghost var l := lanes.Get(rq.dir);
      var alias := AtPos(lanes.Get(rq.dir).sorted, rq.pos);
      ghost var first := alias;
      if first.Some? { AliasLeaves(lanes, track.exact, track.inFlight, rq.dir, first.value); }
      while alias.Some?
        invariant Valid() && fifoTime == old(fifoTime) && track.clock == old(track.clock) && rq !in track.inFlight
        invariant batch.FlightDir() == old(batch.FlightDir())
        invariant alias == AtPos(lanes.Get(rq.dir).sorted, rq.pos)
        invariant first == None ==> alias == None
        invariant first.Some? ==> first.value in l.sorted && first.value in l.fifo
        invariant first.Some? && alias == None ==>
          && lanes == old(lanes).Set(rq.dir, TakeOut(l, first.value))
          && track.inFlight == old(track.inFlight) + {first.value}
          && track.exact == old(track.exact).Set(rq.dir, NeighboursDecide(l.sorted, IndexOf(l.sorted, first.value)))
          && track.mixed == (old(track.mixed) || rq.dir != old(batch.FlightDir())) && batch == old(batch).Dispatched(first.value)
          && antic == old(antic).Dispatched(first.value) && !antic.Waiting() && rqState == old(rqState)[first.value := RqDispatched]
        invariant alias == first ==>
          lanes == old(lanes) && track == old(track) && batch == old(batch) && antic == old(antic) && rqState == old(rqState)
        invariant alias == first || alias == None
        decreases alias.Some?
      {
        AliasLeaves(lanes, track.exact, track.inFlight, rq.dir, alias.value);
        MoveToDispatch(alias.value);
        StopOk(antic, track.inFlight, track.stale);
        DispatchStops(old(antic), alias.value);
        AnticStop();
        alias := AtPos(lanes.Get(rq.dir).sorted, rq.pos);
      }
      if rq in lanes.Get(rq.dir).sorted { NotAtPos(lanes.Get(rq.dir).sorted, rq); }
    }

    // -------------------------------------------------------------- dispatching

    /** as_can_break_anticipation */
    method CanBreakAnticipation(rq: Option<Request>, now: int, guess: bool) returns (breaks: bool)
      ensures breaks == Breaks(antic, lanes, rqState, rq, now, anticExpire, guess)
    {
      if rq.Some? && antic.ioc == rq.value.ioc {
        return true;
      }
      if antic.finished && (now - antic.start >= anticExpire || antic.start - now >= anticExpire) {
        return true;
      }
      if (exists x :: x in lanes.sync.fifo && x.ioc == antic.ioc) || (exists x :: x in lanes.async.fifo && x.ioc == antic.ioc) {
        return true;
      }
      if exists x :: x in rqState && rqState[x] == RqDispatched && x.ioc == antic.ioc {
        return true;
      }
      return guess;
    }

    /** as_can_anticipate, and the wait that it allows. */
    method TryPause(rq: Option<Request>, now: int, guess: bool) returns (paused: bool)
      requires AnticOk(antic, track.inFlight, track.stale) && !antic.Waiting()
      modifies this`antic
      ensures paused == old(antic.CanAnticipate(Breaks(antic, lanes, rqState, rq, now, anticExpire, guess)))
      ensures antic == if paused then old(antic).WaitingForReq() else old(antic)
      ensures AnticOk(antic, track.inFlight, track.stale) && (paused ==> antic.Waiting())
    {
      hide Breaks, AnticOk;
      if antic.ioc == None || antic.status == AnticFinished {
        return false;
      }
      var breaks := CanBreakAnticipation(rq, now, guess);
      if breaks {
        return false;
      }
      AnticStart(antic, track.inFlight, track.stale);
      WaitReqFirst();
      return true;
    }

    /** as_antic_waitreq; the precondition is its BUG_ON. */
    method WaitReqFirst()
      requires antic.status != AnticFinished
      modifies this`antic
      ensures antic == old(antic).WaitingForReq()
    {
      if antic.status == AnticOff {
        if antic.ioc == None || antic.finished {
          antic := antic.(armed := true);
          antic := antic.(status := WaitNext);
        } else {
          antic := antic.(status := WaitReq);
        }
      }
    }

    /** The running batch goes on: it has something to offer, and it has not run out of time while the other waits. */
    predicate GoesOn(now: int)
      reads this
    {
      lanes.Get(batch.dir).next.Some? && !(lanes.sync.fifo != [] && lanes.async.fifo != [] && batch.Expired(now))
    }

    /** A read batch pauses for the process that read last: nobody is overdue, and writes have no claim yet. */
    predicate Pauses(now: int, guess: bool)
      requires TimesOk(lanes, fifoTime, fifoExpire, track.clock)
      reads this
    {
      && batch.dir == Sync && anticExpire != 0 && !Overdue(Sync, now)
      && antic.CanAnticipate(Breaks(antic, lanes, rqState, lanes.sync.next, now, anticExpire, guess))
      && !(lanes.sync.fifo != [] && lanes.async.fifo != [] && batch.Expired(now))
    }

    /** The direction that is served: that of the batch while it goes on, then the other one if anybody waits there. */
    function Turn(now: int): Dir
      reads this
    {
      if GoesOn(now) then batch.dir
      else if lanes.sync.fifo != [] && lanes.async.fifo != [] then batch.dir.Other()
      else if lanes.sync.fifo != [] then Sync else Async
    }

    /** The request that is served: the cached one of a running batch, unless the FIFO is overdue; else the oldest. */
    function Candidate(now: int): Option<Request>
      requires TimesOk(lanes, fifoTime, fifoExpire, track.clock)
      reads this
    {
      var l := lanes.Get(Turn(now));
      if GoesOn(now) && !Overdue(batch.dir, now) then l.next else if l.fifo != [] then Some(l.fifo[0]) else None
    }

    /** Nothing can be dispatched: nothing is queued, anticipation is waiting, or an old batch is draining. */
    predicate Blocked()
      reads this
    {
      lanes.sync.fifo == lanes.async.fifo == [] || antic.Waiting() || batch.changed
    }

    /** A write batch without reads waiting has sent all that it may, or all there is. */
    predicate RunsDry()
      reads this
    {
      batch.dir == Async && lanes.sync.fifo == [] && (batch.writesLeft == 0 || lanes.async.fifo == [])
    }

    /** Reads and writes wait, and a batch is being served. */
    predicate Contested()
      reads this
    {
      lanes.sync.fifo != [] && lanes.async.fifo != [] && !antic.Waiting() && !batch.changed && !batch.newBatch
    }

    /** The time of the batch is over, or it has sent all the writes that it may. */
    predicate TurnsAway(now: int)
      reads this
    {
      now > batch.expires || (batch.dir == Async && batch.writesLeft == 0)
    }

    /** as_dispatch_request without force: dispatches one request or none. It dispatches none exactly if it is blocked, if
        the read batch pauses, or if it has just turned to the other direction and something is still in flight. It never
        mixes directions. */
    method DispatchRequest(now: int, guess: bool) returns (n: nat, ghost taken: Option<Request>)
      requires Valid()
      modifies this
      ensures Valid() && track.mixed == old(track.mixed) && fifoTime == old(fifoTime) && track.clock == old(track.clock)
      ensures n == if taken.Some? then 1 else 0
      ensures taken == None <==>
        old(Blocked() || Pauses(now, guess) || (Turn(now) != batch.dir && track.inFlight != {}))
      ensures taken == None ==> lanes == old(lanes) && track.inFlight == old(track.inFlight) && track.exact == old(track.exact)
      ensures taken == None ==> lanes.sync.sorted == lanes.async.sorted == [] || antic.Waiting() || batch.changed
      ensures antic == if taken.Some? then old(antic).Dispatched(taken.value)
                       else if !old(Blocked()) && old(Pauses(now, guess)) then old(antic).WaitingForReq() else old(antic)
      ensures rqState == if taken.Some? then old(rqState)[taken.value := RqDispatched] else old(rqState)
      ensures taken.Some? ==> taken == old(Candidate(now)) && batch.dir == taken.value.dir == old(Turn(now))
      ensures old(Contested()) ==> batch.dir == if old(TurnsAway(now)) then old(batch).dir.Other() else old(batch).dir
      ensures old(Contested()) && !old(TurnsAway(now)) ==> batch.expires == old(batch).expires && !batch.changed && !batch.newBatch
      ensures old(lanes.async.fifo) == [] && old(batch.dir) == Sync && taken.Some? ==>
        batch.expires == if anticExpire != 0 && old(Overdue(Sync, now)) then old(batch.expires) else now + batchExpire.sync
      ensures (old(RunsDry()) ==> batch.idled) && (batch.idled ==> old(batch.idled || RunsDry()))
      ensures forall e :: old(Holding(e)) && old(lanes.sync.fifo) != [] ==>
        if now > e && !old(antic.Waiting()) then batch.dir == Async else Holding(e)
      ensures taken.Some? ==> Took(old(lanes), old(track.exact), old(track.inFlight), taken.value)
      ensures old(track.exact == PerDir(true, true)) && Apart(old(lanes.sync.sorted)) && Apart(old(lanes.async.sorted)) ==>
        track.exact == PerDir(true, true)
    {
      hide LanesOk, BatchOk, AnticOk, StatesOk, TimesOk, Batch.Switched, Batch.Started, Antic.WaitingForReq;
      hide TakeOut, Apart, IndexOf, NeighboursDecide, AsData.Pauses, AsData.Turn, AsData.Candidate, AsData.Overdue;
      var haveReads, haveWrites := lanes.sync.fifo != [], lanes.async.fifo != [];
      LanesEmpty(lanes, track.exact, track.inFlight);
      assert lanes.Get(Sync) == lanes.sync && lanes.Get(Async) == lanes.async;
      MarkIdle(haveReads, haveWrites, now, guess);
      if !(haveReads || haveWrites) || antic.Waiting() || batch.changed {
        return 0, None;
      }
      n, taken := DispatchNow(haveReads, haveWrites, now, guess);
      if taken.Some? {
        ghost var l := old(lanes).Get(taken.value.dir).sorted;
        if Apart(l) { ApartDecides(l, IndexOf(l, taken.value)); }
        assert taken.value.dir == Sync ==> lanes.async == old(lanes).async;
      }
    }

    /** A write batch that runs dry is noted, which decides nothing about this dispatch. */
    method MarkIdle(haveReads: bool, haveWrites: bool, ghost now: int, ghost guess: bool)
      requires Valid() && haveReads == (lanes.sync.fifo != []) && haveWrites == (lanes.async.fifo != [])
      modifies this`batch
      ensures Valid() && batch == old(batch).(idled := old(batch.idled || RunsDry()))
      ensures Pauses(now, guess) == old(Pauses(now, guess)) && Turn(now) == old(Turn(now)) && Candidate(now) == old(Candidate(now))
      ensures Overdue(Sync, now) == old(Overdue(Sync, now)) && TurnsAway(now) == old(TurnsAway(now))
    {
      hide LanesOk, BatchOk, AnticOk, StatesOk, TimesOk, Breaks;
      IdleOk(batch, track.inFlight, track.mixed);
      if batch.dir == Async && !haveReads {
        if batch.writesLeft == 0 || !haveWrites {
          batch := batch.(idled := true);
        }
      }
    }

    /** The rest of as_dispatch_request, once something may be dispatched. */
    method DispatchNow(haveReads: bool, haveWrites: bool, now: int, guess: bool) returns (n: nat, ghost taken: Option<Request>)
      requires Valid() && !Blocked()
      requires haveReads == (lanes.sync.fifo != []) && haveWrites == (lanes.async.fifo != [])
      modifies this
      ensures Valid() && track.mixed == old(track.mixed) && fifoTime == old(fifoTime) && track.clock == old(track.clock)
      ensures n == if taken.Some? then 1 else 0
      ensures taken == None <==> old(Pauses(now, guess) || (Turn(now) != batch.dir && track.inFlight != {}))
      ensures taken == None ==> lanes == old(lanes) && track.inFlight == old(track.inFlight) && track.exact == old(track.exact)
      ensures taken == None ==> antic.Waiting() || batch.changed
      ensures antic == if taken.Some? then old(antic).Dispatched(taken.value)
                       else if old(Pauses(now, guess)) then old(antic).WaitingForReq() else old(antic)
      ensures rqState == if taken.Some? then old(rqState)[taken.value := RqDispatched] else old(rqState)
      ensures taken.Some? ==> taken == old(Candidate(now)) && batch.dir == taken.value.dir == old(Turn(now))
      ensures taken.Some? ==> Took(old(lanes), old(track.exact), old(track.inFlight), taken.value)
      ensures old(Contested()) ==> batch.dir == if old(TurnsAway(now)) then old(batch).dir.Other() else old(batch).dir
      ensures old(Contested()) && !old(TurnsAway(now)) ==> batch.expires == old(batch).expires && !batch.changed && !batch.newBatch
      ensures batch.idled ==> old(batch.idled)
      ensures !haveReads && old(batch.dir) == Async ==> batch.idled == old(batch.idled)
      ensures haveReads && !haveWrites && old(batch.dir) == Sync && taken.Some? ==>
        batch.expires == if anticExpire != 0 && old(Overdue(Sync, now)) then old(batch.expires) else now + batchExpire.sync
    {
      hide LanesOk, BatchOk, AnticOk, StatesOk, TimesOk, Batch.Switched, Batch.Started, Antic.WaitingForReq, TakeOut;
      hide Batch.Dispatched, Antic.Dispatched, AsData.Took;
      LanesEmpty(lanes, track.exact, track.inFlight);
      if haveReads && haveWrites && batch.Expired(now) {
        n, taken := DispatchSwitched(haveReads, haveWrites, now);
      } else {
        n, taken := DispatchRunning(haveReads, haveWrites, now, guess);
      }
    }

    /** The batch is still running, or there is nothing in the other direction. */
    method DispatchRunning(haveReads: bool, haveWrites: bool, now: int, guess: bool) returns (n: nat, ghost taken: Option<Request>)
      requires Valid() && !Blocked()
      requires haveReads == (lanes.sync.fifo != []) && haveWrites == (lanes.async.fifo != [])
      requires !(haveReads && haveWrites && batch.Expired(now))
      modifies this
      ensures Valid() && track.mixed == old(track.mixed) && fifoTime == old(fifoTime) && track.clock == old(track.clock)
      ensures n == if taken.Some? then 1 else 0
      ensures taken == None <==> old(Pauses(now, guess) || (Turn(now) != batch.dir && track.inFlight != {}))
      ensures taken == None ==> lanes == old(lanes) && track.inFlight == old(track.inFlight) && track.exact == old(track.exact)
      ensures taken == None ==> antic.Waiting() || batch.changed
      ensures antic == if taken.Some? then old(antic).Dispatched(taken.value)
                       else if old(Pauses(now, guess)) then old(antic).WaitingForReq() else old(antic)
      ensures rqState == if taken.Some? then old(rqState)[taken.value := RqDispatched] else old(rqState)
      ensures taken.Some? ==> taken == old(Candidate(now)) && batch.dir == taken.value.dir == old(Turn(now))
      ensures taken.Some? ==> Took(old(lanes), old(track.exact), old(track.inFlight), taken.value)
      ensures haveReads && haveWrites ==> batch.dir == old(batch.dir) && batch.expires == old(batch.expires) && !batch.changed && batch.newBatch == old(batch.newBatch)
      ensures batch.idled ==> old(batch.idled)
      ensures !haveReads && old(batch.dir) == Async ==> batch.idled == old(batch.idled)
      ensures haveReads && !haveWrites && old(batch.dir) == Sync && taken.Some? ==>
        batch.expires == if anticExpire != 0 && old(Overdue(Sync, now)) then old(batch.expires) else now + batchExpire.sync
    {
      hide LanesOk, BatchOk, AnticOk, StatesOk, TimesOk, Batch.Switched, Batch.Started, Batch.Expired, Antic.WaitingForReq, TakeOut;
      hide Batch.Dispatched, Antic.Dispatched, AsData.Took, Breaks;
      LaneAt(lanes, track.exact, track.inFlight, Sync);
      LaneAt(lanes, track.exact, track.inFlight, Async);
      var rq, expired := lanes.Get(batch.dir).next, false;
      if batch.dir == Sync && anticExpire != 0 {
        expired := FifoExpired(Sync, now);
        BatchFrame(old(batch), batch, track.inFlight, track.mixed);
        if !expired {
          var paused := TryPause(rq, now, guess);
          if paused {
            return 0, None;
          }
        }
      }
      if !expired && rq == None {
        n, taken := DispatchSwitched(haveReads, haveWrites, now);
        return;
      }
      n, taken := DispatchExtended(rq, expired, haveReads && !haveWrites, now);
    }

    /** Goes on with the running batch, which gets more time if there are only reads. */
    method DispatchExtended(candidate: Option<Request>, late: bool, onlyReads: bool, now: int)
      returns (n: nat, ghost taken: Option<Request>)
      requires Valid() && !batch.changed && !antic.Waiting() && lanes.Get(batch.dir).fifo != []
      requires !late ==> candidate.Some?
      requires candidate.Some? ==> candidate == lanes.Get(batch.dir).next
      modifies this
      ensures Valid() && track.mixed == old(track.mixed) && fifoTime == old(fifoTime) && track.clock == old(track.clock)
      ensures n == 1 && taken.Some? && Took(old(lanes), old(track.exact), old(track.inFlight), taken.value)
      ensures taken == if late || old(Overdue(batch.dir, now)) then Some(old(lanes.Get(batch.dir).fifo[0])) else candidate
      ensures antic == old(antic).Dispatched(taken.value) && rqState == old(rqState)[taken.value := RqDispatched]
      ensures taken.value.dir == batch.dir == old(batch.dir) && !batch.changed && batch.newBatch == old(batch.newBatch)
      ensures batch.expires == if !late && onlyReads then now + batchExpire.sync else old(batch.expires)
      ensures batch.idled == old(batch.idled)
    {
      hide LanesOk, BatchOk, AnticOk, StatesOk, TimesOk, TakeOut, Antic.Dispatched, AsData.Took, Batch.Dispatched;
      if !late && onlyReads {
        batch := batch.(expires := now + batchExpire.sync);
        BatchFrame(old(batch), batch, track.inFlight, track.mixed);
      }
      n, taken := DispatchBatch(candidate, late, now);
    }

    /** Goes on with it. */
    method DispatchBatch(candidate: Option<Request>, late: bool, now: int) returns (n: nat, ghost taken: Option<Request>)
      requires Valid() && !batch.changed && !antic.Waiting() && lanes.Get(batch.dir).fifo != []
      requires !late ==> candidate.Some?
      requires candidate.Some? ==> candidate == lanes.Get(batch.dir).next
      modifies this
      ensures Valid() && track.mixed == old(track.mixed) && fifoTime == old(fifoTime) && track.clock == old(track.clock)
      ensures n == 1 && taken.Some? && Took(old(lanes), old(track.exact), old(track.inFlight), taken.value)
      ensures taken == if late || old(Overdue(batch.dir, now)) then Some(old(lanes.Get(batch.dir).fifo[0])) else candidate
      ensures batch == old(batch).Dispatched(taken.value).(lastCheck := batch.lastCheck) && antic == old(antic).Dispatched(taken.value)
      ensures rqState == old(rqState)[taken.value := RqDispatched]
      ensures taken.value.dir == batch.dir == old(batch.dir) && batch.expires == old(batch.expires) && !batch.changed && batch.newBatch == old(batch.newBatch)
      ensures batch.idled == old(batch.idled)
    {
      hide LanesOk, BatchOk, AnticOk, StatesOk, TimesOk, TakeOut, Antic.Dispatched;
      LanesEmpty(lanes, track.exact, track.inFlight);
      var rq, expired := candidate, late;
      if !expired {
        expired := FifoExpired(batch.dir, now);
        BatchFrame(old(batch), batch, track.inFlight, track.mixed);
      }
      if expired {
        rq := Some(lanes.Get(batch.dir).fifo[0]);
      }
      MoveToDispatch(rq.value);
      return 1, rq;
    }

    /** The choice of a direction. */
    method Switch(haveReads: bool, haveWrites: bool, now: int)
      requires haveReads || haveWrites
      modifies this`batch
      ensures batch == old(batch).Switched(haveReads, haveWrites, now)
    {
      if haveReads && !(haveWrites && batch.dir == Sync) {
        if batch.dir == Async {
          batch := batch.(changed := true);
        }
        batch := batch.(dir := Sync);
        batch := batch.(lastCheck := batch.lastCheck.Set(batch.dir, now));
      } else {
        if batch.dir == Sync {
          batch := batch.(changed := true);
          batch := batch.(newBatch := false);
        }
        batch := batch.(dir := Async);
        batch := batch.(writesLeft := batch.writeCount);
        batch := batch.(idled := false);
        batch := batch.(lastCheck := batch.lastCheck.Set(Async, now));
      }
    }

    /** The start of a changed batch. */
    method StartChanged(now: int)
      requires batch.changed
      modifies this`batch
      ensures batch == old(batch).Started(now, batchExpire)
    {
      if batch.dir == Async {
        batch := batch.(expires := now + batchExpire.async);
      } else {
        batch := batch.(newBatch := true);
      }
      batch := batch.(changed := false);
    }

    /** Chooses a direction; a changed batch waits until nothing is in flight. */
    method DispatchSwitched(haveReads: bool, haveWrites: bool, now: int) returns (n: nat, ghost taken: Option<Request>)
      requires Valid() && !batch.changed && !antic.Waiting() && (haveReads || haveWrites)
      requires haveReads == (lanes.sync.fifo != []) && haveWrites == (lanes.async.fifo != [])
      modifies this
      ensures Valid() && track.mixed == old(track.mixed) && fifoTime == old(fifoTime) && track.clock == old(track.clock)
      ensures n == if taken.Some? then 1 else 0
      ensures batch.dir == if haveReads && haveWrites then old(batch.dir).Other() else if haveReads then Sync else Async
      ensures taken == None <==> batch.dir != old(batch.dir) && old(track.inFlight) != {}
      ensures taken == None ==> lanes == old(lanes) && track.inFlight == old(track.inFlight) && track.exact == old(track.exact)
      ensures taken == None ==> batch == old(batch).Switched(haveReads, haveWrites, now) && batch.changed && antic == old(antic)
      ensures rqState == if taken.Some? then old(rqState)[taken.value := RqDispatched] else old(rqState)
      ensures taken.Some? ==> taken.value.dir == batch.dir && taken == Some(old(lanes).Get(batch.dir).fifo[0])
      ensures taken.Some? ==> Took(old(lanes), old(track.exact), old(track.inFlight), taken.value)
      ensures taken.Some? ==>
        && batch == old(batch).Switched(haveReads, haveWrites, now).Started(now, batchExpire).Dispatched(taken.value)
        && antic == old(antic).Dispatched(taken.value)
      ensures batch.idled ==> old(batch.idled)
    {
      hide LanesOk, BatchOk, AnticOk, StatesOk, TimesOk, TakeOut, Batch.Switched, Batch.Started, Antic.Dispatched;
      LanesEmpty(lanes, track.exact, track.inFlight);
      assert lanes.Get(Sync) == lanes.sync && lanes.Get(Async) == lanes.async;
      BatchSwitch(batch, track.inFlight, track.mixed, haveReads, haveWrites, now);
      Switch(haveReads, haveWrites, now);
      ghost var b := batch;
      var rq := lanes.Get(batch.dir).fifo[0];
      SwitchedIdled(old(batch), haveReads, haveWrites, now, batchExpire, rq);
      var expired := FifoExpired(batch.dir, now);
      if expired {
        rq := lanes.Get(batch.dir).fifo[0];
      }
      assert batch == b;
      if batch.changed {
        if batch.nrDispatched != 0 {
          return 0, None;
        }
        BatchStart(old(batch), track.inFlight, track.mixed, haveReads, haveWrites, now, batch.lastCheck, batchExpire);
        StartChanged(now);
      } else {
        NothingToStart(batch, now, batchExpire);
      }
      MoveToDispatch(rq);
      return 1, Some(rq);
    }

    /** as_dispatch_request with force: everything queued goes to the driver, each request once. */
    method DispatchForced(now: int) returns (n: nat)
      requires Valid()
      modifies this
      ensures Valid() && !batch.changed && !batch.newBatch && batch.dir == Sync
      ensures lanes.sync.sorted == lanes.sync.fifo == lanes.async.sorted == lanes.async.fifo == []
      ensures n == |old(lanes.sync.sorted)| + |old(lanes.async.sorted)|
      ensures track.inFlight == old(track.inFlight) + Members(old(lanes.sync.sorted)) + Members(old(lanes.async.sorted))
      ensures |track.inFlight| == |old(track.inFlight)| + n
      ensures track.mixed == HasAsync(track.inFlight)
      ensures old(track.exact == PerDir(true, true)) && Apart(old(lanes.sync.sorted)) && Apart(old(lanes.async.sorted)) ==>
        track.exact == PerDir(true, true)
    {
      hide LanesOk, BatchOk, AnticOk, StatesOk, TimesOk, HasAsync, Members, Apart;
      ForcedOk(batch, track.inFlight, track.mixed);
      track := track.(mixed := HasAsync(track.inFlight));
      batch := batch.(dir := Sync, changed := false, newBatch := false);
      n := DrainLane(Sync);
      BatchFrame(batch, batch.(lastCheck := batch.lastCheck.Set(Sync, now)), track.inFlight, track.mixed);
      batch := batch.(lastCheck := batch.lastCheck.Set(Sync, now));
      var m := DrainLane(Async);
      n := n + m;
      BatchFrame(batch, batch.(lastCheck := batch.lastCheck.Set(Async, now)), track.inFlight, track.mixed);
      batch := batch.(lastCheck := batch.lastCheck.Set(Async, now));
      MixedAfter(old(lanes), old(track.exact), old(track.inFlight), track.inFlight);
      CountsOk(old(batch), old(track.inFlight), old(track.mixed));
      CountsOk(batch, track.inFlight, track.mixed);
    }

    /** One of its two loops. */
    method DrainLane(d: Dir) returns (n: nat)
      requires Valid()
      modifies this
      ensures Valid() && track.mixed == (old(track.mixed) || (n > 0 && d != old(batch.FlightDir())))
      ensures lanes == old(lanes).Set(d, lanes.Get(d)) && lanes.Get(d).sorted == lanes.Get(d).fifo == []
      ensures n == |old(lanes).Get(d).sorted|
      ensures track.inFlight == old(track.inFlight) + Members(old(lanes).Get(d).sorted)
      ensures batch == old(batch).(nrDispatched := old(batch).nrDispatched + n, writesLeft := batch.writesLeft)
      ensures Apart(old(lanes).Get(d).sorted) && old(track.exact).Get(d) ==> track.exact == old(track.exact)
    {
      hide LanesOk, BatchOk, AnticOk, StatesOk, TimesOk, Apart, Members;
      n := 0;
      ghost var apart := Apart(lanes.Get(d).sorted) && track.exact.Get(d);
      LaneAt(lanes, track.exact, track.inFlight, d);
      while lanes.Get(d).next.Some?
        invariant Valid() && track.mixed == (old(track.mixed) || (n > 0 && d != old(batch.FlightDir())))
        invariant lanes == old(lanes).Set(d, lanes.Get(d))
        invariant n + |lanes.Get(d).sorted| == |old(lanes).Get(d).sorted|
        invariant track.inFlight + Members(lanes.Get(d).sorted) == old(track.inFlight) + Members(old(lanes).Get(d).sorted)
        invariant batch == old(batch).(nrDispatched := old(batch).nrDispatched + n, writesLeft := batch.writesLeft)
        invariant apart ==> track.exact == old(track.exact) && Apart(lanes.Get(d).sorted)
        decreases |lanes.Get(d).sorted|
      {
        DrainOne(d);
        n := n + 1;
      }
      LaneAt(lanes, track.exact, track.inFlight, d);
      NoMembers(lanes.Get(d).sorted);
    }

    /** One round of it. */
    method DrainOne(d: Dir)
      requires Valid() && lanes.Get(d).next.Some?
      modifies this
      ensures Valid() && track.mixed == (old(track.mixed) || d != old(batch.FlightDir()))
      ensures lanes == old(lanes).Set(d, lanes.Get(d)) && |lanes.Get(d).sorted| == |old(lanes).Get(d).sorted| - 1
      ensures track.inFlight + Members(lanes.Get(d).sorted) == old(track.inFlight) + Members(old(lanes).Get(d).sorted)
      ensures batch == old(batch).(nrDispatched := old(batch).nrDispatched + 1, writesLeft := batch.writesLeft)
      ensures Apart(old(lanes).Get(d).sorted) && old(track.exact).Get(d) ==>
        track.exact == old(track.exact) && Apart(lanes.Get(d).sorted)
    {
      hide LanesOk, BatchOk, AnticOk, StatesOk, TimesOk, TakeOut, Apart, IndexOf, NeighboursDecide, Antic.Dispatched, Without;
      var rq := lanes.Get(d).next.value;
      DrainStep(lanes, track.exact, track.inFlight, d);
      ghost var l := lanes.Get(d).sorted;
      if Apart(l) { ApartDecides(l, IndexOf(l, rq)); }
      MoveToDispatch(rq);
    }

    /** rq was queued, as the cached request or the oldest one, and is now in flight. */
    ghost predicate Took(before: PerDir<Lane>, known: PerDir<bool>, flying: set<Request>, rq: Request)
      reads this
    {
      var l := before.Get(rq.dir);
      && rq in l.sorted && rq in l.fifo
      && (l.next == Some(rq) || l.fifo[0] == rq)
      && lanes == before.Set(rq.dir, TakeOut(l, rq))
      && track.exact == known.Set(rq.dir, NeighboursDecide(l.sorted, IndexOf(l.sorted, rq)))
      && track.inFlight == flying + {rq}
    }
  }

  lemma LanesEmpty(lanes: PerDir<Lane>, exact: PerDir<bool>, inFlight: set<Request>)
    requires LanesOk(lanes, exact, inFlight)
    ensures forall d :: lanes.Get(d).fifo == [] <==> lanes.Get(d).sorted == []
    ensures forall d :: lanes.Get(d).sorted == [] <==> lanes.Get(d).next == None
    ensures forall d, x :: x in lanes.Get(d).fifo ==> x in lanes.Get(d).sorted
    ensures forall d, x :: x in lanes.Get(d).sorted ==> x.dir == d
    ensures forall d :: lanes.Get(d).next.Some? ==> lanes.Get(d).next.value in lanes.Get(d).sorted
  {
    forall d ensures lanes.Get(d).fifo == [] <==> lanes.Get(d).sorted == [] {
      assert |multiset(lanes.Get(d).fifo)| == |multiset(lanes.Get(d).sorted)|;
    }
    forall d, x | x in lanes.Get(d).fifo ensures x in lanes.Get(d).sorted {
      assert x in multiset(lanes.Get(d).fifo);
    }
  }

  lemma LaneAt(lanes: PerDir<Lane>, exact: PerDir<bool>, inFlight: set<Request>, d: Dir)
    requires LanesOk(lanes, exact, inFlight)
    ensures var l := lanes.Get(d);
      && (l.fifo == [] <==> l.sorted == []) && (l.sorted == [] <==> l.next == None)
      && (l.next.Some? ==> l.next.value in l.sorted && l.next.value.dir == d)
      && (l.fifo != [] ==> l.fifo[0] in l.sorted && l.fifo[0].dir == d)
  {
    LanesEmpty(lanes, exact, inFlight);
  }

  lemma NotQueued(lanes: PerDir<Lane>, exact: PerDir<bool>, inFlight: set<Request>, rq: Request)
    requires LanesOk(lanes, exact, inFlight) && rq !in lanes.Get(rq.dir).sorted
    ensures rq !in lanes.sync.fifo && rq !in lanes.async.fifo
  {
    LanesEmpty(lanes, exact, inFlight);
    assert rq !in lanes.Get(Sync).fifo && rq !in lanes.Get(Async).fifo;
  }

  lemma BatchFrame(b: Batch, b': Batch, inFlight: set<Request>, mixed: bool)
    requires BatchOk(b, inFlight, mixed)
    requires b' == b.(lastCheck := b'.lastCheck, expires := b'.expires)
    ensures BatchOk(b', inFlight, mixed)
  {}

  lemma AnticStart(a: Antic, inFlight: set<Request>, stale: bool)
    requires AnticOk(a, inFlight, stale) && a.status == AnticOff && a.ioc.Some?
    ensures AnticOk(a.WaitingForReq(), inFlight, stale) && a.WaitingForReq().Waiting()
  {}

  ghost function Members(l: seq<Request>): set<Request> { set x | x in l }

  lemma NoMembers(l: seq<Request>)
    ensures l == [] ==> Members(l) == {}
  {}

  lemma DrainStep(lanes: PerDir<Lane>, exact: PerDir<bool>, inFlight: set<Request>, d: Dir)
    requires LanesOk(lanes, exact, inFlight) && lanes.Get(d).next.Some?
    ensures var l, rq := lanes.Get(d), lanes.Get(d).next.value;
      && rq.dir == d && rq in l.sorted && rq in l.fifo
      && TakeOut(l, rq).sorted == Without(l.sorted, IndexOf(l.sorted, rq)) && |TakeOut(l, rq).sorted| == |l.sorted| - 1
      && (TakeOut(l, rq).next == None <==> TakeOut(l, rq).sorted == [])
      && forall x :: x in TakeOut(l, rq).sorted <==> x in l.sorted && x != rq
  {
    hide NeighboursDecide, Best, FindNext;
    TakeOutOk(d, lanes.Get(d), exact.Get(d), lanes.Get(d).next.value);
    RemoveContents(lanes.Get(d).sorted, lanes.Get(d).next.value);
  }

  lemma CountsOk(b: Batch, inFlight: set<Request>, mixed: bool)
    requires BatchOk(b, inFlight, mixed)
    ensures b.nrDispatched == |inFlight|
  {}

  ghost predicate HasAsync(inFlight: set<Request>) { exists x :: x in inFlight && x.dir == Async }

  lemma MixedAfter(lanes: PerDir<Lane>, exact: PerDir<bool>, before: set<Request>, after: set<Request>)
    requires LanesOk(lanes, exact, before)
    requires after == before + Members(lanes.sync.sorted) + Members(lanes.async.sorted)
    ensures HasAsync(after) <==> HasAsync(before) || |lanes.async.sorted| > 0
  {
    if |lanes.async.sorted| > 0 { assert lanes.async.sorted[0] in after; }
  }

  lemma ForcedOk(b: Batch, inFlight: set<Request>, mixed: bool)
    requires BatchOk(b, inFlight, mixed)
    ensures BatchOk(b.(dir := Sync, changed := false, newBatch := false), inFlight, HasAsync(inFlight))
  {}

  lemma IdleOk(b: Batch, inFlight: set<Request>, mixed: bool)
    requires BatchOk(b, inFlight, mixed)
    ensures BatchOk(b.(idled := true), inFlight, mixed)
  {}

  lemma StatesNew(rqState: map<Request, RqState>, inFlight: set<Request>, rq: Request)
    requires StatesOk(rqState, inFlight)
    ensures StatesOk(rqState[rq := RqNew], inFlight) && StatesOk(rqState[rq := RqQueued], inFlight)
    ensures rqState[rq := RqNew][rq := RqQueued] == rqState[rq := RqQueued]
  {}

  lemma StatesApart(rqState: map<Request, RqState>, rq: Request, alias: Request)
    ensures rq != alias ==>
      rqState[rq := RqNew][alias := RqDispatched][rq := RqQueued] == rqState[alias := RqDispatched][rq := RqQueued]
  {}

  lemma StatesDispatch(rqState: map<Request, RqState>, inFlight: set<Request>, rq: Request)
    requires StatesOk(rqState, inFlight)
    ensures StatesOk(rqState[rq := RqDispatched], inFlight + {rq})
  {}

  lemma StatesComplete(rqState: map<Request, RqState>, inFlight: set<Request>, rq: Request)
    requires StatesOk(rqState, inFlight)
    ensures rq in rqState && rqState[rq] in {RqDispatched, RqRemoved} ==> rq in inFlight
    ensures StatesOk(rqState[rq := RqPostsched], inFlight) && StatesOk(rqState[rq := RqPostsched], inFlight - {rq})
  {}

  lemma LanesComplete(lanes: PerDir<Lane>, exact: PerDir<bool>, inFlight: set<Request>, rq: Request)
    requires LanesOk(lanes, exact, inFlight)
    ensures LanesOk(lanes, exact, inFlight - {rq})
  {}

  /** Nothing is queued or in flight, and anticipation is not waiting. */
  ghost predicate Idle(a: AsData)
    reads a
  {
    && a.Valid() && a.lanes.sync.sorted == a.lanes.async.sorted == [] && a.track.inFlight == {} && !a.antic.Waiting()
    && a.track.clock == 0 && a.anticExpire > 0 && a.fifoExpire.sync >= 0
  }

  /** The only request of an idle queue is added. */
  method AddOnly(a: AsData, rq: Request)
    requires Idle(a) && rq.dir == Sync
    modifies a
    ensures a.Valid() && a.lanes.sync.sorted == a.lanes.sync.fifo == [rq] && a.lanes.async.sorted == a.lanes.async.fifo == []
    ensures a.lanes.sync.next == Some(rq) && a.track.inFlight == {} && a.antic == old(a.antic) && a.batch == old(a.batch)
    ensures a.track.clock == 0 && rq in a.fifoTime && a.fifoTime[rq] == a.fifoExpire.sync && !a.batch.changed
  {
    hide LanesOk, AnticOk, StatesOk, TimesOk;
    LanesEmpty(a.lanes, a.track.exact, a.track.inFlight);
    assert a.lanes.Get(Sync) == a.lanes.sync && a.lanes.Get(Async) == a.lanes.async;
    a.AddRequest(rq, 0, true);
  }

  /** A read comes, goes to the driver and is completed. */
  method Serve(a: AsData, rq: Request) returns (ghost drained: bool)
    requires Idle(a) && rq.dir == Sync
    modifies a
    ensures Idle(a) && a.batch.dir == Sync && a.antic == old(a.antic).Dispatched(rq).Completed(rq, 0, drained)
  {
    hide LanesOk, BatchOk, AnticOk, StatesOk, TimesOk, NeighboursDecide, Batch.Dispatched, Batch.Expired;
    AddOnly(a, rq);
    var n;
    ghost var taken;
    n, taken := a.DispatchRequest(0, true);
    assert taken == Some(rq);
    a.ActivateRequest(rq);
    drained := a.batch.Drained();
    a.CompletedRequest(rq, 0);
  }

  lemma NothingDispatched(rqState: map<Request, RqState>)
    requires StatesOk(rqState, {})
    ensures forall x :: x in rqState ==> rqState[x] != RqDispatched
  {}

  /** A stale wait is real. A read without an io_context leaves the earlier process named. When that read has completed too,
      anticipation waits for a request that is not there, with no timer armed, while a far request of another process is
      queued. The statistics are as the code has them here: the second request is close to the first, and the third is far
      from the second, with a think time of the named process below antic_expire. */
  method StaleWaits() returns (a: AsData)
    ensures a.Valid() && a.track.stale && a.antic.status == WaitReq && !a.antic.armed && a.antic.ioc == Some(7)
    ensures a.track.inFlight == {} && a.lanes.sync.sorted == [Request(3, Sync, false, 1_000_000, 8, Some(8))]
  {
    hide LanesOk, BatchOk, AnticOk, StatesOk, TimesOk, NeighboursDecide, Batch.Expired, TakeOut, PutIn;
    a := new AsData(1_000, 0);
    ghost var _ := Serve(a, Request(1, Sync, false, 0, 8, Some(7)));
    ghost var _ := Serve(a, Request(2, Sync, false, 100, 8, None));
    AddOnly(a, Request(3, Sync, false, 1_000_000, 8, Some(8)));
    assert StatesOk(a.rqState, a.track.inFlight);
    NothingDispatched(a.rqState);
    var n;
    ghost var taken;
    n, taken := a.DispatchRequest(0, false);
    WaitEnds(a.antic, a.track.inFlight, a.track.stale);
  }

  // ---------------------------------------------------------------- reads give way

  datatype Event = Arrives(rq: Request, now: int, guess: bool) | Activated(rq: Request) | Completes(rq: Request, now: int)
                 | TimerRuns | Asked(now: int, guess: bool)

  /** Everything queued or in flight is known. */
  ghost predicate AllKnown(lanes: PerDir<Lane>, inFlight: set<Request>, known: set<Request>) {
    inFlight <= known && (forall x :: x in lanes.sync.sorted ==> x in known) && forall x :: x in lanes.async.sorted ==> x in known
  }

  lemma KnownPutIn(lanes: PerDir<Lane>, inFlight: set<Request>, known: set<Request>, rq: Request)
    requires AllKnown(lanes, inFlight, known)
    ensures AllKnown(lanes.Set(rq.dir, PutIn(lanes.Get(rq.dir), rq)), inFlight, known + {rq})
  {
    InsertContents(lanes.Get(rq.dir).sorted, rq);
  }

  lemma {:induction false} InsertContents(l: seq<Request>, rq: Request)
    ensures forall x :: x in Insert(l, rq) ==> x in l || x == rq
  {
    if l != [] { InsertContents(l[1..], rq); }
  }

  lemma KnownTakeOut(lanes: PerDir<Lane>, inFlight: set<Request>, known: set<Request>, d: Dir, rq: Request)
    requires AllKnown(lanes, inFlight, known) && rq in lanes.Get(d).sorted && rq in lanes.Get(d).fifo
    ensures AllKnown(lanes.Set(d, TakeOut(lanes.Get(d), rq)), inFlight + {rq}, known)
  {
    hide FindNext;
    var l := lanes.Get(d).sorted;
    assert forall x :: x in Without(l, IndexOf(l, rq)) ==> x in l;
  }

  datatype End = Still | Turned | NoReads

  /** Reads that keep coming do not starve writes. While a read batch with the deadline e is served and a write waits, whatever
      comes and completes, the first time that the driver asks after e the queue turns to the writes, unless anticipation
      holds everything back just then. Events that cannot happen are passed over; waited tells for each event whether
      anticipation waited. */
  method ReadsGiveWay(a: AsData, events: seq<Event>, known: set<Request>, start: int, e: int)
    returns (k: nat, end: End, ghost waited: seq<bool>)
    requires a.Valid() && a.Holding(e) && AllKnown(a.lanes, a.track.inFlight, known) && a.track.clock <= start
    modifies a
    ensures a.Valid() && k <= |events| && |waited| == |events|
    ensures forall j :: 0 <= j < k && events[j].Asked? && events[j].now > e ==> waited[j]
    ensures end == Still ==> k == |events| && a.Holding(e)
    ensures end == Turned ==> k < |events| && events[k].Asked? && events[k].now > e && !waited[k] && a.batch.dir == Async
    ensures end == NoReads ==> k < |events| && events[k].Asked? && a.Holding(e) && a.lanes.sync.fifo == []
  {
    hide LanesOk, BatchOk, AnticOk, StatesOk, TimesOk, AllKnown, TakeOut, PutIn, NeighboursDecide, IndexOf, Apart, AtPos;
    k, waited := 0, seq(|events|, _ => false);
    var known, clock := known, start;
    while k < |events|
      invariant k <= |events| && |waited| == |events| && a.Valid() && a.Holding(e)
      invariant AllKnown(a.lanes, a.track.inFlight, known) && a.track.clock <= clock
      invariant forall j :: 0 <= j < k && events[j].Asked? && events[j].now > e ==> waited[j]
    {
      waited := waited[k := a.antic.Waiting()];
      match events[k] {
        case Arrives(rq, now, guess) =>
          if rq !in known && clock <= now {
            Arrive(a, rq, now, guess, known);
            known, clock := known + {rq}, now;
          }
        case Activated(rq) =>
          if rq in a.rqState && a.rqState[rq] == RqDispatched {
            a.ActivateRequest(rq);
          }
        case Completes(rq, now) =>
          Complete(a, rq, now, known);
        case TimerRuns =>
          a.AnticTimeout();
        case Asked(now, guess) =>
          if a.lanes.sync.fifo == [] {
            return k, NoReads, waited;
          }
          Ask(a, now, guess, e, known);
          if a.batch.dir == Async {
            return k, Turned, waited;
          }
      }
      k := k + 1;
    }
    return k, Still, waited;
  }

  method Arrive(a: AsData, rq: Request, now: int, guess: bool, ghost known: set<Request>)
    requires a.Valid() && AllKnown(a.lanes, a.track.inFlight, known) && rq !in known && a.track.clock <= now
    modifies a
    ensures a.Valid() && AllKnown(a.lanes, a.track.inFlight, known + {rq}) && a.track.clock == now
    ensures forall e :: old(a.Holding(e)) ==> a.Holding(e)
  {
    hide LanesOk, BatchOk, AnticOk, StatesOk, TimesOk, TakeOut, PutIn, NeighboursDecide, IndexOf, Apart;
    ghost var alias := AtPos(a.lanes.Get(rq.dir).sorted, rq.pos);
    a.AddRequest(rq, now, guess);
    if alias.Some? {
      KnownTakeOut(old(a.lanes), old(a.track.inFlight), known, rq.dir, alias.value);
      KnownPutIn(old(a.lanes).Set(rq.dir, TakeOut(old(a.lanes).Get(rq.dir), alias.value)), a.track.inFlight, known, rq);
    } else {
      KnownPutIn(old(a.lanes), a.track.inFlight, known, rq);
    }
  }

  method Complete(a: AsData, rq: Request, now: int, ghost known: set<Request>)
    requires a.Valid() && AllKnown(a.lanes, a.track.inFlight, known)
    modifies a
    ensures a.Valid() && AllKnown(a.lanes, a.track.inFlight, known) && a.track.clock == old(a.track.clock)
    ensures forall e :: old(a.Holding(e)) ==> a.Holding(e)
  {
    hide LanesOk, BatchOk, AnticOk, StatesOk, TimesOk;
    a.CompletedRequest(rq, now);
  }

  method Ask(a: AsData, now: int, guess: bool, e: int, ghost known: set<Request>)
    requires a.Valid() && AllKnown(a.lanes, a.track.inFlight, known) && a.Holding(e) && a.lanes.sync.fifo != []
    modifies a
    ensures a.Valid() && AllKnown(a.lanes, a.track.inFlight, known) && a.track.clock == old(a.track.clock)
    ensures if now > e && !old(a.antic.Waiting()) then a.batch.dir == Async else a.Holding(e)
  {
    hide LanesOk, BatchOk, AnticOk, StatesOk, TimesOk, TakeOut, PutIn, NeighboursDecide, IndexOf, Apart;
    var n;
    ghost var taken;
    n, taken := a.DispatchRequest(now, guess);
    if taken.Some? { KnownTakeOut(old(a.lanes), old(a.track.inFlight), known, taken.value.dir, taken.value); }
  }
}
