/**
  The per-CPU request queue of crypto/cryptd.c and its worker.

  An enqueue runs with preemption off and is one step. The worker takes a request in one step, then announces the
  backlogged request that has come within the limit, completes its own request and looks at the queue again; enqueues may
  come between any two of these steps.
 */
module Cryptd {
  import opened Wrappers
  import opened CryptoQueue

  /** One accepted submission of a request; busy if the caller was told -EBUSY. */
  datatype Submission = Submission(id: nat, busy: bool)

  datatype Worker = Idle | Took(req: nat, backlog: Option<nat>) | Told(req: nat) | Finished

  /** What has happened: the accepted submissions in order, how many were taken off the queue and how many of those were
      completed, and the submissions (by position) whose owners were told -EINPROGRESS later on. */
  datatype Hist = Hist(accepted: seq<Submission>, taken: nat, completed: nat, told: seq<nat>)

  function Ids(s: seq<Submission>): seq<nat> { seq(|s|, i requires 0 <= i < |s| => s[i].id) }

  /** The positions below n of submissions that were told -EBUSY. */
  function BusyBelow(s: seq<Submission>, n: nat): seq<nat>
    requires n <= |s|
  {
    if n == 0 then [] else BusyBelow(s, n - 1) + if s[n - 1].busy then [n - 1] else []
  }

  function Min(a: nat, b: nat): nat { if a < b then a else b }

  lemma {:induction false} BusyBelowAppend(s: seq<Submission>, x: Submission, n: nat)
    requires n <= |s|
    ensures BusyBelow(s + [x], n) == BusyBelow(s, n)
  {
    if n > 0 { BusyBelowAppend(s, x, n - 1); }
  }

  /** The positions come in increasing order, so each comes once, and they are exactly the busy ones below n. */
  lemma {:induction false} BusyBelowMeans(s: seq<Submission>, n: nat)
    requires n <= |s|
    ensures forall p :: p in BusyBelow(s, n) <==> 0 <= p < n && s[p].busy
    ensures forall i, j :: 0 <= i < j < |BusyBelow(s, n)| ==> BusyBelow(s, n)[i] < BusyBelow(s, n)[j]
  {
    if n > 0 {
      BusyBelowMeans(s, n - 1);
      var b := BusyBelow(s, n - 1);
      forall j | 0 <= j < |b| ensures b[j] < n - 1 { assert b[j] in b; }
    }
  }

  /** How far the announcements have come: everything within the limit, less the one in the worker's hands. */
  function Horizon(h: Hist, w: Worker, limit: nat): nat
    requires w.Took? && w.backlog.Some? ==> h.taken > 0
  {
    Min(|h.accepted|, h.taken + limit - if w.Took? && w.backlog.Some? then 1 else 0)
  }

  /** Taken and waiting submissions make up the accepted ones; all waiting ones beyond the limit, and only those and ones
      that moved up, were told -EBUSY. */
  ghost predicate HistOk(h: Hist, w: Worker, list: seq<nat>, limit: nat) {
    && h.taken <= |h.accepted| && list == Ids(h.accepted[h.taken..])
    && h.completed + (if w.Took? || w.Told? then 1 else 0) == h.taken
    && (w.Took? || w.Told? ==> w.req == h.accepted[h.taken - 1].id)
    && (w.Took? && w.backlog.Some? ==>
          h.taken - 1 + limit < |h.accepted| && w.backlog.value == h.accepted[h.taken - 1 + limit].id)
    && h.told == BusyBelow(h.accepted, Horizon(h, w, limit))
    && (forall p :: Horizon(h, w, limit) <= p < |h.accepted| ==> h.accepted[p].busy)
  }

  lemma HistAccept(h: Hist, w: Worker, list: seq<nat>, limit: nat, x: Submission)
    requires HistOk(h, w, list, limit) && x.busy == (|list| >= limit)
    ensures HistOk(h.(accepted := h.accepted + [x]), w, list + [x.id], limit)
  {
    var h' := h.(accepted := h.accepted + [x]);
    assert h'.accepted[h.taken..] == h.accepted[h.taken..] + [x];
    BusyBelowAppend(h.accepted, x, Horizon(h, w, limit));
  }

  /** The request at the limit is the one to announce, and no other submission comes within it. */
  lemma HistTake(h: Hist, list: seq<nat>, limit: nat)
    requires HistOk(h, Idle, list, limit) && list != []
    ensures HistOk(h.(taken := h.taken + 1), Took(list[0], FirstBeyond(list, limit)), list[1..], limit)
  {}

  lemma HistTell(h: Hist, w: Worker, list: seq<nat>, limit: nat)
    requires HistOk(h, w, list, limit) && w.Took?
    ensures w.backlog.Some? ==> h.accepted[h.taken - 1 + limit].busy
    ensures HistOk(if w.backlog.Some? then h.(told := h.told + [h.taken - 1 + limit]) else h, Told(w.req), list, limit)
  {
  }

  /** The submission that is completed had its announcement, if it was owed one. */
  lemma HistComplete(h: Hist, w: Worker, list: seq<nat>, limit: nat)
    requires HistOk(h, w, list, limit) && w.Told?
    ensures h.completed < |h.accepted| && h.accepted[h.completed].id == w.req
    ensures h.accepted[h.completed].busy <==> h.completed in h.told
    ensures HistOk(h.(completed := h.completed + 1), Finished, list, limit)
  {
    BusyBelowMeans(h.accepted, Horizon(h, w, limit));
  }

  class CpuQueue {
    const queue: Queue
    var pending: bool
    var worker: Worker
    ghost var hist: Hist

    ghost predicate Valid()
      reads this, queue
    {
      && queue.Valid()
      && HistOk(hist, worker, queue.list, queue.maxQlen)
      && (queue.list != [] ==> pending || worker != Idle)
    }

    constructor (maxQlen: nat)
      ensures Valid() && fresh(queue) && queue.maxQlen == maxQlen && queue.list == [] && hist == Hist([], 0, 0, []) && !pending
    {
      queue := new Queue(maxQlen);
      pending, worker, hist := false, Idle, Hist([], 0, 0, []);
    }

    /** cryptd_enqueue_request: the work item is queued even if the request was refused. */
    method Enqueue(request: nat, mayBacklog: bool) returns (err: int)
      requires Valid() && request !in queue.list
      modifies this, queue
      ensures Valid() && pending && worker == old(worker)
      ensures err == if |old(queue.list)| >= queue.maxQlen then -EBUSY else -EINPROGRESS
      ensures hist == if err == -EBUSY && !mayBacklog then old(hist)
                      else old(hist).(accepted := old(hist.accepted) + [Submission(request, err == -EBUSY)])
    {
      hide HistOk, Queue.Valid;
      ghost var list := queue.list;
      err := queue.Enqueue(request, mayBacklog);
      if err != -EBUSY || mayBacklog {
        ghost var x := Submission(request, err == -EBUSY);
        HistAccept(hist, worker, list, queue.maxQlen, x);
        hist := hist.(accepted := hist.accepted + [x]);
      }
      pending := true;
    }

    /** cryptd_queue_worker starts: it notes the backlog pointer and takes the head, or finds nothing and returns. */
    method Take()
      requires Valid() && pending && worker == Idle
      modifies this, queue
      ensures Valid() && !pending
      ensures old(queue.list) == [] ==> worker == Idle && hist == old(hist)
      ensures old(queue.list) != [] ==>
                worker.Took? && worker.req == old(queue.list[0]) && hist == old(hist).(taken := old(hist.taken) + 1)
    {
      hide HistOk;
      ghost var list := queue.list;
      pending := false;
      var backlog := queue.GetBacklog();
      var req := queue.Dequeue();
      if req != None {
        HistTake(hist, list, queue.maxQlen);
        worker := Took(req.value, backlog);
        hist := hist.(taken := hist.taken + 1);
      }
    }

    /** The owner of the request that came within the limit is told -EINPROGRESS. */
    method Tell()
      requires Valid() && worker.Took?
      modifies this
      ensures Valid() && pending == old(pending) && worker == Told(old(worker.req))
      ensures old(worker.backlog) == None ==> hist == old(hist)
      ensures old(worker.backlog).Some? ==>
                var p := old(hist.taken) - 1 + queue.maxQlen;
                && 0 <= p < |hist.accepted| && hist.accepted[p] == Submission(old(worker.backlog.value), true)
                && p !in old(hist.told) && hist == old(hist).(told := old(hist.told) + [p])
    {
      HistTell(hist, worker, queue.list, queue.maxQlen);
      BusyBelowMeans(hist.accepted, Horizon(hist, worker, queue.maxQlen));
      if worker.backlog != None {
        hist := hist.(told := hist.told + [hist.taken - 1 + queue.maxQlen]);
      }
      hide HistOk, BusyBelow, Horizon;
      worker := Told(worker.req);
    }

    /** The worker completes its request: the oldest one not yet completed, announced before if it was told -EBUSY. */
    method Complete()
      requires Valid() && worker.Told?
      modifies this
      ensures Valid() && pending == old(pending) && worker == Finished
      ensures hist == old(hist).(completed := old(hist.completed) + 1)
      ensures hist.accepted[hist.completed - 1].id == old(worker.req)
      ensures hist.accepted[hist.completed - 1].busy <==> hist.completed - 1 in hist.told
    {
      HistComplete(hist, worker, queue.list, queue.maxQlen);
      hide HistOk;
      worker := Finished;
      hist := hist.(completed := hist.completed + 1);
    }

    /** The worker queues itself again if requests are left. */
    method Leave()
      requires Valid() && worker == Finished
      modifies this
      ensures Valid() && worker == Idle && hist == old(hist)
      ensures pending == (old(pending) || queue.list != [])
    {
      if queue.qlen != 0 { pending := true; }
      worker := Idle;
    }

    /** No submission is announced twice, none that was not told -EBUSY, and completions follow the order of acceptance. */
    lemma AnnouncedOnce()
      requires Valid()
      ensures forall i, j :: 0 <= i < j < |hist.told| ==> hist.told[i] != hist.told[j]
      ensures forall p :: p in hist.told ==> 0 <= p < |hist.accepted| && hist.accepted[p].busy
      ensures forall p :: 0 <= p < hist.completed && hist.accepted[p].busy ==> p in hist.told
      ensures queue.list == Ids(hist.accepted[hist.taken..])
    {
      BusyBelowMeans(hist.accepted, Horizon(hist, worker, queue.maxQlen));
    }
  }
}
