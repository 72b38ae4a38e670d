/**
  The asynchronous IV generator of crypto/chainiv.c: any number of callers and the work item share a bit lock
  (CHAINIV_STATE_INUSE), a queue of postponed requests and the IV buffer.

  Every access to shared memory is one atomic step of one thread, and a run is any interleaving of such steps. The
  outcomes of the cipher and of the random number generator and the backlog flag are chosen by the environment.
 */
module Chainiv {
  import opened Wrappers
  import CryptoQueue

  const MAX_QLEN: nat := 100

  /** Where a thread is, named after what it does next.

      First*: async_chainiv_givencrypt_first; Take, CheckQueue, Release: async_chainiv_givencrypt;
      Give, Encrypt, Chain: async_chainiv_givencrypt_tail; Enqueue, TakePostponed, SetErr: async_chainiv_postpone_request;
      Sched*, QueueWork: async_chainiv_schedule_work; Dequeue: async_chainiv_do_postponed. */
  datatype Pc =
    | FirstTake | FirstCheck | FirstSwitch | FirstDraw | FirstRelease
    | Take | CheckQueue | Release
    | Give | Encrypt | Chain
    | Enqueue | TakePostponed | SetErr
    | SchedErr | SchedCheck | SchedRelease | SchedRecheck | SchedTake | QueueWork
    | Dequeue | Done
  {
    /** A thread here holds the bit. */
    predicate Owns() {
      FirstCheck? || FirstSwitch? || FirstDraw? || FirstRelease? || CheckQueue? || Release? || Give? || Encrypt? || Chain? ||
      SetErr? || SchedErr? || SchedCheck? || SchedRelease? || QueueWork? || Dequeue?
    }

    /** A thread here is about to look at the bit or the queue again. */
    predicate WillLook() {
      Take? || Enqueue? || TakePostponed? || SchedRecheck? || SchedTake?
    }

    /** A thread here has a request that is neither queued nor encrypted yet. */
    predicate Carries() {
      FirstTake? || FirstCheck? || FirstSwitch? || FirstDraw? || FirstRelease? || Take? || CheckQueue? || Release? ||
      Give? || Encrypt? || Chain? || Enqueue?
    }

    /** A thread here has read the answer that it will return. */
    predicate Answered() {
      SchedCheck? || SchedRelease? || SchedRecheck? || SchedTake? || QueueWork? || Done?
    }

    /** How many steps a thread can still take, at most. */
    function Rank(): nat {
      match this
      case FirstTake => 20 case FirstCheck => 19 case FirstSwitch => 18 case FirstDraw => 17 case FirstRelease => 16
      case Take => 15 case CheckQueue => 14 case Release => 13 case Enqueue => 12 case TakePostponed => 11
      case Dequeue => 11 case Give => 10 case Encrypt => 9 case Chain => 8 case SetErr => 7
      case SchedErr => 6 case SchedCheck => 5 case SchedRelease => 4 case SchedRecheck => 3 case SchedTake => 2
      case QueueWork => 1 case Done => 0
    }

    /** A thread can be here before the first call has switched the pointer. */
    predicate Early() {
      FirstTake? || FirstCheck? || FirstSwitch? || Take? || Enqueue? || TakePostponed? || Done?
    }
  }

  /** req is the request in hand, if hand is set; err is what became of it, and ret what is returned or reported for it; giv
      and info are the IV given out and the IV buffer of the sub-request. */
  datatype Thread = Thread(pc: Pc, hand: bool, req: nat, err: int, ret: int, giv: nat, info: nat)

  function NewCall(pc: Pc, req: nat): Thread { Thread(pc, true, req, 0, 0, 0, 0) }

  /** One finished encryption: the IV that was given, its error and, if it succeeded, the IV that came out. */
  datatype Entry = Entry(req: nat, giv: nat, err: int, out: nat)

  /** What has happened: the encryptions, what the random number generator left in the IV buffer, whether the last to
      release the bit was a first call whose generator had failed, the requests put on and taken off the queue, those that
      were called with, and those that were refused. */
  datatype Hist = Hist(log: seq<Entry>, seed: nat, stranded: bool, postponed: seq<nat>, taken: seq<nat>, calls: multiset<nat>,
                       refused: multiset<nat>)

  /** The state bit, the pending bit of the work item, whether givencrypt still points to the first-call function, and the
      queue, iv and err of the context. */
  datatype Ctx = Ctx(inuse: bool, pending: bool, first: bool, queue: seq<nat>, iv: nat, err: int, hist: Hist)

  datatype State = State(ctx: Ctx, threads: seq<Thread>)

  datatype Choice = Choice(err: int, out: nat, backlog: bool, rngOk: bool)

  datatype After = After(ctx: Ctx, th: Thread)

  function Init(): State {
    State(Ctx(false, false, true, [], 0, 0, Hist([], 0, false, [], [], multiset{}, multiset{})), [])
  }

  /** test_and_set_bit that finds the bit clear */
  function Seize(c: Ctx): Ctx { c.(inuse := true, hist := c.hist.(stranded := false)) }

  /** async_chainiv_givencrypt_first: the pointer is switched before the random number generator is asked, which may leave
      anything in the IV buffer if it fails. */
  function ActFirst(c: Ctx, th: Thread, ch: Choice): After {
    match th.pc
    case FirstTake => if c.inuse then After(c, th.(pc := Take)) else After(Seize(c), th.(pc := FirstCheck))
    case FirstCheck => After(c, th.(pc := if c.first then FirstSwitch else FirstRelease))
    case FirstSwitch => After(c.(first := false), th.(pc := FirstDraw))
    case FirstDraw =>
      After(c.(iv := ch.out, hist := c.hist.(seed := ch.out)), th.(pc := FirstRelease, err := if ch.rngOk then 0 else -1))
    case _ =>
      if th.err != 0 then After(Refuse(c.(inuse := false, hist := c.hist.(stranded := true)), th.req), th.(pc := Done, ret := th.err))
      else After(c.(inuse := false, hist := c.hist.(stranded := false)), th.(pc := Take))
  }

  function Refuse(c: Ctx, req: nat): Ctx { c.(hist := c.hist.(refused := c.hist.refused + multiset{req})) }

  /** async_chainiv_givencrypt up to its tail or the jump to postpone. */
  function ActTake(c: Ctx, th: Thread): After {
    match th.pc
    case Take => if c.inuse then After(c, th.(pc := Enqueue)) else After(Seize(c), th.(pc := CheckQueue))
    case CheckQueue => After(c, th.(pc := if |c.queue| != 0 then Release else Give))
    case _ => After(c.(inuse := false), th.(pc := Enqueue))
  }

  /** async_chainiv_givencrypt_tail: a failed encryption leaves the IV as it was. */
  function ActTail(c: Ctx, th: Thread, ch: Choice): After {
    match th.pc
    case Give => After(c, th.(pc := Encrypt, giv := c.iv, info := c.iv))
    case Encrypt =>
      if ch.err != 0 then
        After(c.(err := ch.err, hist := c.hist.(log := c.hist.log + [Entry(th.req, th.giv, ch.err, 0)])),
              th.(pc := SchedErr, err := ch.err))
      else
        After(c.(err := 0), th.(pc := Chain, err := 0, info := ch.out))
    case _ =>
      After(c.(iv := th.info, hist := c.hist.(log := c.hist.log + [Entry(th.req, th.giv, 0, th.info)])),
            th.(pc := SchedErr))
  }

  function Push(c: Ctx, req: nat): Ctx {
    c.(queue := c.queue + [req], hist := c.hist.(postponed := c.hist.postponed + [req]))
  }

  /** async_chainiv_postpone_request: whatever the enqueue returns, the bit is tried next. */
  function ActPostpone(c: Ctx, th: Thread, ch: Choice): After {
    match th.pc
    case Enqueue =>
      if |c.queue| >= MAX_QLEN then
        After(if ch.backlog then Push(c, th.req) else Refuse(c, th.req), th.(pc := TakePostponed, err := -CryptoQueue.EBUSY))
      else
        After(Push(c, th.req), th.(pc := TakePostponed, err := -CryptoQueue.EINPROGRESS))
    case TakePostponed => if c.inuse then After(c, th.(pc := Done, ret := th.err)) else After(Seize(c), th.(pc := SetErr))
    case _ => After(c.(err := th.err), th.(pc := SchedErr))
  }

  /** async_chainiv_schedule_work */
  function ActSched(c: Ctx, th: Thread): After {
    match th.pc
    case SchedErr => After(c, th.(pc := SchedCheck, ret := c.err))
    case SchedCheck => After(c, th.(pc := if |c.queue| == 0 then SchedRelease else QueueWork))
    case SchedRelease => After(c.(inuse := false), th.(pc := SchedRecheck))
    case SchedRecheck => After(c, th.(pc := if |c.queue| == 0 then Done else SchedTake))
    case SchedTake => if c.inuse then After(c, th.(pc := Done)) else After(Seize(c), th.(pc := QueueWork))
    case _ => After(c.(pending := true), th.(pc := Done))
  }

  /** async_chainiv_do_postponed up to the tail. */
  function ActDequeue(c: Ctx, th: Thread): After {
    if c.queue == [] then After(c, th.(pc := SchedErr))
    else
      After(c.(queue := c.queue[1..], hist := c.hist.(taken := c.hist.taken + [c.queue[0]])),
            th.(pc := Give, hand := true, req := c.queue[0]))
  }

  /** One atomic step of a thread. */
  function Act(c: Ctx, th: Thread, ch: Choice): After
    requires !th.pc.Done?
  {
    match th.pc
    case FirstTake | FirstCheck | FirstSwitch | FirstDraw | FirstRelease => ActFirst(c, th, ch)
    case Take | CheckQueue | Release => ActTake(c, th)
    case Give | Encrypt | Chain => ActTail(c, th, ch)
    case Enqueue | TakePostponed | SetErr => ActPostpone(c, th, ch)
    case SchedErr | SchedCheck | SchedRelease | SchedRecheck | SchedTake | QueueWork => ActSched(c, th)
    case Dequeue => ActDequeue(c, th)
  }

  /** The steps that enqueue and dequeue do to the queue, and answer, what the functions of crypto/algapi.c do. */
  method EnqueueIs(q: CryptoQueue.Queue, c: Ctx, th: Thread, ch: Choice) returns (err: int)
    requires q.Valid() && q.maxQlen == MAX_QLEN && q.list == c.queue && th.pc.Enqueue? && th.req !in c.queue
    modifies q
    ensures q.Valid() && q.list == Act(c, th, ch).ctx.queue && err == Act(c, th, ch).th.err
  {
    err := q.Enqueue(th.req, ch.backlog);
  }

  method DequeueIs(q: CryptoQueue.Queue, c: Ctx, th: Thread, ch: Choice) returns (req: Option<nat>)
    requires q.Valid() && q.list == c.queue && th.pc.Dequeue?
    modifies q
    ensures q.Valid() && q.list == Act(c, th, ch).ctx.queue
    ensures req == if Act(c, th, ch).th.pc.Give? then Some(Act(c, th, ch).th.req) else None
  {
    req := q.Dequeue();
  }

  function Step(s: State, t: nat, ch: Choice): State
    requires t < |s.threads| && !s.threads[t].pc.Done?
  {
    var a := Act(s.ctx, s.threads[t], ch);
    State(a.ctx, s.threads[t := a.th])
  }

  /** A new call: it goes through the function that givencrypt points to. */
  function Call(s: State, req: nat): State {
    State(s.ctx.(hist := s.ctx.hist.(calls := s.ctx.hist.calls + multiset{req})),
          s.threads + [NewCall(if s.ctx.first then FirstTake else Take, req)])
  }

  /** The workqueue starts the work item. */
  function StartWork(s: State): State {
    State(s.ctx.(pending := false), s.threads + [Thread(Dequeue, false, 0, 0, 0, 0, 0)])
  }

  ghost predicate Next(s: State, s': State) {
    || (exists req :: s' == Call(s, req))
    || (s.ctx.pending && s' == StartWork(s))
    || (exists t, ch :: 0 <= t < |s.threads| && !s.threads[t].pc.Done? && s' == Step(s, t, ch))
  }

  ghost predicate IsRun(run: seq<State>) {
    run != [] && run[0] == Init() && forall i :: 0 <= i < |run| - 1 ==> Next(run[i], run[i + 1])
  }

  // ---------------------------------------------------------------- who holds the bit

  function One(b: bool): nat { if b then 1 else 0 }

  function Owners(threads: seq<Thread>): nat {
    if threads == [] then 0 else Owners(threads[..|threads| - 1]) + One(threads[|threads| - 1].pc.Owns())
  }

  lemma {:induction false} OwnersUpdate(threads: seq<Thread>, t: nat, th: Thread)
    requires t < |threads|
    ensures Owners(threads[t := th]) == Owners(threads) - One(threads[t].pc.Owns()) + One(th.pc.Owns())
  {
    hide Pc.Owns;
    var n := |threads| - 1;
    if t == n {
      assert threads[t := th][..n] == threads[..n];
    } else {
      OwnersUpdate(threads[..n], t, th);
      assert threads[t := th][..n] == threads[..n][t := th];
    }
  }

  lemma OwnersAppend(threads: seq<Thread>, th: Thread)
    ensures Owners(threads + [th]) == Owners(threads) + One(th.pc.Owns())
  {}

  lemma {:induction false} OwnersAtLeast(threads: seq<Thread>, t: nat)
    requires t < |threads| && threads[t].pc.Owns()
    ensures Owners(threads) >= 1
    ensures forall u :: 0 <= u < |threads| && u != t && threads[u].pc.Owns() ==> Owners(threads) >= 2
  {
    hide Pc.Owns;
    var n := |threads| - 1;
    if t < n { OwnersAtLeast(threads[..n], t); }
    forall u | 0 <= u < |threads| && u != t && threads[u].pc.Owns() ensures Owners(threads) >= 2 {
      if t == n { OwnersAtLeast(threads[..n], u); }
    }
  }

  lemma {:induction false} NoOwners(threads: seq<Thread>)
    requires forall t :: 0 <= t < |threads| ==> !threads[t].pc.Owns()
    ensures Owners(threads) == 0
  {
    hide Pc.Owns;
    if threads != [] { NoOwners(threads[..|threads| - 1]); }
  }

  /** The bit is set exactly while one thread, or the pending work item, holds it. */
  ghost predicate OwnerOk(s: State) {
    Owners(s.threads) + One(s.ctx.pending) == One(s.ctx.inuse)
  }

  /** One step, seen from the rest of the system: `others` other threads hold the bit. */
  lemma OwnerAct(c: Ctx, th: Thread, ch: Choice, others: nat)
    requires !th.pc.Done?
    requires others + One(th.pc.Owns()) + One(c.pending) == One(c.inuse)
    ensures others + One(Act(c, th, ch).th.pc.Owns()) + One(Act(c, th, ch).ctx.pending) == One(Act(c, th, ch).ctx.inuse)
  {
  }

  lemma OwnerStep(s: State, t: nat, ch: Choice)
    requires OwnerOk(s) && t < |s.threads| && !s.threads[t].pc.Done?
    ensures OwnerOk(Step(s, t, ch))
  {
    hide Pc.Owns, Act;
    if s.threads[t].pc.Owns() { OwnersAtLeast(s.threads, t); }
    OwnerAct(s.ctx, s.threads[t], ch, Owners(s.threads) - One(s.threads[t].pc.Owns()));
    OwnersUpdate(s.threads, t, Act(s.ctx, s.threads[t], ch).th);
  }

  /** queue_work never finds the work item pending: the BUG_ON in async_chainiv_schedule_work cannot fire. */
  lemma WorkNotPending(s: State, t: nat)
    requires OwnerOk(s) && t < |s.threads| && s.threads[t].pc.QueueWork?
    ensures !s.ctx.pending
  {
    OwnersAtLeast(s.threads, t);
  }

  /** Two threads never hold the bit at once, and none does while the work item is pending. */
  lemma Exclusive(s: State, t: nat, u: nat)
    requires OwnerOk(s) && t < |s.threads| && u < |s.threads| && s.threads[t].pc.Owns() && s.threads[u].pc.Owns()
    ensures t == u && s.ctx.inuse && !s.ctx.pending
  {
    hide Pc.Owns;
    OwnersAtLeast(s.threads, t);
  }

  // ---------------------------------------------------------------- the chain of IVs

  /** The IV that comes next: what the last successful encryption left, or the drawn one. */
  function NextIv(log: seq<Entry>, seed: nat): nat {
    if log == [] then seed
    else if log[|log| - 1].err == 0 then log[|log| - 1].out
    else NextIv(log[..|log| - 1], seed)
  }

  /** Every encryption was given the IV that the last successful one before it left. */
  ghost predicate Chained(log: seq<Entry>, seed: nat) {
    forall i :: 0 <= i < |log| ==> log[i].giv == NextIv(log[..i], seed)
  }

  lemma ChainedAppend(log: seq<Entry>, seed: nat, e: Entry)
    requires Chained(log, seed) && e.giv == NextIv(log, seed)
    ensures Chained(log + [e], seed)
    ensures NextIv(log + [e], seed) == if e.err == 0 then e.out else NextIv(log, seed)
  {
    hide NextIv;
    var l := log + [e];
    assert l[..|log|] == log;
    forall i | 0 <= i < |l| ensures l[i].giv == NextIv(l[..i], seed) {
      if i < |log| { assert l[..i] == log[..i]; }
    }
    NextIvLast(log, seed, e);
  }

  lemma NextIvLast(log: seq<Entry>, seed: nat, e: Entry)
    ensures NextIv(log + [e], seed) == if e.err == 0 then e.out else NextIv(log, seed)
  {}

  /** The IV buffer follows the chain, nothing is encrypted before the IV is drawn, and postponed requests are taken off
      the queue in the order in which they were put on it. */
  ghost predicate CtxOk(c: Ctx) {
    && c.iv == NextIv(c.hist.log, c.hist.seed)
    && Chained(c.hist.log, c.hist.seed)
    && (c.first ==> c.hist.log == [] && !c.pending)
    && (c.hist.stranded ==> !c.inuse)
    && c.hist.postponed == c.hist.taken + c.queue
  }

  ghost predicate ThreadOk(c: Ctx, th: Thread) {
    && (th.pc.FirstTake? || th.pc.FirstCheck? ==> th.err == 0)
    && (th.pc.FirstRelease? ==> th.err == 0 || th.err == -1)
    && (th.pc.FirstSwitch? ==> c.first)
    && (th.pc.FirstDraw? ==> c.hist.log == [])
    && (th.pc.Encrypt? || th.pc.Chain? ==> th.giv == c.iv) && (th.pc.Encrypt? ==> th.info == c.iv)
    && (c.first ==> th.pc.Early() && (c.inuse || th.pc.FirstTake?))
    && (th.hand && th.pc.SchedErr? ==> c.err == th.err)
    && (th.hand && th.pc.Chain? ==> c.err == 0 == th.err)
    && (th.hand && th.pc.Answered() ==> th.ret == th.err)
    && (th.pc.Carries() || th.pc.SetErr? || th.pc.TakePostponed? ==> th.hand)
    && (th.pc.Dequeue? ==> !th.hand)
  }

  lemma CtxTail(c: Ctx, th: Thread, ch: Choice)
    requires CtxOk(c) && ThreadOk(c, th) && (th.pc.Give? || th.pc.Encrypt? || th.pc.Chain?)
    ensures CtxOk(ActTail(c, th, ch).ctx)
  {
    hide NextIv, Chained;
    if th.pc.Encrypt? && ch.err != 0 {
      ChainedAppend(c.hist.log, c.hist.seed, Entry(th.req, th.giv, ch.err, 0));
    } else if th.pc.Chain? {
      ChainedAppend(c.hist.log, c.hist.seed, Entry(th.req, th.giv, 0, th.info));
    }
  }

  lemma CtxQueue(c: Ctx, th: Thread, ch: Choice)
    requires CtxOk(c) && ThreadOk(c, th) && (th.pc.Enqueue? || th.pc.Dequeue?)
    ensures CtxOk(Act(c, th, ch).ctx)
  {
    hide NextIv, Chained;
    var h := c.hist;
    if th.pc.Enqueue? {
      assert (h.taken + c.queue) + [th.req] == h.taken + (c.queue + [th.req]);
    } else if c.queue != [] {
      assert h.taken + c.queue == (h.taken + [c.queue[0]]) + c.queue[1..];
    }
  }

  lemma CtxFirst(c: Ctx, th: Thread, ch: Choice)
    requires CtxOk(c) && ThreadOk(c, th) && th.pc.FirstDraw?
    ensures CtxOk(ActFirst(c, th, ch).ctx)
  {
  }

  lemma CtxOther(c: Ctx, th: Thread, ch: Choice)
    requires CtxOk(c) && ThreadOk(c, th) && !th.pc.Done?
    requires !th.pc.FirstDraw? && !th.pc.Encrypt? && !th.pc.Chain? && !th.pc.Enqueue? && !th.pc.Dequeue?
    ensures CtxOk(Act(c, th, ch).ctx)
  {
    hide NextIv, Chained;
  }

  lemma CtxAct(c: Ctx, th: Thread, ch: Choice)
    requires CtxOk(c) && ThreadOk(c, th) && !th.pc.Done?
    ensures CtxOk(Act(c, th, ch).ctx)
  {
    hide CtxOk, ThreadOk, ActTail, ActFirst, ActPostpone, ActDequeue, ActSched, ActTake;
    if th.pc.FirstDraw? { CtxFirst(c, th, ch); }
    else if th.pc.Encrypt? || th.pc.Chain? { CtxTail(c, th, ch); }
    else if th.pc.Enqueue? || th.pc.Dequeue? { CtxQueue(c, th, ch); }
    else { CtxOther(c, th, ch); }
  }

  lemma ThreadAct(c: Ctx, th: Thread, ch: Choice)
    requires CtxOk(c) && ThreadOk(c, th) && !th.pc.Done?
    requires th.pc.Owns() ==> c.inuse
    ensures ThreadOk(Act(c, th, ch).ctx, Act(c, th, ch).th)
  {
    hide NextIv, Chained;
  }

  /** Another thread's view survives the step of a thread, because only the holder of the bit touches what it relies on. */
  lemma OtherAct(c: Ctx, th: Thread, ch: Choice, other: Thread)
    requires CtxOk(c) && ThreadOk(c, th) && ThreadOk(c, other) && !th.pc.Done?
    requires !(th.pc.Owns() && other.pc.Owns())
    ensures ThreadOk(Act(c, th, ch).ctx, other)
  {
    hide NextIv, Chained;
  }

  ghost predicate ThreadsOk(s: State) {
    forall t :: 0 <= t < |s.threads| ==> ThreadOk(s.ctx, s.threads[t])
  }

  lemma ThreadsStep(s: State, t: nat, ch: Choice)
    requires OwnerOk(s) && CtxOk(s.ctx) && ThreadsOk(s) && t < |s.threads| && !s.threads[t].pc.Done?
    ensures ThreadsOk(Step(s, t, ch))
  {
    hide Pc.Owns, Act, CtxOk, ThreadOk;
    var th := s.threads[t];
    if th.pc.Owns() { Exclusive(s, t, t); }
    ThreadAct(s.ctx, th, ch);
    forall u | 0 <= u < |s.threads| ensures ThreadOk(Step(s, t, ch).ctx, Step(s, t, ch).threads[u]) {
      if u != t {
        if th.pc.Owns() && s.threads[u].pc.Owns() { Exclusive(s, t, u); }
        OtherAct(s.ctx, th, ch, s.threads[u]);
      }
    }
  }

  // ---------------------------------------------------------------- nothing is left behind

  predicate Unattended(c: Ctx) { c.queue != [] && !c.inuse && !c.hist.stranded }

  /** While requests are queued, somebody holds the bit or is about to look again, unless a failed first call released it
      last. */
  ghost predicate WakeOk(s: State) {
    Unattended(s.ctx) ==> exists t :: 0 <= t < |s.threads| && s.threads[t].pc.WillLook()
  }

  lemma WakeAct(c: Ctx, th: Thread, ch: Choice)
    requires !th.pc.Done? && ThreadOk(c, th) && Unattended(Act(c, th, ch).ctx)
    ensures Act(c, th, ch).th.pc.WillLook() || (Unattended(c) && !th.pc.WillLook())
  {
  }

  lemma WakeStep(s: State, t: nat, ch: Choice)
    requires ThreadsOk(s) && WakeOk(s) && t < |s.threads| && !s.threads[t].pc.Done?
    ensures WakeOk(Step(s, t, ch))
  {
    hide Pc.WillLook, Act, ThreadOk, Unattended;
    var s' := Step(s, t, ch);
    if Unattended(s'.ctx) {
      WakeAct(s.ctx, s.threads[t], ch);
      if s'.threads[t].pc.WillLook() {
      } else {
        var u :| 0 <= u < |s.threads| && s.threads[u].pc.WillLook();
        assert s'.threads[u].pc.WillLook();
      }
    }
  }

  // ---------------------------------------------------------------- every request once

  ghost function Carried(threads: seq<Thread>): multiset<nat> {
    if threads == [] then multiset{} else Carried(threads[..|threads| - 1]) + InHand(threads[|threads| - 1])
  }

  ghost function InHand(th: Thread): multiset<nat> { if th.pc.Carries() then multiset{th.req} else multiset{} }

  ghost function Encrypted(log: seq<Entry>): multiset<nat> {
    if log == [] then multiset{} else Encrypted(log[..|log| - 1]) + multiset{log[|log| - 1].req}
  }

  lemma {:induction false} CarriedUpdate(threads: seq<Thread>, t: nat, th: Thread)
    requires t < |threads|
    ensures InHand(threads[t]) <= Carried(threads) && Carried(threads[t := th]) == Carried(threads) - InHand(threads[t]) + InHand(th)
  {
    hide InHand;
    var n := |threads| - 1;
    if t == n {
      assert threads[t := th][..n] == threads[..n];
    } else {
      CarriedUpdate(threads[..n], t, th);
      assert threads[t := th][..n] == threads[..n][t := th];
    }
  }

  /** Where the requests of all calls are: with a thread, queued, encrypted or refused, each once. */
  ghost function Settled(c: Ctx): multiset<nat> { multiset(c.queue) + Encrypted(c.hist.log) + c.hist.refused }

  ghost predicate EachOnce(s: State) { s.ctx.hist.calls == Carried(s.threads) + Settled(s.ctx) }

  /** What a step does with the request of its thread, if it has one. */
  ghost predicate Goes(c: Ctx, th: Thread, a: After) {
    var h, h' := c.hist, a.ctx.hist;
    var same := a.ctx.queue == c.queue && h'.log == h.log && h'.refused == h.refused;
    if th.pc.Carries() == a.th.pc.Carries() then same && (th.pc.Carries() ==> a.th.req == th.req)
    else if a.th.pc.Carries() then [a.th.req] + a.ctx.queue == c.queue && h'.log == h.log && h'.refused == h.refused
    else
      || (a.ctx.queue == c.queue + [th.req] && h'.log == h.log && h'.refused == h.refused)
      || (a.ctx.queue == c.queue && (exists e: Entry :: e.req == th.req && h'.log == h.log + [e]) && h'.refused == h.refused)
      || (a.ctx.queue == c.queue && h'.log == h.log && h'.refused == h.refused + multiset{th.req})
  }

  lemma {:induction false} ActGoes(c: Ctx, th: Thread, ch: Choice)
    requires !th.pc.Done?
    ensures Act(c, th, ch).ctx.hist.calls == c.hist.calls && Goes(c, th, Act(c, th, ch))
  {
    hide ActFirst, ActTail, ActPostpone, ActSched, ActDequeue;
    match th.pc
    case FirstTake | FirstCheck | FirstSwitch | FirstDraw | FirstRelease => FirstGoes(c, th, ch);
    case Take | CheckQueue | Release =>
    case Give | Encrypt | Chain => TailGoes(c, th, ch);
    case Enqueue | TakePostponed | SetErr => PostponeGoes(c, th, ch);
    case Dequeue => DequeueGoes(c, th);
    case _ => SchedGoes(c, th);
  }

  lemma {:induction false} TailGoes(c: Ctx, th: Thread, ch: Choice)
    requires th.pc.Give? || th.pc.Encrypt? || th.pc.Chain?
    ensures ActTail(c, th, ch).ctx.hist.calls == c.hist.calls && Goes(c, th, ActTail(c, th, ch))
  {
    var a := ActTail(c, th, ch);
    if th.pc.Encrypt? && ch.err != 0 {
      assert a.ctx.hist.log == c.hist.log + [Entry(th.req, th.giv, ch.err, 0)];
    } else if th.pc.Chain? {
      assert a.ctx.hist.log == c.hist.log + [Entry(th.req, th.giv, 0, th.info)];
    }
  }

  lemma {:induction false} DequeueGoes(c: Ctx, th: Thread)
    requires th.pc.Dequeue?
    ensures ActDequeue(c, th).ctx.hist.calls == c.hist.calls && Goes(c, th, ActDequeue(c, th))
  {
    if c.queue != [] { assert c.queue == [c.queue[0]] + c.queue[1..]; }
  }

  lemma {:induction false} FirstGoes(c: Ctx, th: Thread, ch: Choice)
    requires th.pc.FirstTake? || th.pc.FirstCheck? || th.pc.FirstSwitch? || th.pc.FirstDraw? || th.pc.FirstRelease?
    ensures ActFirst(c, th, ch).ctx.hist.calls == c.hist.calls && Goes(c, th, ActFirst(c, th, ch))
  {
    assert th.pc.Carries();
  }

  lemma {:induction false} PostponeGoes(c: Ctx, th: Thread, ch: Choice)
    requires th.pc.Enqueue? || th.pc.TakePostponed? || th.pc.SetErr?
    ensures ActPostpone(c, th, ch).ctx.hist.calls == c.hist.calls && Goes(c, th, ActPostpone(c, th, ch))
  {
    assert th.pc.Carries() <==> th.pc.Enqueue?;
  }

  lemma {:induction false} SchedGoes(c: Ctx, th: Thread)
    requires th.pc.SchedErr? || th.pc.SchedCheck? || th.pc.SchedRelease? || th.pc.SchedRecheck? || th.pc.SchedTake? || th.pc.QueueWork?
    ensures ActSched(c, th).ctx.hist.calls == c.hist.calls && Goes(c, th, ActSched(c, th))
  {
    assert !th.pc.Carries() && !ActSched(c, th).th.pc.Carries();
  }

  lemma {:induction false} OnceAct(c: Ctx, th: Thread, a: After)
    requires Goes(c, th, a)
    ensures InHand(a.th) + Settled(a.ctx) == InHand(th) + Settled(c)
  {
    var x := multiset{if th.pc.Carries() then th.req else a.th.req};
    Moved(multiset(c.queue), Encrypted(c.hist.log), c.hist.refused, x);
    Moved(multiset(a.ctx.queue), Encrypted(c.hist.log), c.hist.refused, x);
    if e: Entry :| e.req == th.req && a.ctx.hist.log == c.hist.log + [e] { EncryptedMore(c.hist.log, e); }
  }

  lemma Moved(queue: multiset<nat>, log: multiset<nat>, refused: multiset<nat>, x: multiset<nat>)
    ensures queue + (log + x) + refused == x + (queue + log + refused)
    ensures (queue + x) + log + refused == x + (queue + log + refused) == (x + queue) + log + refused
    ensures queue + log + (refused + x) == x + (queue + log + refused)
    ensures forall m: multiset<nat> :: multiset{} + m == m
  {}

  lemma {:induction false} EncryptedMore(log: seq<Entry>, e: Entry)
    ensures Encrypted(log + [e]) == Encrypted(log) + multiset{e.req}
  {
    assert (log + [e])[..|log|] == log;
  }

  lemma {:induction false} OnceStep(s: State, t: nat, ch: Choice)
    requires EachOnce(s) && t < |s.threads| && !s.threads[t].pc.Done?
    ensures EachOnce(Step(s, t, ch))
  {
    hide Act, Goes, InHand, Settled;
    var th := s.threads[t];
    var a := Act(s.ctx, th, ch);
    ActGoes(s.ctx, th, ch);
    OnceAct(s.ctx, th, a);
    CarriedUpdate(s.threads, t, a.th);
    Exchange(Carried(s.threads), InHand(th), InHand(a.th), Settled(s.ctx), Settled(a.ctx));
  }

  lemma {:induction false} Exchange(all: multiset<nat>, x: multiset<nat>, y: multiset<nat>, u: multiset<nat>, v: multiset<nat>)
    requires x <= all && y + v == x + u
    ensures all - x + y + v == all + u
  {
    forall n ensures (all - x + y + v)[n] == (all + u)[n] { assert (y + v)[n] == (x + u)[n]; }
  }

  lemma {:induction false} CarriedMore(threads: seq<Thread>, th: Thread)
    ensures Carried(threads + [th]) == Carried(threads) + InHand(th)
  {
    assert (threads + [th])[..|threads|] == threads;
  }

  /** Every step brings a thread closer to its end, so that it takes at most twenty. */
  lemma {:induction false} StepsEnd(c: Ctx, th: Thread, ch: Choice)
    requires !th.pc.Done?
    ensures Act(c, th, ch).th.pc.Rank() < th.pc.Rank() <= 20
  {}

  // ---------------------------------------------------------------- true answers

  /** err is what became of req: the result of its encryption, or that it is queued, or that it was refused because the queue
      was full or the generator failed. */
  ghost predicate Explained(h: Hist, req: nat, err: int) {
    || (exists i :: 0 <= i < |h.log| && h.log[i].req == req && h.log[i].err == err)
    || (req in h.postponed && (err == -CryptoQueue.EINPROGRESS || err == -CryptoQueue.EBUSY))
    || (req in h.refused && (err == -CryptoQueue.EBUSY || err == -1))
  }

  ghost predicate AnswerOk(h: Hist, th: Thread) { th.hand && !th.pc.Carries() ==> Explained(h, th.req, th.err) }

  ghost predicate AnswersOk(s: State) { forall t :: 0 <= t < |s.threads| ==> AnswerOk(s.ctx.hist, s.threads[t]) }

  ghost predicate Grows(h: Hist, h': Hist) { h.log <= h'.log && h.postponed <= h'.postponed && h.refused <= h'.refused }

  lemma {:induction false} AnswerAct(c: Ctx, th: Thread, ch: Choice)
    requires !th.pc.Done? && ThreadOk(c, th) && AnswerOk(c.hist, th)
    ensures Grows(c.hist, Act(c, th, ch).ctx.hist) && AnswerOk(Act(c, th, ch).ctx.hist, Act(c, th, ch).th)
  {
    hide ActTail, ActFirst, ActPostpone, Explained;
    if th.pc.FirstTake? || th.pc.FirstCheck? || th.pc.FirstSwitch? || th.pc.FirstDraw? || th.pc.FirstRelease? {
      AnswerFirst(c, th, ch);
    } else if th.pc.Give? || th.pc.Encrypt? || th.pc.Chain? {
      AnswerTail(c, th, ch);
    } else if th.pc.Enqueue? || th.pc.TakePostponed? || th.pc.SetErr? {
      AnswerPostpone(c, th, ch);
    } else {
      GrowsSame(c.hist, Act(c, th, ch).ctx.hist);
    }
  }

  lemma {:induction false} AnswerFirst(c: Ctx, th: Thread, ch: Choice)
    requires th.pc.FirstTake? || th.pc.FirstCheck? || th.pc.FirstSwitch? || th.pc.FirstDraw? || th.pc.FirstRelease?
    requires ThreadOk(c, th)
    ensures Grows(c.hist, ActFirst(c, th, ch).ctx.hist) && AnswerOk(ActFirst(c, th, ch).ctx.hist, ActFirst(c, th, ch).th)
  {}

  lemma {:induction false} AnswerPostpone(c: Ctx, th: Thread, ch: Choice)
    requires th.pc.Enqueue? || th.pc.TakePostponed? || th.pc.SetErr?
    requires ThreadOk(c, th) && AnswerOk(c.hist, th)
    ensures Grows(c.hist, ActPostpone(c, th, ch).ctx.hist) && AnswerOk(ActPostpone(c, th, ch).ctx.hist, ActPostpone(c, th, ch).th)
  {
    if !th.pc.Enqueue? { GrowsSame(c.hist, ActPostpone(c, th, ch).ctx.hist); }
  }

  lemma GrowsSame(h: Hist, h': Hist)
    requires h.log == h'.log && h.postponed <= h'.postponed && h.refused <= h'.refused
    ensures Grows(h, h') && forall req, err :: Explained(h, req, err) ==> Explained(h', req, err)
  {}

  lemma {:induction false} AnswerTail(c: Ctx, th: Thread, ch: Choice)
    requires th.pc.Give? || th.pc.Encrypt? || th.pc.Chain?
    requires ThreadOk(c, th)
    ensures Grows(c.hist, ActTail(c, th, ch).ctx.hist) && AnswerOk(ActTail(c, th, ch).ctx.hist, ActTail(c, th, ch).th)
  {
    var a := ActTail(c, th, ch);
    if th.pc.Encrypt? && ch.err != 0 {
      assert a.ctx.hist.log[|c.hist.log|] == Entry(th.req, th.giv, ch.err, 0);
    } else if th.pc.Chain? {
      assert a.ctx.hist.log[|c.hist.log|] == Entry(th.req, th.giv, 0, th.info);
    }
  }

  lemma {:induction false} ExplainedGrows(h: Hist, h': Hist, req: nat, err: int)
    requires Grows(h, h') && Explained(h, req, err)
    ensures Explained(h', req, err)
  {
    if i :| 0 <= i < |h.log| && h.log[i].req == req && h.log[i].err == err { assert h'.log[i] == h.log[i]; }
  }

  lemma {:induction false} AnswersStep(s: State, t: nat, ch: Choice)
    requires ThreadsOk(s) && AnswersOk(s) && t < |s.threads| && !s.threads[t].pc.Done?
    ensures AnswersOk(Step(s, t, ch))
  {
    hide Act, Explained, Grows, ThreadOk, Pc.Carries;
    AnswerAct(s.ctx, s.threads[t], ch);
    var s' := Step(s, t, ch);
    forall u | 0 <= u < |s.threads| ensures AnswerOk(s'.ctx.hist, s'.threads[u]) {
      var th := s.threads[u];
      if u != t && th.hand && !th.pc.Carries() { ExplainedGrows(s.ctx.hist, s'.ctx.hist, th.req, th.err); }
    }
  }

  // ---------------------------------------------------------------- every run

  ghost predicate Inv(s: State) {
    OwnerOk(s) && CtxOk(s.ctx) && ThreadsOk(s) && WakeOk(s) && EachOnce(s) && AnswersOk(s)
  }

  lemma InvStep(s: State, t: nat, ch: Choice)
    requires Inv(s) && t < |s.threads| && !s.threads[t].pc.Done?
    ensures Inv(Step(s, t, ch))
  {
    OwnerStep(s, t, ch);
    assert CtxOk(Step(s, t, ch).ctx) by {
      hide CtxOk, Act, ThreadOk, OwnerOk, WakeOk;
      CtxAct(s.ctx, s.threads[t], ch);
    }
    ThreadsStep(s, t, ch);
    WakeStep(s, t, ch);
    OnceStep(s, t, ch);
    AnswersStep(s, t, ch);
    hide *;
    assert Inv(Step(s, t, ch));
  }

  lemma InvCall(s: State, req: nat)
    requires Inv(s)
    ensures Inv(Call(s, req))
  {
    hide NextIv, Chained, Owners, EachOnce, AnswersOk;
    OnceCall(s, req);
    AnswersCall(s, req);
    OwnersAppend(s.threads, NewCall(if s.ctx.first then FirstTake else Take, req));
    if Unattended(s.ctx) {
      var t :| 0 <= t < |s.threads| && s.threads[t].pc.WillLook();
      assert Call(s, req).threads[t].pc.WillLook();
    }
  }

  lemma AnswersCall(s: State, req: nat)
    requires AnswersOk(s)
    ensures AnswersOk(Call(s, req))
  {
    hide Explained;
    var s' := Call(s, req);
    forall t | 0 <= t < |s.threads| ensures AnswerOk(s'.ctx.hist, s'.threads[t]) {
      var th := s.threads[t];
      if th.hand && !th.pc.Carries() { ExplainedGrows(s.ctx.hist, s'.ctx.hist, th.req, th.err); }
    }
  }

  lemma OnceCall(s: State, req: nat)
    requires EachOnce(s)
    ensures EachOnce(Call(s, req))
  {
    hide Carried, Encrypted;
    CarriedMore(s.threads, NewCall(if s.ctx.first then FirstTake else Take, req));
  }

  lemma InvStartWork(s: State)
    requires Inv(s) && s.ctx.pending
    ensures Inv(StartWork(s))
  {
    hide NextIv, Chained, Owners, Carried, Encrypted, Explained;
    CarriedMore(s.threads, Thread(Dequeue, false, 0, 0, 0, 0, 0));
    OwnersAppend(s.threads, Thread(Dequeue, false, 0, 0, 0, 0, 0));
  }

  /** The invariant holds in every state of every run. */
  lemma {:induction false} InvRun(run: seq<State>, k: nat)
    requires IsRun(run) && k < |run|
    ensures Inv(run[k])
  {
    if k > 0 {
      InvRun(run, k - 1);
      var s, s' := run[k - 1], run[k - 1 + 1];
      assert Next(s, s');
      hide Inv, Step, Call, StartWork;
      if req :| s' == Call(s, req) {
        InvCall(s, req);
      } else if s.ctx.pending && s' == StartWork(s) {
        InvStartWork(s);
      } else {
        var t, ch :| 0 <= t < |s.threads| && !s.threads[t].pc.Done? && s' == Step(s, t, ch);
        InvStep(s, t, ch);
      }
    }
  }

  /** At no point of any run does queue_work find the work item pending, and no two threads hold the bit. */
  lemma NeverQueuedTwice(run: seq<State>, k: nat, t: nat)
    requires IsRun(run) && k < |run| && t < |run[k].threads|
    ensures run[k].threads[t].pc.QueueWork? ==> !run[k].ctx.pending
    ensures (forall u :: 0 <= u < |run[k].threads| && run[k].threads[t].pc.Owns() && run[k].threads[u].pc.Owns() ==>
               u == t)
  {
    hide Pc.Owns, IsRun, CtxOk, WakeOk, ThreadsOk, OwnerOk;
    InvRun(run, k);
    if run[k].threads[t].pc.QueueWork? { WorkNotPending(run[k], t); }
    forall u | 0 <= u < |run[k].threads| && run[k].threads[t].pc.Owns() && run[k].threads[u].pc.Owns() ensures u == t {
      Exclusive(run[k], t, u);
    }
  }

  /** In every run each request is given the IV left by the last successful one before it. */
  lemma GivenIvs(run: seq<State>, k: nat, i: nat)
    requires IsRun(run) && k < |run| && i < |run[k].ctx.hist.log|
    ensures var h := run[k].ctx.hist; h.log[i].giv == NextIv(h.log[..i], h.seed)
    ensures run[k].ctx.hist.postponed == run[k].ctx.hist.taken + run[k].ctx.queue
  {
    InvRun(run, k);
  }

  /** In every run each call's request is with a thread, queued, encrypted or refused, and only once in all of these. */
  lemma Conserved(run: seq<State>, k: nat)
    requires IsRun(run) && k < |run|
    ensures var c := run[k].ctx;
      c.hist.calls == Carried(run[k].threads) + multiset(c.queue) + Encrypted(c.hist.log) + c.hist.refused
  {
    InvRun(run, k);
    var c := run[k].ctx;
    assert Settled(c) == multiset(c.queue) + Encrypted(c.hist.log) + c.hist.refused;
  }

  /** In every run what a call returns, and what the work item reports, is what became of its own request. */
  lemma Answered(run: seq<State>, k: nat, t: nat)
    requires IsRun(run) && k < |run| && t < |run[k].threads| && run[k].threads[t].pc.Done? && run[k].threads[t].hand
    ensures Explained(run[k].ctx.hist, run[k].threads[t].req, run[k].threads[t].ret)
  {
    InvRun(run, k);
    assert ThreadOk(run[k].ctx, run[k].threads[t]) && AnswerOk(run[k].ctx.hist, run[k].threads[t]);
  }

  predicate Quiet(s: State) { forall t :: 0 <= t < |s.threads| ==> s.threads[t].pc.Done? }

  /** When no call and no work is in progress, the bit is clear unless the work item is pending, as async_chainiv_exit
      insists; and queued requests have the work item pending exactly if the bit was not last released by a first call whose
      generator had failed. */
  lemma QuietStates(run: seq<State>, k: nat)
    requires IsRun(run) && k < |run| && Quiet(run[k])
    ensures run[k].ctx.inuse == run[k].ctx.pending
    ensures run[k].ctx.queue != [] ==> (run[k].ctx.pending <==> !run[k].ctx.hist.stranded)
  {
    InvRun(run, k);
    NoOwners(run[k].threads);
  }

  ghost function Last(run: seq<State>): State
    requires IsRun(run)
  {
    run[|run| - 1]
  }

  lemma Begin() returns (run: seq<State>)
    ensures IsRun(run) && Last(run) == Init()
  {
    run := [Init()];
  }

  lemma Go(run: seq<State>, t: nat, ch: Choice) returns (run': seq<State>)
    requires IsRun(run) && t < |Last(run).threads| && !Last(run).threads[t].pc.Done?
    ensures IsRun(run') && Last(run') == Step(Last(run), t, ch)
  {
    hide Step;
    var s' := Step(Last(run), t, ch);
    assert Next(Last(run), s');
    run' := run + [s'];
    assert forall i :: 0 <= i < |run| - 1 ==> Next(run'[i], run'[i + 1]);
  }

  lemma Come(run: seq<State>, req: nat) returns (run': seq<State>)
    requires IsRun(run)
    ensures IsRun(run') && Last(run') == Call(Last(run), req)
  {
    hide Call;
    var s' := Call(Last(run), req);
    assert Next(Last(run), s');
    run' := run + [s'];
    assert forall i :: 0 <= i < |run| - 1 ==> Next(run'[i], run'[i + 1]);
  }

  /** Two callers arrive, the first holds the bit, and the second gives up on it and queues its request. */
  lemma SecondGivesUp() returns (run: seq<State>)
    ensures IsRun(run)
    ensures Last(run).threads == [NewCall(FirstSwitch, 1), Thread(Done, true, 2, -CryptoQueue.EINPROGRESS, -CryptoQueue.EINPROGRESS, 0, 0)]
    ensures var c := Last(run).ctx; c.queue == [2] && !c.pending
  {
    hide IsRun, Last;
    var ch := Choice(0, 0, false, false);
    run := Begin();
    run := Come(run, 1);
    run := Come(run, 2);
    run := Go(run, 0, ch);
    run := Go(run, 0, ch);
    run := Go(run, 1, ch);
    run := Go(run, 1, ch);
    run := Go(run, 1, ch);
    run := Go(run, 1, ch);
  }

  /** The exception in QuietStates is real: if the generator then fails, the queued request stays with nobody to run it... */
  lemma FailedSeedStrands() returns (run: seq<State>)
    ensures IsRun(run) && Quiet(Last(run))
    ensures Last(run).ctx.queue == [2] && !Last(run).ctx.pending && !Last(run).ctx.inuse
    ensures Last(run).ctx.hist.stranded && !Last(run).ctx.first
    ensures Last(run).threads == [Thread(Done, true, 1, -1, -1, 0, 0), Thread(Done, true, 2, -CryptoQueue.EINPROGRESS, -CryptoQueue.EINPROGRESS, 0, 0)]
  {
    hide IsRun, Last;
    var ch := Choice(0, 0, false, false);
    run := SecondGivesUp();
    run := Go(run, 0, ch);
    run := Go(run, 0, ch);
    run := Go(run, 0, ch);
  }

  /** n steps of a thread that nobody interferes with */
  function Solo(c: Ctx, th: Thread, ch: Choice, n: nat): After
    decreases n
  {
    if n == 0 || th.pc.Done? then After(c, th)
    else
      var a := Act(c, th, ch);
      Solo(a.ctx, a.th, ch, n - 1)
  }

  /** A thread is over after at most twenty steps of its own, wherever the others are. */
  lemma {:induction false} SoloEnds(c: Ctx, th: Thread, ch: Choice, n: nat)
    requires th.pc.Rank() <= n
    ensures Solo(c, th, ch, n).th.pc.Done?
    decreases n
  {
    hide Act, Pc.Rank;
    if !th.pc.Done? {
      StepsEnd(c, th, ch);
      SoloEnds(Act(c, th, ch).ctx, Act(c, th, ch).th, ch, n - 1);
    }
  }

  /** The call was served at once: it got iv, returned the result of its encryption, and left the IV that came out, unless that
      failed. */
  predicate Served(c: Ctx, iv: nat, req: nat, ch: Choice, a: After) {
    && a.th.pc.Done? && a.th.ret == ch.err && !a.ctx.inuse && !a.ctx.pending && a.ctx.queue == []
    && a.ctx.hist.log == c.hist.log + [Entry(req, iv, ch.err, if ch.err == 0 then ch.out else 0)]
    && a.ctx.iv == if ch.err == 0 then ch.out else iv
  }

  lemma {:induction false} LoneCall(c: Ctx, req: nat, ch: Choice)
    requires !c.inuse && c.queue == [] && !c.pending
    ensures Served(c, c.iv, req, ch, Solo(c, NewCall(Take, req), ch, 9))
  {
    hide Served;
    var a1 := Act(c, NewCall(Take, req), ch);
    var a2 := Act(a1.ctx, a1.th, ch);
    var a3 := Act(a2.ctx, a2.th, ch);
    assert Solo(a1.ctx, a1.th, ch, 8) == Solo(a3.ctx, a3.th, ch, 6);
    LoneTail(c, a3.ctx, a3.th, ch);
  }

  lemma {:induction false} LoneTail(c0: Ctx, c: Ctx, th: Thread, ch: Choice)
    requires th.pc == Encrypt && th.giv == c.iv && c.inuse && c.queue == [] && !c.pending && c0.hist.log == c.hist.log && c0.iv == c.iv
    ensures Served(c0, c.iv, th.req, ch, Solo(c, th, ch, 6))
  {
    var a1 := Act(c, th, ch);
    var a2 := if ch.err != 0 then a1 else Act(a1.ctx, a1.th, ch);
    LoneSched(a2.ctx, a2.th, ch, if ch.err != 0 then 5 else 4);
  }

  lemma {:induction false} LoneSched(c: Ctx, th: Thread, ch: Choice, n: nat)
    requires th.pc == SchedErr && c.queue == [] && n >= 4
    ensures var a := Solo(c, th, ch, n); a.th.pc == Done && a.th.ret == c.err && a.ctx == c.(inuse := false)
  {
    var a1 := Act(c, th, ch);
    var a2 := Act(a1.ctx, a1.th, ch);
    var a3 := Act(a2.ctx, a2.th, ch);
    var a4 := Act(a3.ctx, a3.th, ch);
    assert Solo(a1.ctx, a1.th, ch, n - 1) == Solo(a3.ctx, a3.th, ch, n - 3);
    assert Solo(a4.ctx, a4.th, ch, n - 4) == a4;
  }

  /** The first call, alone: it is served with the IV that the generator drew, or refused if that failed. */
  lemma {:induction false} FirstCall(c: Ctx, req: nat, ch: Choice)
    requires c.first && !c.inuse && c.queue == [] && !c.pending
    ensures var a := Solo(c, NewCall(FirstTake, req), ch, 14);
      if ch.rngOk then Served(c, ch.out, req, ch, a)
      else a.th.pc.Done? && a.th.ret == -1 && !a.ctx.inuse && a.ctx.hist.log == c.hist.log
  {
    hide Served;
    var a1 := Act(c, NewCall(FirstTake, req), ch);
    var a2 := Act(a1.ctx, a1.th, ch);
    var a3 := Act(a2.ctx, a2.th, ch);
    var a4 := Act(a3.ctx, a3.th, ch);
    var a5 := Act(a4.ctx, a4.th, ch);
    assert Solo(a1.ctx, a1.th, ch, 13) == Solo(a3.ctx, a3.th, ch, 11);
    assert Solo(a3.ctx, a3.th, ch, 11) == Solo(a5.ctx, a5.th, ch, 9);
    if ch.rngOk {
      LoneCall(a5.ctx, req, ch);
      SameServed(c, a5.ctx, ch.out, req, ch, Solo(a5.ctx, a5.th, ch, 9));
    }
  }

  lemma SameServed(c: Ctx, c': Ctx, iv: nat, req: nat, ch: Choice, a: After)
    requires Served(c', iv, req, ch, a) && c'.hist.log == c.hist.log
    ensures Served(c, iv, req, ch, a)
  {}

  /** Requests are queued, and the work item is pending to serve them. */
  predicate Woken(a: After) {
    a.th.pc.Done? && a.ctx.queue != [] && a.ctx.pending && a.ctx.inuse && !a.ctx.hist.stranded
  }

  lemma {:induction false} TakerWakes(c: Ctx, th: Thread, ch: Choice)
    requires th.pc == TakePostponed && !c.inuse && c.queue != []
    ensures Woken(Solo(c, th, ch, 5))
  {
    var a1 := Act(c, th, ch);
    var a2 := Act(a1.ctx, a1.th, ch);
    LookerWakes(a2.ctx, a2.th, ch);
    assert Solo(a1.ctx, a1.th, ch, 4) == Solo(a2.ctx, a2.th, ch, 3);
  }

  lemma {:induction false} LookerWakes(c: Ctx, th: Thread, ch: Choice)
    requires th.pc == SchedErr && c.queue != [] && c.inuse && !c.hist.stranded
    ensures Woken(Solo(c, th, ch, 3))
  {
    var a1 := Act(c, th, ch);
    var a2 := Act(a1.ctx, a1.th, ch);
    assert Solo(a1.ctx, a1.th, ch, 2) == Act(a2.ctx, a2.th, ch);
  }

  /** ... until the next caller comes: whoever calls with the bit free and requests queued leaves the work item pending. */
  lemma {:induction false} NextCallerServes(c: Ctx, req: nat, ch: Choice)
    requires !c.inuse && c.queue != []
    ensures Woken(Solo(c, NewCall(Take, req), ch, 9))
  {
    hide Woken;
    var a1 := Act(c, NewCall(Take, req), ch);
    var a2 := Act(a1.ctx, a1.th, ch);
    var a3 := Act(a2.ctx, a2.th, ch);
    var a4 := Act(a3.ctx, a3.th, ch);
    TakerWakes(a4.ctx, a4.th, ch);
    assert Solo(a2.ctx, a2.th, ch, 7) == Solo(a4.ctx, a4.th, ch, 5);
  }
}
