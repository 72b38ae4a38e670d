/**
  Barrier sequencing of block/blk-barrier.c on a request queue: starting a sequence, holding requests back, completing
  stages, and the parts of block/elevator.c and block/blk-core.c that queue, hand out, complete and requeue requests.

  The scheduler behind the queue is abstract: it hands over any of its requests, at any place that elv_dispatch_sort may
  choose. Everything happens under the queue lock, so a run is a sequence of calls.
 */
module Barrier {
  import opened Wrappers
  import opened BarrierSeq

  /** ordered, ordseq, orderr, and the epoch of orig_bar_rq. */
  datatype Seqn = Seqn(ordered: bv8, ordseq: bv8, orderr: int, orig: nat) {
    predicate Active() { ordseq != 0 }
    /** rq belongs to a stage after the current one. */
    predicate Early(rq: Rq) { ReqSeq(rq, orig) > CurSeq(ordseq) }
    /** rq belongs to a stage before the current one. */
    predicate Late(rq: Rq) { ReqSeq(rq, orig) < CurSeq(ordseq) }
  }

  /** queue_head, the requests inside the scheduler, and the requests handed to the driver. */
  datatype Lists = Lists(queue: seq<Rq>, elevator: seq<Rq>, flight: seq<Rq>)

  /** How many barriers have been started; which ones have ended, with what error; and the errors reported in the sequence
      that is in progress. */
  datatype Hist = Hist(base: nat, ended: seq<(nat, int)>, errs: seq<int>)

  /** The number of sectors of every barrier queued so far; the stages that have completed in the sequence in progress; and,
      for every barrier that has ended, the stages that completed for it. */
  datatype Log = Log(asked: seq<nat>, done: seq<Rq>, past: seq<seq<Rq>>)

  function CountFs(l: seq<Rq>): nat {
    if l == [] then 0 else CountFs(l[1..]) + if l[0].IsFs() then 1 else 0
  }

  function FirstError(errs: seq<int>): int {
    if errs == [] then 0 else if errs[0] != 0 then errs[0] else FirstError(errs[1..])
  }

  lemma {:induction false} FirstErrorAppend(errs: seq<int>, e: int)
    ensures FirstError(errs + [e]) == if FirstError(errs) != 0 then FirstError(errs) else e
  {
    if errs != [] {
      assert (errs + [e])[1..] == errs[1..] + [e];
      FirstErrorAppend(errs[1..], e);
    }
  }

  // ---------------------------------------------------------------- the sequence

  function StageBit(rq: Rq): bv8
    requires rq.IsStage()
  {
    match rq case PreFlushRq => PREFLUSH case BarRq => BAR case PostFlushRq => POSTFLUSH
  }

  function Copies(l: Lists, rq: Rq): nat {
    multiset(l.queue)[rq] + multiset(l.flight)[rq]
  }

  /** A stage is open exactly while its request is queued or in flight, once. */
  ghost predicate StagesOk(ordseq: bv8, l: Lists) {
    && (ordseq != 0 ==> InProgress(ordseq))
    && forall st: Rq :: st.IsStage() ==> Copies(l, st) == if ordseq != 0 && !Has(ordseq, StageBit(st)) then 1 else 0
  }

  /** No stage is in flight before the drain stage is complete, and tags need no draining. */
  ghost predicate TurnOk(sq: Seqn, l: Lists) {
    sq.Active() ==>
      && (Has(sq.ordered, BY_TAG) ==> Has(sq.ordseq, DRAIN))
      && (forall x :: x in l.flight && x.IsStage() ==> Has(sq.ordseq, DRAIN))
  }

  /** An empty barrier on a device that orders by tags, with no flush to carry the tag, is ordered by draining: that is all
      its sequence does. */
  predicate FallbackOk(next: bv8, sq: Seqn) {
    Falls(next, sq) ==> sq.ordseq == STARTED | PREFLUSH | BAR | POSTFLUSH
  }

  predicate Falls(next: bv8, sq: Seqn) { sq.Active() && Has(next, BY_TAG) && !Has(sq.ordered, BY_TAG) }

  /** Such a sequence is at its only stage, so that no request can be late for it. */
  lemma {:induction false} FallbackDrains(next: bv8, sq: Seqn, rq: Rq)
    requires FallbackOk(next, sq) && Falls(next, sq)
    ensures sq.Active() && CurSeq(sq.ordseq) == DRAIN && !sq.Late(rq) && !Completed(sq, DRAIN, 0).Active()
  {}

  lemma {:induction false} FallbackStart(next: bv8, sectors: nat, epoch: nat, busy: bool)
    requires IsMode(next)
    ensures FallbackOk(next, StartSeqn(next, sectors, epoch, busy))
  {
    hide Completed, CurSeq;
    StartSeqnBits(next, sectors, epoch, busy);
    var mode := StartMode(next, sectors);
    if Has(next, BY_TAG) && !Has(mode, BY_TAG) { OnlyDrains(mode, busy); }
  }

  /** It ends with the drain stage, and with no other one. */
  lemma {:induction false} FallbackCompletes(next: bv8, sq: Seqn, seqs: bv8, error: int)
    requires FallbackOk(next, sq) && sq.Active() && (seqs == DRAIN || CurSeq(sq.ordseq) != DRAIN)
    ensures FallbackOk(next, Completed(sq, seqs, error))
    ensures CurSeq(sq.ordseq) != DRAIN ==> !Falls(next, sq)
  {}

  lemma {:induction false} OnlyDrains(mode: bv8, busy: bool)
    requires mode == BY_DRAIN
    ensures var sq := Completed(Seqn(mode, STARTED, 0, 0), Skipped(mode, Has(mode, BY_DRAIN) && busy), 0);
      sq.Active() ==> sq.ordseq == STARTED | PREFLUSH | BAR | POSTFLUSH
  {}

  /** Every started barrier has ended, in order and once each, but for the one in progress, whose error so far is the first
      one reported. */
  ghost predicate HistOk(sq: Seqn, h: Hist) {
    && |h.ended| == (if sq.Active() then h.base - 1 else h.base)
    && (forall k :: 0 <= k < |h.ended| ==> h.ended[k].0 == k)
    && (sq.Active() ==> sq.orig == h.base - 1 && sq.orderr == FirstError(h.errs))
  }

  ghost predicate HasBarrier(queue: seq<Rq>, k: int) {
    exists i :: 0 <= i < |queue| && queue[i].Fs? && queue[i].barrier && queue[i].epoch == k
  }

  /** The barriers that wait in the queue are those not started yet, in the order in which they came. */
  ghost predicate BarriersOk(l: Lists, base: nat, cnt: nat) {
    && base <= cnt
    && (forall k :: base <= k < cnt ==> HasBarrier(l.queue, k))
    && (forall i :: 0 <= i < |l.queue| && l.queue[i].Fs? && l.queue[i].barrier ==> base <= l.queue[i].epoch < cnt)
    && (forall i, j :: 0 <= i < j < |l.queue| && l.queue[i].Fs? && l.queue[j].Fs? && l.queue[i].barrier && l.queue[j].barrier
          ==> l.queue[i].epoch < l.queue[j].epoch)
    && (forall x :: x in l.elevator ==> Plain(x))
    && (forall x :: x in l.flight && x.Fs? ==> !x.barrier)
  }

  // ---------------------------------------------------------------- which stages a barrier has

  /** What a barrier does on a device of each mode, behind the draining, if it has data; without data only the first flush is
      left. */
  function Plan(next: bv8, sectors: nat): seq<Rq> {
    if next in {0x71, 0x72} then if sectors > 0 then [PreFlushRq, BarRq, PostFlushRq] else [PreFlushRq]
    else if next in {0xB1, 0xB2} then if sectors > 0 then [PreFlushRq, BarRq] else [PreFlushRq]
    else if sectors > 0 then [BarRq] else []
  }

  /** The stages that start_ordered queues are those, and tags give way to draining for an empty barrier without a flush. */
  lemma {:induction false} PlanIs(next: bv8, sectors: nat)
    requires IsMode(next)
    ensures StageList(StartMode(next, sectors)) == Plan(next, sectors)
    ensures Has(StartMode(next, sectors), BY_TAG) <==> next in {0x72, 0xB2} || (next == 0x22 && sectors > 0)
    ensures Has(next, BY_DRAIN) <==> next in {0x21, 0x71, 0xB1}
  {}

  /** Every stage of a barrier that has ended has completed, once; on a draining device one after the other. */
  ghost predicate Settled(next: bv8, sectors: nat, done: seq<Rq>) {
    multiset(done) == multiset(Plan(next, sectors)) && (Has(next, BY_DRAIN) ==> done == Plan(next, sectors))
  }

  /** The stages that have completed are those whose bits are set; on a draining device they are the first ones. */
  ghost predicate Partial(next: bv8, sectors: nat, ordseq: bv8, done: seq<Rq>) {
    && (forall st: Rq :: st.IsStage() ==> multiset(done)[st] == if st in Plan(next, sectors) && Has(ordseq, StageBit(st)) then 1 else 0)
    && (forall st: Rq :: st.IsStage() && st !in Plan(next, sectors) ==> Has(ordseq, StageBit(st)))
    && (forall x :: x in done ==> x in Plan(next, sectors))
    && (Has(next, BY_DRAIN) ==> done <= Plan(next, sectors))
  }

  ghost predicate LogOk(next: bv8, sq: Seqn, h: Hist, g: Log, cnt: nat) {
    && |g.asked| == cnt && |g.past| == |h.ended| <= cnt
    && (next != 0 ==> forall k :: 0 <= k < |g.past| ==> Settled(next, g.asked[k], g.past[k]))
    && (sq.Active() ==> |g.past| < cnt && Partial(next, g.asked[|g.past|], sq.ordseq, g.done))
  }

  /** The barriers in the queue have the sectors they were queued with. */
  ghost predicate AskedOk(queue: seq<Rq>, asked: seq<nat>) {
    forall x :: x in queue && x.Fs? && x.barrier ==> x.epoch < |asked| && x.sectors == asked[x.epoch]
  }

  /** The log when a stage, if any, has completed, and perhaps the sequence with it. */
  function Noted(g: Log, st: seq<Rq>, over: bool): Log {
    if over then Log(g.asked, [], g.past + [g.done + st]) else g.(done := g.done + st)
  }

  lemma {:induction false} PlanStages(next: bv8, sectors: nat)
    ensures forall x :: x in Plan(next, sectors) ==> x.IsStage()
    ensures forall st :: multiset(Plan(next, sectors))[st] == if st in Plan(next, sectors) then 1 else 0
  {}

  /** With every bit set, every stage has completed. */
  lemma {:induction false} AllDone(next: bv8, sectors: nat, ordseq: bv8, done: seq<Rq>)
    requires Partial(next, sectors, ordseq, done) && Has(ordseq, PREFLUSH) && Has(ordseq, BAR) && Has(ordseq, POSTFLUSH)
    ensures Settled(next, sectors, done)
  {
    PlanStages(next, sectors);
    hide Plan, Has;
    var p := Plan(next, sectors);
    forall x ensures multiset(done)[x] == multiset(p)[x] {
      if !x.IsStage() { assert x !in p && x !in done; }
    }
    assert multiset(done) == multiset(p);
    assert |multiset(done)| == |done| && |multiset(p)| == |p|;
    if done <= p { assert done == p[..|done|]; }
  }

  /** The next stage of the plan is the current one. */
  lemma {:induction false} NextOfPlan(next: bv8, sectors: nat, ordseq: bv8, done: seq<Rq>, st: Rq)
    requires Partial(next, sectors, ordseq, done) && done <= Plan(next, sectors)
    requires st.IsStage() && StageBit(st) == CurSeq(ordseq) && InProgress(ordseq)
    ensures done + [st] <= Plan(next, sectors)
  {
    PlanStages(next, sectors);
    PlanOrder(next, sectors);
    CurIsFirstOpen(ordseq);
    hide Plan, CurSeq;
    var p := Plan(next, sectors);
    assert st in p && st !in multiset(done);
    var i :| 0 <= i < |p| && p[i] == st;
    forall j | 0 <= j < i ensures p[j] in done {
      assert p[j] in p && Has(ordseq, StageBit(p[j]));
      assert p[j] in multiset(done);
    }
    Extends(done, p, i);
  }

  lemma {:induction false} PlanOrder(next: bv8, sectors: nat)
    ensures var p := Plan(next, sectors);
      forall i, j :: 0 <= i < j < |p| ==> p[i].IsStage() && p[j].IsStage() && p[i] != p[j] && StageBit(p[i]) < StageBit(p[j])
  {
    var p := Plan(next, sectors);
    assert |p| <= 3 && (|p| > 1 ==> p[0] == PreFlushRq && p[1] == BarRq) && (|p| > 2 ==> p[2] == PostFlushRq);
    forall i, j | 0 <= i < j < |p| ensures p[i].IsStage() && p[j].IsStage() && p[i] != p[j] && StageBit(p[i]) < StageBit(p[j]) {
      if j == 1 { assert i == 0; } else { assert j == 2 && i in {0, 1}; }
    }
  }

  lemma {:induction false} Extends(done: seq<Rq>, p: seq<Rq>, i: nat)
    requires done <= p && i < |p| && p[i] !in done && (forall j :: 0 <= j < i ==> p[j] in done)
    requires forall j, k :: 0 <= j < k < |p| ==> p[j] != p[k]
    ensures done + [p[i]] <= p
  {
    assert |done| <= i;
    forall k | 0 <= k < |done| ensures done[k] != p[|done|] { assert done[k] == p[k]; }
    assert p[|done|] !in done;
    assert |done| == i;
  }

  lemma {:induction false} PartialStage(next: bv8, sectors: nat, ordseq: bv8, done: seq<Rq>, st: Rq)
    requires Partial(next, sectors, ordseq, done) && InProgress(ordseq) && st.IsStage() && !Has(ordseq, StageBit(st))
    requires Has(next, BY_DRAIN) ==> StageBit(st) == CurSeq(ordseq)
    ensures Partial(next, sectors, ordseq | StageBit(st), done + [st])
  {
    CompleteBits(ordseq, StageBit(st));
    if Has(next, BY_DRAIN) { NextOfPlan(next, sectors, ordseq, done, st); }
    hide Plan;
    forall x: Rq | x.IsStage()
      ensures multiset(done + [st])[x] == if x in Plan(next, sectors) && Has(ordseq | StageBit(st), StageBit(x)) then 1 else 0
    {
      assert x != st ==> StageBit(x) != StageBit(st);
    }
  }

  lemma {:induction false} PartialDrain(next: bv8, sectors: nat, ordseq: bv8, done: seq<Rq>)
    requires Partial(next, sectors, ordseq, done) && Has(ordseq, STARTED) && ordseq < DONE
    ensures Partial(next, sectors, ordseq | DRAIN, done + [])
  {
    CompleteBits(ordseq, DRAIN);
    assert done + [] == done;
  }

  /** A completion keeps the log in order. */
  lemma {:induction false} LogCompletes(next: bv8, sq: Seqn, h: Hist, g: Log, cnt: nat, seqs: bv8, error: int, st: seq<Rq>)
    requires LogOk(next, sq, h, g, cnt) && sq.Active() && InProgress(sq.ordseq) && seqs < DONE
    requires Partial(next, g.asked[|g.past|], sq.ordseq | seqs, g.done + st)
    ensures var sq' := Completed(sq, seqs, error); LogOk(next, sq', Recorded(sq, h, seqs, error), Noted(g, st, !sq'.Active()), cnt)
  {
    hide Partial, Settled, CurSeq, Has;
    CompletedProgress(sq, seqs, error);
    CompleteBits(sq.ordseq, seqs);
    DoneMeans(sq.ordseq | seqs);
    if !Completed(sq, seqs, error).Active() { AllDone(next, g.asked[|g.past|], sq.ordseq | seqs, g.done + st); }
  }

  lemma {:induction false} LogStage(next: bv8, sq: Seqn, h: Hist, g: Log, cnt: nat, error: int, st: Rq)
    requires LogOk(next, sq, h, g, cnt) && sq.Active() && InProgress(sq.ordseq) && st.IsStage() && !Has(sq.ordseq, StageBit(st))
    requires Has(next, BY_DRAIN) ==> StageBit(st) == CurSeq(sq.ordseq)
    ensures var sq' := Completed(sq, StageBit(st), error);
      LogOk(next, sq', Recorded(sq, h, StageBit(st), error), Noted(g, [st], !sq'.Active()), cnt)
  {
    hide Partial, Settled, Completed, CurSeq;
    PartialStage(next, g.asked[|g.past|], sq.ordseq, g.done, st);
    LogCompletes(next, sq, h, g, cnt, StageBit(st), error, [st]);
  }

  lemma {:induction false} LogDrain(next: bv8, sq: Seqn, h: Hist, g: Log, cnt: nat)
    requires LogOk(next, sq, h, g, cnt) && sq.Active() && InProgress(sq.ordseq)
    ensures var sq' := Completed(sq, DRAIN, 0); LogOk(next, sq', Recorded(sq, h, DRAIN, 0), Noted(g, [], !sq'.Active()), cnt)
  {
    hide Partial, Settled, Completed, CurSeq;
    PartialDrain(next, g.asked[|g.past|], sq.ordseq, g.done);
    LogCompletes(next, sq, h, g, cnt, DRAIN, 0, []);
  }

  /** A sequence starts with nothing done; its skipped stages are those that are not planned. */
  lemma {:induction false} PartialStart(next: bv8, sectors: nat, wait: bool)
    requires IsMode(next)
    ensures var mode := StartMode(next, sectors); Partial(next, sectors, STARTED | Skipped(mode, wait), [])
  {
    hide Plan, Has, StageList, StartMode, Skipped, Partial, IsMode;
    var mode := StartMode(next, sectors);
    PlanIs(next, sectors);
    SkippedBits(mode, wait);
    NothingDone(next, sectors, mode, STARTED | Skipped(mode, wait));
  }

  lemma {:induction false} NothingDone(next: bv8, sectors: nat, mode: bv8, ordseq: bv8)
    requires StageList(mode) == Plan(next, sectors)
    requires Has(ordseq, PREFLUSH) <==> !Has(mode, DO_PREFLUSH)
    requires Has(ordseq, BAR) <==> !Has(mode, DO_BAR)
    requires Has(ordseq, POSTFLUSH) <==> !Has(mode, DO_POSTFLUSH)
    ensures Partial(next, sectors, ordseq, [])
  {
    hide Plan, Has, StageList;
    StageListCounts(mode);
    assert forall st: Rq :: st in StageList(mode) <==> st in multiset(StageList(mode));
  }

  lemma {:induction false} SkippedBits(mode: bv8, wait: bool)
    ensures Has(STARTED | Skipped(mode, wait), PREFLUSH) <==> !Has(mode, DO_PREFLUSH)
    ensures Has(STARTED | Skipped(mode, wait), BAR) <==> !Has(mode, DO_BAR)
    ensures Has(STARTED | Skipped(mode, wait), POSTFLUSH) <==> !Has(mode, DO_POSTFLUSH)
  {}

  lemma {:induction false} PlanBits(next: bv8, sectors: nat, l: Lists)
    requires IsMode(next) && StagesOk(0, l) && l.queue != []
    ensures var q := Plan(next, sectors) + l.queue[1..];
      && (BarRq in q <==> sectors > 0)
      && (PreFlushRq in q <==> Has(next, DO_PREFLUSH))
      && (PostFlushRq in q <==> sectors > 0 && Has(next, DO_POSTFLUSH))
    ensures Has(StartMode(next, sectors), BY_TAG) <==> Has(next, BY_TAG) && (sectors > 0 || Has(next, DO_PREFLUSH))
  {
    forall x | x in l.queue[1..] ensures !x.IsStage() { NoStage(l, x); }
  }

  lemma {:induction false} LogStart(next: bv8, sq: Seqn, h: Hist, g: Log, cnt: nat, queue: seq<Rq>, rq: Rq, wait: bool)
    requires IsMode(next) && LogOk(next, sq, h, g, cnt) && !sq.Active() && HistOk(sq, h) && AskedOk(queue, g.asked)
    requires rq in queue && rq.Fs? && rq.barrier && rq.epoch == h.base < cnt
    ensures var mode := StartMode(next, rq.sectors); var sq0 := Seqn(mode, STARTED, 0, rq.epoch);
      var sq' := Completed(sq0, Skipped(mode, wait), 0);
      LogOk(next, sq', Recorded(sq0, Hist(h.base + 1, h.ended, []), Skipped(mode, wait), 0), Noted(g.(done := []), [], !sq'.Active()), cnt)
  {
    hide Partial, Settled, CurSeq, Has, Skipped, StartMode;
    var mode := StartMode(next, rq.sectors);
    var sq0, k := Seqn(mode, STARTED, 0, rq.epoch), Skipped(mode, wait);
    StartedBits(mode, wait);
    StartedHas();
    PartialStart(next, rq.sectors, wait);
    CompletedProgress(sq0, k, 0);
    CompleteBits(STARTED, k);
    DoneMeans(STARTED | k);
    if !Completed(sq0, k, 0).Active() { AllDone(next, rq.sectors, STARTED | k, []); }
    LogBegins(next, sq0, k, h, g, cnt);
  }

  lemma {:induction false} LogBegins(next: bv8, sq0: Seqn, k: bv8, h: Hist, g: Log, cnt: nat)
    requires |g.asked| == cnt && |g.past| == |h.ended| < cnt
    requires next != 0 ==> forall i :: 0 <= i < |g.past| ==> Settled(next, g.asked[i], g.past[i])
    requires var sq' := Completed(sq0, k, 0); if sq'.Active() then Partial(next, g.asked[|g.past|], sq'.ordseq, []) else Settled(next, g.asked[|g.past|], [])
    ensures var sq' := Completed(sq0, k, 0);
      LogOk(next, sq', Recorded(sq0, Hist(h.base + 1, h.ended, []), k, 0), Noted(g.(done := []), [], !sq'.Active()), cnt)
  {
    hide Partial, Settled, CurSeq;
    var none: seq<Rq> := [];
    assert none + [] == none;
  }

  lemma StartedHas()
    ensures Has(STARTED, STARTED) && STARTED < DONE
  {}

  lemma {:induction false} LogRefused(sq: Seqn, h: Hist, g: Log, cnt: nat)
    requires LogOk(0, sq, h, g, cnt) && !sq.Active() && HistOk(sq, h) && h.base < cnt
    ensures forall e: (nat, int) :: LogOk(0, sq, Hist(h.base + 1, h.ended + [e], h.errs), g.(past := g.past + [[]]), cnt)
  {}

  lemma {:induction false} LogNew(next: bv8, sq: Seqn, h: Hist, g: Log, cnt: nat, queue: seq<Rq>, rq: Rq)
    requires LogOk(next, sq, h, g, cnt) && AskedOk(queue, g.asked) && rq.Fs? && rq.epoch == cnt
    ensures var g' := g.(asked := g.asked + [rq.sectors]);
      LogOk(next, sq, h, g', cnt + 1) && AskedOk(queue + [rq], g'.asked)
  {
    hide Partial, Settled;
  }

  lemma {:induction false} AskedStart(queue: seq<Rq>, asked: seq<nat>, front: seq<Rq>)
    requires AskedOk(queue, asked) && queue != [] && forall x :: x in front ==> !x.Fs?
    ensures AskedOk(front + queue[1..], asked)
  {}

  lemma {:induction false} AskedInsert(queue: seq<Rq>, asked: seq<nat>, p: nat, x: Rq)
    requires AskedOk(queue, asked) && p <= |queue| && !(x.Fs? && x.barrier)
    ensures AskedOk(InsertAt(queue, p, x), asked)
  {
    hide InsertAt, HasBarrier;
    InsertAtContents(queue, p, x);
  }

  lemma {:induction false} AskedInsertAny(queue: seq<Rq>, asked: seq<nat>, x: Rq)
    requires AskedOk(queue, asked) && !(x.Fs? && x.barrier)
    ensures forall p :: 0 <= p <= |queue| ==> AskedOk(InsertAt(queue, p, x), asked)
  {
    hide InsertAt, AskedOk;
    forall p | 0 <= p <= |queue| ensures AskedOk(InsertAt(queue, p, x), asked) { AskedInsert(queue, asked, p, x); }
  }

  lemma {:induction false} FlightPlain(l: Lists, base: nat, cnt: nat, k: nat)
    requires BarriersOk(l, base, cnt) && k < |l.flight|
    ensures !(l.flight[k].Fs? && l.flight[k].barrier)
  {
    hide HasBarrier;
    assert l.flight[k] in l.flight;
  }

  // ---------------------------------------------------------------- a device ordered by draining

  /** The place of a request in the order that barriers impose; base is one more than the epoch of the sequence in
      progress. */
  function Key(rq: Rq, base: nat): int {
    match rq
    case Fs(_, e, barrier, _) => 10 * e + if barrier then 5 else 0
    case PreFlushRq => 10 * base - 4
    case BarRq => 10 * base - 3
    case PostFlushRq => 10 * base - 2
    case Special(_) => 0
  }

  predicate Plain(rq: Rq) { rq.Fs? && !rq.barrier }

  /** The queue respects the barriers: apart from special requests it is ordered by key. */
  ghost predicate QueueOrdered(queue: seq<Rq>, base: nat) {
    forall i, j :: 0 <= i < j < |queue| && !queue[i].Special? && !queue[j].Special? ==>
      Key(queue[i], base) <= Key(queue[j], base) && (Key(queue[i], base) == Key(queue[j], base) ==> Plain(queue[i]) && Plain(queue[j]))
  }

  /** The epoch whose requests may be in flight. */
  function Epoch(sq: Seqn, base: nat): int {
    if sq.Active() then base - 1 else base
  }

  /** What every queued request satisfies; low is the least epoch that may be queued. */
  predicate QueuedOk(rq: Rq, low: int, base: nat, cnt: nat) {
    rq.Fs? ==> if rq.barrier then base <= rq.epoch < cnt else low <= rq.epoch <= cnt
  }

  ghost predicate EpochsOk(sq: Seqn, l: Lists, cnt: nat, base: nat) {
    var e := Epoch(sq, base);
    && base <= cnt
    && (sq.Active() ==> base >= 1 && !Has(sq.ordered, BY_TAG))
    && QueueOrdered(l.queue, base)
    && (forall x :: x in l.queue ==> QueuedOk(x, if Drained(sq) then base else e, base, cnt))
    && (forall k :: base <= k < cnt ==> HasBarrier(l.queue, k))
    && (forall x :: x in l.elevator ==> Plain(x) && x.epoch == cnt)
    && (forall x :: x in l.flight && x.Fs? ==> !x.barrier && x.epoch == e && !Drained(sq))
    && (forall x :: x in l.flight && x.IsStage() ==> StageBit(x) == CurSeq(sq.ordseq))
  }

  /** While a sequence drains there is something to drain: in flight, or at the head of the queue. */
  ghost predicate LiveOk(sq: Seqn, l: Lists) {
    sq.Active() && CurSeq(sq.ordseq) == DRAIN ==> l.flight != [] || (l.queue != [] && ReqSeq(l.queue[0], sq.orig) == DRAIN)
  }

  /** A sequence never stalls: if the request at the head has to wait for its turn, something is in flight. */
  lemma {:induction false} NeverStalls(sq: Seqn, l: Lists, cnt: nat, base: nat)
    requires EpochsOk(sq, l, cnt, base) && StagesOk(sq.ordseq, l) && LiveOk(sq, l) && sq.Active() && sq.orig == base - 1
    requires l.queue != [] && sq.Early(l.queue[0])
    ensures l.flight != []
  {
    hide HasBarrier;
    CurIsFirstOpen(sq.ordseq);
    if CurSeq(sq.ordseq) != DRAIN {
      var st := StageOf(CurSeq(sq.ordseq));
      assert Copies(l, st) == 1;
      if st !in multiset(l.flight) {
        assert st in multiset(l.queue);
        var i :| 0 <= i < |l.queue| && l.queue[i] == st;
        HeadIsCurrent(sq, l, cnt, base, i);
        assert false;
      }
    }
  }

  /** The request of a stage. */
  function StageOf(bit: bv8): (rq: Rq)
    requires bit in {PREFLUSH, BAR, POSTFLUSH}
    ensures rq.IsStage() && StageBit(rq) == bit
  {
    if bit == PREFLUSH then PreFlushRq else if bit == BAR then BarRq else PostFlushRq
  }

  /** Nothing is queued before the request of the current stage, but for special requests. */
  lemma {:induction false} HeadIsCurrent(sq: Seqn, l: Lists, cnt: nat, base: nat, i: nat)
    requires EpochsOk(sq, l, cnt, base) && StagesOk(sq.ordseq, l) && sq.Active() && sq.orig == base - 1
    requires i < |l.queue| && l.queue[i].IsStage() && StageBit(l.queue[i]) == CurSeq(sq.ordseq)
    ensures !sq.Early(l.queue[0])
  {
    hide HasBarrier;
    CurIsFirstOpen(sq.ordseq);
    var h := l.queue[0];
    assert h in l.queue;
    if i > 0 && !h.Special? {
      assert Key(h, base) <= Key(l.queue[i], base);
      if h.IsStage() { QueueStagesActive(sq, l); }
    }
  }

  lemma {:induction false} LiveStart(next: bv8, rq: Rq, l: Lists, l': Lists)
    requires IsMode(next) && rq.Fs? && l'.flight == l.flight
    ensures LiveOk(StartSeqn(next, rq.sectors, rq.epoch, CountFs(l.flight) != 0), l')
  {}

  /** The scheduler may pass plain requests of its own epoch only. */
  lemma {:induction false} LiveDispatch(sq: Seqn, l: Lists, cnt: nat, p: nat, x: Rq)
    requires LiveOk(sq, l) && p <= |l.queue| && Plain(x) && x.epoch == cnt
    requires forall i :: p <= i < |l.queue| ==> Plain(l.queue[i]) && l.queue[i].epoch == cnt
    ensures forall e :: LiveOk(sq, Lists(InsertAt(l.queue, p, x), e, l.flight))
  {}

  lemma {:induction false} LiveSpecial(sq: Seqn, l: Lists, p: nat, x: Rq)
    requires LiveOk(sq, l) && p <= |l.queue| && x.Special?
    ensures LiveOk(sq, l.(queue := InsertAt(l.queue, p, x)))
  {}

  lemma {:induction false} LiveAppend(sq: Seqn, l: Lists, x: Rq)
    requires LiveOk(sq, l)
    ensures LiveOk(sq, l.(queue := l.queue + [x]))
  {}

  /** What comes back from the driver while it drains is the next to go out again. */
  lemma {:induction false} LiveRequeue(sq: Seqn, l: Lists, cnt: nat, base: nat, k: nat, p: nat)
    requires EpochsOk(sq, l, cnt, base) && TurnOk(sq, l) && k < |l.flight| && p <= |l.queue| && (sq.Active() ==> sq.orig == base - 1)
    requires sq.Active() ==> forall i :: 0 <= i < p ==> ReqSeq(l.flight[k], sq.orig) > ReqSeq(l.queue[i], sq.orig)
    ensures LiveOk(sq, l.(queue := InsertAt(l.queue, p, l.flight[k]), flight := RemoveAt(l.flight, k)))
  {}

  lemma {:induction false} LiveDrained(sq: Seqn, l: Lists)
    requires sq.Active() && InProgress(sq.ordseq)
    ensures LiveOk(Completed(sq, DRAIN, 0), l)
  {}

  lemma {:induction false} LiveChecked(sq: Seqn, l: Lists)
    requires !(sq.Active() && CountFs(l.flight) == 0 && CurSeq(sq.ordseq) == DRAIN && (l.queue == [] || ReqSeq(l.queue[0], sq.orig) > DRAIN))
    ensures LiveOk(sq, l)
  {}

  lemma {:induction false} LiveAfterStage(sq: Seqn, l: Lists, bit: bv8, error: int)
    requires sq.Active() && InProgress(sq.ordseq) && CurSeq(sq.ordseq) != DRAIN && bit < DONE
    ensures LiveOk(Completed(sq, bit, error), l)
  {}

  /** A sequence is in progress and its drain stage is complete. */
  predicate Drained(sq: Seqn) { sq.Active() && Has(sq.ordseq, DRAIN) }

  // ---------------------------------------------------------------- completing stages

  /** blk_ordered_complete_seq */
  function Completed(sq: Seqn, seqs: bv8, error: int): Seqn {
    var sq1 := sq.(orderr := if error != 0 && sq.orderr == 0 then error else sq.orderr, ordseq := sq.ordseq | seqs);
    if CurSeq(sq1.ordseq) != DONE then sq1 else sq1.(ordseq := 0)
  }

  /** The original barrier is ended when the last stage completes. */
  function Recorded(sq: Seqn, h: Hist, seqs: bv8, error: int): Hist {
    var sq' := Completed(sq, seqs, error);
    Hist(h.base, if sq'.Active() then h.ended else h.ended + [(sq.orig, sq'.orderr)], h.errs + [error])
  }

  lemma CompletedHist(sq: Seqn, h: Hist, seqs: bv8, error: int)
    requires sq.Active() && InProgress(sq.ordseq) && seqs < DONE && HistOk(sq, h)
    ensures HistOk(Completed(sq, seqs, error), Recorded(sq, h, seqs, error))
    ensures Completed(sq, seqs, error).orderr == FirstError(h.errs + [error])
  {
    FirstErrorAppend(h.errs, error);
    CompleteBits(sq.ordseq, seqs);
  }

  lemma CompletedProgress(sq: Seqn, seqs: bv8, error: int)
    requires Has(sq.ordseq, STARTED) && sq.ordseq < DONE && seqs < DONE
    ensures var sq' := Completed(sq, seqs, error);
      && (sq'.Active() ==> InProgress(sq'.ordseq) && sq'.ordseq == sq.ordseq | seqs)
      && (!sq'.Active() <==> CurSeq(sq.ordseq | seqs) == DONE)
      && sq'.ordered == sq.ordered && sq'.orig == sq.orig
  {}

  function RemoveAt(l: seq<Rq>, k: nat): seq<Rq>
    requires k < |l|
  {
    l[..k] + l[k + 1..]
  }

  lemma RemoveAtContents(l: seq<Rq>, k: nat)
    requires k < |l|
    ensures multiset(RemoveAt(l, k)) == multiset(l) - multiset{l[k]}
    ensures CountFs(RemoveAt(l, k)) == CountFs(l) - if l[k].IsFs() then 1 else 0
    ensures forall x :: x in RemoveAt(l, k) ==> x in l
  {
    assert l == l[..k] + ([l[k]] + l[k + 1..]);
    CountFsConcat(l[..k], [l[k]] + l[k + 1..]);
    CountFsConcat([l[k]], l[k + 1..]);
    CountFsConcat(l[..k], l[k + 1..]);
    assert CountFs([l[k]]) == if l[k].IsFs() then 1 else 0;
  }

  lemma {:induction false} CountFsConcat(a: seq<Rq>, b: seq<Rq>)
    ensures CountFs(a + b) == CountFs(a) + CountFs(b)
  {
    if a == [] {
      assert a + b == b;
    } else {
      assert (a + b)[1..] == a[1..] + b;
      CountFsConcat(a[1..], b);
    }
  }

  ghost predicate NoFs(l: seq<Rq>) { forall x :: x in l ==> !x.IsFs() }

  lemma {:induction false} NoFsInFlight(l: seq<Rq>)
    ensures CountFs(l) == 0 <==> NoFs(l)
  {
    if l != [] {
      NoFsInFlight(l[1..]);
      assert forall x :: x in l <==> x == l[0] || x in l[1..];
    }
  }

  /** Completing the stage whose request leaves the driver. */
  lemma StageCompletes(sq: Seqn, l: Lists, k: nat, error: int)
    requires StagesOk(sq.ordseq, l) && k < |l.flight| && l.flight[k].IsStage()
    ensures sq.Active() && sq.ordseq & StageBit(l.flight[k]) == 0 && !Has(sq.ordseq, StageBit(l.flight[k]))
    ensures StagesOk(Completed(sq, StageBit(l.flight[k]), error).ordseq, l.(flight := RemoveAt(l.flight, k)))
  {
    var st := l.flight[k];
    assert st in multiset(l.flight);
    assert Copies(l, st) >= 1;
    RemoveAtContents(l.flight, k);
    CompleteBits(sq.ordseq, StageBit(st));
    CompletedProgress(sq, StageBit(st), error);
    DoneMeans(sq.ordseq | StageBit(st));
  }

  /** Completing the drain stage leaves the other stages alone. */
  lemma DrainCompletes(sq: Seqn, l: Lists)
    requires StagesOk(sq.ordseq, l) && sq.Active() && CurSeq(sq.ordseq) == DRAIN
    ensures sq.ordseq & DRAIN == 0
    ensures StagesOk(Completed(sq, DRAIN, 0).ordseq, l)
  {}

  // ---------------------------------------------------------------- the queue keeps its order

  lemma PopOrdered(queue: seq<Rq>, base: nat)
    requires QueueOrdered(queue, base) && queue != []
    ensures QueueOrdered(queue[1..], base)
  {}

  function InsertAt(queue: seq<Rq>, p: nat, x: Rq): seq<Rq>
    requires p <= |queue|
  {
    queue[..p] + [x] + queue[p..]
  }

  lemma InsertAtContents(queue: seq<Rq>, p: nat, x: Rq)
    requires p <= |queue|
    ensures multiset(InsertAt(queue, p, x)) == multiset(queue) + multiset{x}
    ensures forall y :: y in InsertAt(queue, p, x) <==> y in queue || y == x
    ensures forall k :: HasBarrier(queue, k) ==> HasBarrier(InsertAt(queue, p, x), k)
  {
    var q' := InsertAt(queue, p, x);
    assert queue == queue[..p] + queue[p..];
    assert q'[p] == x;
    assert forall i :: 0 <= i < |queue| ==> queue[i] == q'[if i < p then i else i + 1];
    forall y | y in queue ensures y in q' {
      var i :| 0 <= i < |queue| && queue[i] == y;
      assert q'[if i < p then i else i + 1] == y;
    }
    forall k | HasBarrier(queue, k) ensures HasBarrier(q', k) {
      var i :| 0 <= i < |queue| && queue[i].Fs? && queue[i].barrier && queue[i].epoch == k;
      assert q'[if i < p then i else i + 1] == queue[i];
    }
  }

  /** A request fits at place p if what is before has no larger key and what is behind no smaller one. */
  ghost predicate Fits(queue: seq<Rq>, p: nat, x: Rq, base: nat) {
    && p <= |queue|
    && (forall i :: 0 <= i < p && !queue[i].Special? ==>
         Key(queue[i], base) <= Key(x, base) && (Key(queue[i], base) == Key(x, base) ==> Plain(queue[i]) && Plain(x)))
    && (forall i :: p <= i < |queue| && !queue[i].Special? ==>
         Key(x, base) <= Key(queue[i], base) && (Key(queue[i], base) == Key(x, base) ==> Plain(queue[i]) && Plain(x)))
  }

  lemma InsertOrdered(queue: seq<Rq>, p: nat, x: Rq, base: nat)
    requires QueueOrdered(queue, base) && p <= |queue| && (x.Special? || Fits(queue, p, x, base))
    ensures QueueOrdered(InsertAt(queue, p, x), base)
  {}

  /** The first request of the queue that is subject to ordering: with the barriers between, its epoch is the least. */
  lemma HeadEpoch(sq: Seqn, l: Lists, cnt: nat, base: nat)
    requires EpochsOk(sq, l, cnt, base) && l.queue != [] && l.queue[0].Fs?
    ensures l.queue[0].epoch == base || (l.queue[0].epoch == base - 1 && sq.Active() && !Drained(sq) && !l.queue[0].barrier)
  {
    var h := l.queue[0];
    assert h in l.queue;
    if h.epoch > base {
      assert HasBarrier(l.queue, base);
    }
  }

  /** The queue loses its head, which goes to the driver; the head may be a request the sequence lets through. */
  lemma HandOver(sq: Seqn, l: Lists, cnt: nat, base: nat)
    requires EpochsOk(sq, l, cnt, base) && StagesOk(sq.ordseq, l) && l.queue != [] && !(l.queue[0].Fs? && l.queue[0].barrier)
    requires l.queue[0].Fs? ==> l.queue[0].epoch == Epoch(sq, base) && !Drained(sq)
    requires l.queue[0].IsStage() ==> StageBit(l.queue[0]) == CurSeq(sq.ordseq)
    ensures EpochsOk(sq, l.(queue := l.queue[1..], flight := l.flight + [l.queue[0]]), cnt, base)
  {
    PopOrdered(l.queue, base);
    assert forall x :: x in l.queue[1..] ==> x in l.queue;
    forall k | base <= k < cnt ensures HasBarrier(l.queue[1..], k) {
      assert HasBarrier(l.queue, k);
      var i :| 0 <= i < |l.queue| && l.queue[i].Fs? && l.queue[i].barrier && l.queue[i].epoch == k;
      assert i != 0;
      assert l.queue[1..][i - 1] == l.queue[i];
    }
  }

  lemma StagesHandOver(ordseq: bv8, l: Lists)
    requires StagesOk(ordseq, l) && l.queue != []
    ensures StagesOk(ordseq, l.(queue := l.queue[1..], flight := l.flight + [l.queue[0]]))
  {
    assert l.queue == [l.queue[0]] + l.queue[1..];
  }

  /** Adding to the queue a request that fits. */
  lemma QueueGains(sq: Seqn, l: Lists, cnt: nat, base: nat, p: nat, x: Rq)
    requires EpochsOk(sq, l, cnt, base) && p <= |l.queue|
    requires QueuedOk(x, if Drained(sq) then base else Epoch(sq, base), base, cnt)
    requires x.Special? || Fits(l.queue, p, x, base)
    ensures EpochsOk(sq, l.(queue := InsertAt(l.queue, p, x)), cnt, base)
  {
    hide QueueOrdered, Fits, InsertAt, HasBarrier, QueuedOk;
    InsertOrdered(l.queue, p, x, base);
    InsertAtContents(l.queue, p, x);
  }

  lemma StagesQueueGains(ordseq: bv8, l: Lists, p: nat, x: Rq)
    requires StagesOk(ordseq, l) && p <= |l.queue| && !x.IsStage()
    ensures StagesOk(ordseq, l.(queue := InsertAt(l.queue, p, x)))
  {
    InsertAtContents(l.queue, p, x);
  }

  lemma FlightLoses(sq: Seqn, l: Lists, cnt: nat, base: nat, k: nat)
    requires EpochsOk(sq, l, cnt, base) && k < |l.flight|
    ensures EpochsOk(sq, l.(flight := RemoveAt(l.flight, k)), cnt, base)
  {}

  lemma StagesFlightLoses(ordseq: bv8, l: Lists, k: nat)
    requires StagesOk(ordseq, l) && k < |l.flight| && !l.flight[k].IsStage()
    ensures StagesOk(ordseq, l.(flight := RemoveAt(l.flight, k)))
  {
    RemoveAtContents(l.flight, k);
  }

  /** The drain stage completes: nothing queued before the barrier is left, neither in flight nor queued. */
  lemma EpochsDrained(sq: Seqn, l: Lists, cnt: nat, base: nat)
    requires EpochsOk(sq, l, cnt, base) && sq.Active() && StagesOk(sq.ordseq, l) && CurSeq(sq.ordseq) == DRAIN
    requires CountFs(l.flight) == 0 && (l.queue == [] || ReqSeq(l.queue[0], base - 1) > DRAIN)
    ensures EpochsOk(Completed(sq, DRAIN, 0), l, cnt, base)
  {
    NoFsInFlight(l.flight);
    CompletedProgress(sq, DRAIN, 0);
    CompleteBits(sq.ordseq, DRAIN);
    forall x | x in l.queue ensures QueuedOk(x, base, base, cnt) {
      var i :| 0 <= i < |l.queue| && l.queue[i] == x;
      var h := l.queue[0];
      assert h in l.queue;
      if h.Fs? { HeadEpoch(sq, l, cnt, base); }
    }
    forall x | x in l.flight ensures !x.IsStage() {}
  }

  /** The stage in flight completes; at the end of the sequence the next epoch may start. */
  lemma EpochsStage(sq: Seqn, l: Lists, cnt: nat, base: nat, k: nat, error: int)
    requires EpochsOk(sq, l, cnt, base) && StagesOk(sq.ordseq, l) && k < |l.flight| && l.flight[k].IsStage()
    ensures EpochsOk(Completed(sq, StageBit(l.flight[k]), error), l.(flight := RemoveAt(l.flight, k)), cnt, base)
    ensures StageBit(l.flight[k]) == CurSeq(sq.ordseq)
  {
    var st := l.flight[k];
    StageCompletes(sq, l, k, error);
    CompletedProgress(sq, StageBit(st), error);
    CompleteBits(sq.ordseq, StageBit(st));
    CurIsFirstOpen(sq.ordseq);
    RemoveAtContents(l.flight, k);
    var f := RemoveAt(l.flight, k);
    assert Copies(l, st) == 1;
    assert st !in multiset(f);
    forall x | x in f ensures !x.IsStage() {
      assert x in l.flight && x != st;
    }
  }

  // ---------------------------------------------------------------- starting a sequence

  /** The mode of a sequence: an empty barrier needs no barrier request and no postflush, and cannot be ordered by tag
      without a flush to carry the tag. */
  function StartMode(next: bv8, sectors: nat): bv8 {
    if sectors == 0 then
      var m := next & !(DO_BAR | DO_POSTFLUSH);
      if Has(m, BY_TAG) && !Has(m, DO_PREFLUSH) then (m & !BY_TAG) | BY_DRAIN else m
    else next
  }

  /** The stage requests that start_ordered puts at the head of the queue. */
  function StageList(mode: bv8): seq<Rq> {
    Only(PreFlushRq, Has(mode, DO_PREFLUSH)) + Only(BarRq, Has(mode, DO_BAR)) + Only(PostFlushRq, Has(mode, DO_POSTFLUSH))
  }

  function Only(rq: Rq, b: bool): seq<Rq> { if b then [rq] else [] }

  /** The stages that are skipped; wait tells whether the queue has to drain first. */
  function Skipped(mode: bv8, wait: bool): bv8 {
    (if Has(mode, DO_POSTFLUSH) then 0 else POSTFLUSH)
    | (if Has(mode, DO_BAR) then 0 else BAR)
    | (if Has(mode, DO_PREFLUSH) then 0 else PREFLUSH)
    | (if wait then 0 else DRAIN)
  }

  lemma StartModeBits(next: bv8, sectors: nat)
    requires IsMode(next)
    ensures var m := StartMode(next, sectors);
      && (Has(m, BY_DRAIN) <==> !Has(m, BY_TAG))
      && (Has(next, BY_DRAIN) ==> Has(m, BY_DRAIN))
      && (Has(m, BY_TAG) ==> Has(m, DO_PREFLUSH) || Has(m, DO_BAR))
  {}

  /** The state of the sequence right after start_ordered. */
  function StartSeqn(next: bv8, sectors: nat, epoch: nat, busy: bool): Seqn {
    var mode := StartMode(next, sectors);
    Completed(Seqn(mode, STARTED, 0, epoch), Skipped(mode, Has(mode, BY_DRAIN) && busy), 0)
  }

  lemma StartSeqnBits(next: bv8, sectors: nat, epoch: nat, busy: bool)
    requires IsMode(next)
    ensures var mode := StartMode(next, sectors); var sq := StartSeqn(next, sectors, epoch, busy);
      && sq.ordered == mode && sq.orig == epoch && sq.orderr == 0
      && (sq.Active() ==> InProgress(sq.ordseq))
      && (sq.Active() ==> (Has(sq.ordseq, DRAIN) <==> !(Has(mode, BY_DRAIN) && busy)))
      && (sq.Active() ==> (Has(sq.ordseq, PREFLUSH) <==> !Has(mode, DO_PREFLUSH)))
      && (sq.Active() ==> (Has(sq.ordseq, BAR) <==> !Has(mode, DO_BAR)))
      && (sq.Active() ==> (Has(sq.ordseq, POSTFLUSH) <==> !Has(mode, DO_POSTFLUSH)))
      && (!sq.Active() <==> StageList(mode) == [] && !(Has(mode, BY_DRAIN) && busy))
  {}

  lemma StagesStart(next: bv8, l: Lists, busy: bool)
    requires IsMode(next) && StagesOk(0, l) && l.queue != [] && l.queue[0].Fs?
    ensures var h := l.queue[0]; var mode := StartMode(next, h.sectors);
      StagesOk(StartSeqn(next, h.sectors, h.epoch, busy).ordseq, l.(queue := StageList(mode) + l.queue[1..]))
  {
    hide Completed, StartMode, StartSeqn, CurSeq, Has, StageList;
    var h := l.queue[0];
    var mode := StartMode(next, h.sectors);
    StartSeqnBits(next, h.sectors, h.epoch, busy);
    StageListCounts(mode);
    assert l.queue == [h] + l.queue[1..];
    var l' := l.(queue := StageList(mode) + l.queue[1..]);
    forall st: Rq | st.IsStage()
      ensures Copies(l', st) == multiset(StageList(mode))[st]
    {
      assert Copies(l, st) == 0;
    }
  }

  lemma {:induction false} StageListCounts(mode: bv8)
    ensures multiset(StageList(mode))[PreFlushRq] == if Has(mode, DO_PREFLUSH) then 1 else 0
    ensures multiset(StageList(mode))[BarRq] == if Has(mode, DO_BAR) then 1 else 0
    ensures multiset(StageList(mode))[PostFlushRq] == if Has(mode, DO_POSTFLUSH) then 1 else 0
    ensures StageList(mode) == [] <==> !Has(mode, DO_PREFLUSH) && !Has(mode, DO_BAR) && !Has(mode, DO_POSTFLUSH)
    ensures forall x :: x in StageList(mode) ==> x.IsStage()
  {
    hide Has, Only;
    var pre, bar, post := Has(mode, DO_PREFLUSH), Has(mode, DO_BAR), Has(mode, DO_POSTFLUSH);
    ThreeCounts(pre, bar, post, PreFlushRq);
    ThreeCounts(pre, bar, post, BarRq);
    ThreeCounts(pre, bar, post, PostFlushRq);
    ThreeStages(pre, bar, post);
  }

  lemma {:induction false} ThreeCounts(pre: bool, bar: bool, post: bool, x: Rq)
    ensures multiset(Only(PreFlushRq, pre) + Only(BarRq, bar) + Only(PostFlushRq, post))[x]
         == (if pre && x == PreFlushRq then 1 else 0) + (if bar && x == BarRq then 1 else 0) + (if post && x == PostFlushRq then 1 else 0)
  {
    hide Only;
    OnlyCounts(PreFlushRq, pre, x);
    OnlyCounts(BarRq, bar, x);
    OnlyCounts(PostFlushRq, post, x);
  }

  lemma {:induction false} OnlyCounts(rq: Rq, b: bool, x: Rq)
    ensures multiset(Only(rq, b))[x] == if b && x == rq then 1 else 0
  {}

  lemma {:induction false} ThreeStages(pre: bool, bar: bool, post: bool)
    ensures var s := Only(PreFlushRq, pre) + Only(BarRq, bar) + Only(PostFlushRq, post);
      (s == [] <==> !pre && !bar && !post) && forall x :: x in s ==> x.IsStage()
  {}

  lemma EpochsStart(next: bv8, sq: Seqn, l: Lists, cnt: nat, base: nat)
    requires IsMode(next) && Has(next, BY_DRAIN) && !sq.Active() && StagesOk(0, l) && EpochsOk(sq, l, cnt, base)
    requires l.queue != [] && l.queue[0].Fs? && l.queue[0].barrier
    ensures l.queue[0].epoch == base
    ensures var h := l.queue[0]; var mode := StartMode(next, h.sectors);
      EpochsOk(StartSeqn(next, h.sectors, h.epoch, CountFs(l.flight) != 0), l.(queue := StageList(mode) + l.queue[1..]), cnt, base + 1)
  {
    hide Completed, StartMode, StartSeqn, CurSeq, Has, StageList, QueueOrdered, HasBarrier;
    HeadEpoch(sq, l, cnt, base);
    var h := l.queue[0];
    var mode := StartMode(next, h.sectors);
    StartModeBits(next, h.sectors);
    StartSeqnBits(next, h.sectors, h.epoch, CountFs(l.flight) != 0);
    NoFsInFlight(l.flight);
    QueueStart(sq, l, cnt, base, mode);
    forall x | x in l.flight ensures !x.IsStage() { NoStage(l, x); }
  }

  lemma NoStage(l: Lists, x: Rq)
    requires StagesOk(0, l) && (x in l.flight || x in l.queue)
    ensures !x.IsStage()
  {}

  lemma QueueStart(sq: Seqn, l: Lists, cnt: nat, base: nat, mode: bv8)
    requires !sq.Active() && StagesOk(0, l) && EpochsOk(sq, l, cnt, base)
    requires l.queue != [] && l.queue[0].Fs? && l.queue[0].barrier && l.queue[0].epoch == base
    ensures var q' := StageList(mode) + l.queue[1..];
      && QueueOrdered(q', base + 1) && base + 1 <= cnt
      && (forall k :: base + 1 <= k < cnt ==> HasBarrier(q', k))
      && (forall x :: x in q' ==> QueuedOk(x, base + 1, base + 1, cnt))
  {
    hide Has, StageList;
    var rest, q' := l.queue[1..], StageList(mode) + l.queue[1..];
    forall i | 0 < i < |l.queue| ensures !l.queue[i].IsStage() && (l.queue[i].Fs? ==> l.queue[i].epoch > base) {
      NoStage(l, l.queue[i]);
    }
    StartOrdered(l.queue, mode, base);
    StageListCounts(mode);
    forall k | base + 1 <= k < cnt ensures HasBarrier(q', k) {
      assert HasBarrier(l.queue, k);
      var i :| 0 <= i < |l.queue| && l.queue[i].Fs? && l.queue[i].barrier && l.queue[i].epoch == k;
      assert q'[|StageList(mode)| + i - 1] == l.queue[i];
    }
    forall x | x in q' ensures QueuedOk(x, base + 1, base + 1, cnt) {
      if x in rest {
        var i :| 0 <= i < |rest| && rest[i] == x;
        assert l.queue[i + 1] == x && x in l.queue;
      }
    }
    assert l.queue[0] in l.queue;
  }

  lemma StartOrdered(queue: seq<Rq>, mode: bv8, base: nat)
    requires QueueOrdered(queue, base) && queue != []
    requires forall i :: 0 < i < |queue| ==> !queue[i].IsStage() && (queue[i].Fs? ==> queue[i].epoch > base)
    ensures QueueOrdered(StageList(mode) + queue[1..], base + 1)
  {
    var st, rest := StageList(mode), queue[1..];
    var q' := st + rest;
    forall i, j | 0 <= i < j < |q'| && !q'[i].Special? && !q'[j].Special?
      ensures Key(q'[i], base + 1) <= Key(q'[j], base + 1)
      ensures Key(q'[i], base + 1) == Key(q'[j], base + 1) ==> Plain(q'[i]) && Plain(q'[j])
    {
      if i >= |st| {
        assert q'[i] == queue[i - |st| + 1] && q'[j] == queue[j - |st| + 1];
      } else if j >= |st| {
        assert q'[j] == queue[j - |st| + 1];
      }
    }
  }

  // ---------------------------------------------------------------- the barriers in the queue

  lemma BarriersPop(l: Lists, base: nat, cnt: nat)
    requires BarriersOk(l, base, cnt) && l.queue != [] && !(l.queue[0].Fs? && l.queue[0].barrier)
    ensures BarriersOk(l.(queue := l.queue[1..], flight := l.flight + [l.queue[0]]), base, cnt)
  {
    forall k | base <= k < cnt ensures HasBarrier(l.queue[1..], k) {
      assert HasBarrier(l.queue, k);
      var i :| 0 <= i < |l.queue| && l.queue[i].Fs? && l.queue[i].barrier && l.queue[i].epoch == k;
      assert i != 0;
      assert l.queue[1..][i - 1] == l.queue[i];
    }
  }

  /** The barrier at the head is the oldest one that has not been started. */
  lemma BarrierAtHead(l: Lists, base: nat, cnt: nat, front: seq<Rq>)
    requires BarriersOk(l, base, cnt) && l.queue != [] && l.queue[0].Fs? && l.queue[0].barrier
    requires forall x :: x in front ==> !x.Fs?
    ensures l.queue[0].epoch == base && base < cnt
    ensures BarriersOk(l.(queue := front + l.queue[1..]), base + 1, cnt)
  {
    assert HasBarrier(l.queue, base);
    var q' := front + l.queue[1..];
    forall k | base + 1 <= k < cnt ensures HasBarrier(q', k) {
      assert HasBarrier(l.queue, k);
      var i :| 0 <= i < |l.queue| && l.queue[i].Fs? && l.queue[i].barrier && l.queue[i].epoch == k;
      assert i != 0;
      assert q'[|front| + i - 1] == l.queue[i];
    }
    forall i | 0 <= i < |front| ensures !q'[i].Fs? { assert q'[i] in front; }
    forall i | |front| <= i < |q'| ensures q'[i] == l.queue[i - |front| + 1] {}
  }

  lemma BarriersGain(l: Lists, base: nat, cnt: nat, p: nat, x: Rq)
    requires BarriersOk(l, base, cnt) && p <= |l.queue| && !(x.Fs? && x.barrier)
    ensures BarriersOk(l.(queue := InsertAt(l.queue, p, x)), base, cnt)
  {
    hide HasBarrier;
    InsertAtContents(l.queue, p, x);
    var q' := InsertAt(l.queue, p, x);
    forall i | 0 <= i < |q'| ensures q'[i] == if i < p then l.queue[i] else if i == p then x else l.queue[i - 1] {}
  }

  /** A new barrier goes to the tail and opens the next epoch. */
  lemma BarriersNew(l: Lists, base: nat, cnt: nat, x: Rq)
    requires BarriersOk(l, base, cnt) && x.Fs? && x.barrier && x.epoch == cnt
    ensures BarriersOk(l.(queue := l.queue + [x]), base, cnt + 1)
  {
    var q' := l.queue + [x];
    forall k | base <= k < cnt + 1 ensures HasBarrier(q', k) {
      if k < cnt {
        assert HasBarrier(l.queue, k);
        var i :| 0 <= i < |l.queue| && l.queue[i].Fs? && l.queue[i].barrier && l.queue[i].epoch == k;
        assert q'[i] == l.queue[i];
      } else {
        assert q'[|l.queue|] == x;
      }
    }
  }

  lemma EpochsNew(sq: Seqn, l: Lists, cnt: nat, base: nat, x: Rq)
    requires EpochsOk(sq, l, cnt, base) && BarriersOk(l, base, cnt) && l.elevator == [] && x.Fs? && x.barrier && x.epoch == cnt
    ensures EpochsOk(sq, l.(queue := l.queue + [x]), cnt + 1, base)
  {
    hide HasBarrier;
    BarriersNew(l, base, cnt, x);
    var q' := l.queue + [x];
    forall i, j | 0 <= i < j < |q'| && !q'[i].Special? && !q'[j].Special?
      ensures Key(q'[i], base) <= Key(q'[j], base)
      ensures Key(q'[i], base) == Key(q'[j], base) ==> Plain(q'[i]) && Plain(q'[j])
    {
      assert q'[i] == l.queue[i] && q'[i] in l.queue;
    }
    forall y | y in q' ensures QueuedOk(y, if Drained(sq) then base else Epoch(sq, base), base, cnt + 1) {
      assert y in l.queue || y == x;
    }
  }

  // ---------------------------------------------------------------- the queue

  const EOPNOTSUPP := 95

  /** Everything that holds between two calls, but that something is left to drain. */
  ghost predicate SoundOk(next: bv8, sq: Seqn, l: Lists, inFlight: int, cnt: nat, h: Hist, g: Log) {
    && (next == 0 || IsMode(next)) && (next == 0 ==> !sq.Active())
    && StagesOk(sq.ordseq, l) && HistOk(sq, h) && BarriersOk(l, h.base, cnt)
    && inFlight == CountFs(l.flight) && TurnOk(sq, l)
    && FallbackOk(next, sq) && (Has(next, BY_DRAIN) ==> EpochsOk(sq, l, cnt, h.base))
    && LogOk(next, sq, h, g, cnt) && AskedOk(l.queue, g.asked)
  }

  /** What makes it right to hand out rq. A barrier itself never goes out. In a sequence ordered by draining only the current
      stage does, or a special request. And on a device ordered by draining a stage goes out only when every request queued
      before the barrier has completed, and nothing queued after it goes out before it has ended. */
  ghost predicate Safe(next: bv8, sq: Seqn, l: Lists, base: nat, rq: Rq) {
    && !(rq.Fs? && rq.barrier)
    && (sq.Active() && !Has(sq.ordered, BY_TAG) && !rq.Special? ==>
          !sq.Early(rq) && !sq.Late(rq))
    && (Has(next, BY_DRAIN) && rq.IsStage() ==>
          && (forall x :: (x in l.queue || x in l.elevator || x in l.flight) && x.Fs? ==> x.epoch > sq.orig)
          && (forall x :: x in l.flight ==> !x.IsStage()))
    && (Has(next, BY_DRAIN) && rq.Fs? ==> rq.epoch == Epoch(sq, base) && !Drained(sq))
  }

  /** A barrier is at the head and no sequence is in progress. */
  ghost predicate Ready(next: bv8, sq: Seqn, l: Lists, inFlight: int, cnt: nat, h: Hist, g: Log) {
    SoundOk(next, sq, l, inFlight, cnt, h, g) && !sq.Active() && next != 0 && l.queue != [] && l.queue[0].Fs? && l.queue[0].barrier
  }

  /** The sequence that start_ordered begins, and the one in which the skipped stages are complete. */
  function Begun(next: bv8, rq: Rq): Seqn
    requires rq.Fs?
  {
    Seqn(StartMode(next, rq.sectors), STARTED, 0, rq.epoch)
  }

  function WaitsFirst(next: bv8, rq: Rq, inFlight: int): bool
    requires rq.Fs?
  {
    Has(StartMode(next, rq.sectors), BY_DRAIN) && inFlight != 0
  }

  function FrontList(next: bv8, l: Lists): Lists
    requires l.queue != [] && l.queue[0].Fs?
  {
    l.(queue := StageList(StartMode(next, l.queue[0].sectors)) + l.queue[1..])
  }

  lemma {:induction false} PlanFor(next: bv8, sq: Seqn, l: Lists, inFlight: int, cnt: nat, h: Hist, g: Log)
    requires Ready(next, sq, l, inFlight, cnt, h, g)
    ensures var n := l.queue[0].sectors; var q := Plan(next, n) + l.queue[1..];
      && (BarRq in q <==> n > 0)
      && (PreFlushRq in q <==> Has(next, DO_PREFLUSH))
      && (PostFlushRq in q <==> n > 0 && Has(next, DO_POSTFLUSH))
      && (Has(StartMode(next, n), BY_TAG) <==> Has(next, BY_TAG) && (n > 0 || Has(next, DO_PREFLUSH)))
      && StageList(StartMode(next, n)) == Plan(next, n)
  {
    hide StagesOk, Plan, StageList, StartMode, Has, IsMode;
    PlanIs(next, l.queue[0].sectors);
    PlanBits(next, l.queue[0].sectors, l);
  }

  /** Starting a sequence keeps everything. */
  lemma {:induction false} StartKeeps(next: bv8, sq: Seqn, l: Lists, inFlight: int, cnt: nat, h: Hist, g: Log)
    requires Ready(next, sq, l, inFlight, cnt, h, g)
    ensures var rq := l.queue[0]; var sq0, skip := Begun(next, rq), Skipped(StartMode(next, rq.sectors), WaitsFirst(next, rq, inFlight));
      var sq' := Completed(sq0, skip, 0);
      && SoundOk(next, sq', FrontList(next, l), inFlight, cnt, Recorded(sq0, Hist(h.base + 1, h.ended, []), skip, 0),
                 Noted(g.(done := []), [], !sq'.Active()))
      && LiveOk(sq', FrontList(next, l))
      && sq0.Active() && InProgress(sq0.ordseq) && skip < DONE && HistOk(sq0, Hist(h.base + 1, h.ended, [])) && sq0.ordseq & skip == 0
  {
    hide LiveOk, LogOk, AskedOk, StagesOk, EpochsOk, BarriersOk, TurnOk, StartMode, Completed, Skipped, StageList, InProgress, FallbackOk;
    var rq, busy := l.queue[0], CountFs(l.flight) != 0;
    var mode := StartMode(next, rq.sectors);
    var sq0, l', wait := Begun(next, rq), FrontList(next, l), Has(mode, BY_DRAIN) && busy;
    StagesStart(next, l, busy);
    if Has(next, BY_DRAIN) { EpochsStart(next, sq, l, cnt, h.base); }
    StageListCounts(mode);
    BarrierAtHead(l, h.base, cnt, StageList(mode));
    FallbackStart(next, rq.sectors, rq.epoch, busy);
    StartedBits(mode, wait);
    TurnStart(next, l, rq, busy, l');
    LiveStart(next, rq, l, l');
    LogStart(next, sq, h, g, cnt, l.queue, rq, wait);
    AskedStart(l.queue, g.asked, StageList(mode));
    CompletedHist(sq0, Hist(h.base + 1, h.ended, []), Skipped(mode, wait), 0);
  }

  /** What start_ordered hands out is safe; if it hands out nothing, the barrier is over or something is in flight. */
  lemma {:induction false} StartSafe(next: bv8, sq: Seqn, l: Lists, inFlight: int, cnt: nat, h: Hist, g: Log)
    requires Ready(next, sq, l, inFlight, cnt, h, g)
    ensures var rq := l.queue[0]; var stages, wait := StageList(StartMode(next, rq.sectors)), WaitsFirst(next, rq, inFlight);
      var sq' := Completed(Begun(next, rq), Skipped(StartMode(next, rq.sectors), wait), 0);
      && (stages != [] && !wait ==> Safe(next, sq', FrontList(next, l), h.base + 1, stages[0]))
      && (!sq'.Active() <==> stages == [] && !wait)
      && (wait ==> l.flight != []) && (!wait && stages == [] ==> NoFs(l.flight))
      && sq'.ordered == StartMode(next, rq.sectors) && sq'.orderr == 0 && rq.epoch == h.base
  {
    hide LogOk, AskedOk, StagesOk, EpochsOk, BarriersOk, TurnOk, Seqn.Early, Seqn.Late, StartMode, Completed, Skipped, StageList;
    hide FallbackOk, HistOk, LiveOk, NoFs, Has;
    var rq, busy := l.queue[0], CountFs(l.flight) != 0;
    var mode := StartMode(next, rq.sectors);
    var sq' := StartSeqn(next, rq.sectors, rq.epoch, busy);
    StartSeqnBits(next, rq.sectors, rq.epoch, busy);
    StartModeBits(next, rq.sectors);
    StageListCounts(mode);
    NoFsInFlight(l.flight);
    BarrierAtHead(l, h.base, cnt, []);
    if StageList(mode) != [] && !(Has(mode, BY_DRAIN) && busy) {
      if Has(next, BY_DRAIN) { EpochsStart(next, sq, l, cnt, h.base); }
      FirstStage(next, l, cnt, h.base, sq, sq', FrontList(next, l));
    }
  }

  /** The end of a stage keeps everything. */
  lemma {:induction false} StageKeeps(next: bv8, sq: Seqn, l: Lists, inFlight: int, cnt: nat, h: Hist, g: Log, k: nat, error: int)
    requires SoundOk(next, sq, l, inFlight, cnt, h, g) && (Has(next, BY_DRAIN) ==> LiveOk(sq, l))
    requires k < |l.flight| && l.flight[k].IsStage()
    ensures sq.Active() && InProgress(sq.ordseq) && HistOk(sq, h) && StageBit(l.flight[k]) < DONE && !Falls(next, sq)
    ensures sq.ordseq & StageBit(l.flight[k]) == 0
    ensures var rq, l' := l.flight[k], l.(flight := RemoveAt(l.flight, k)); var sq', h' := Completed(sq, StageBit(rq), error), Recorded(sq, h, StageBit(rq), error);
      && SoundOk(next, sq', l', if rq.IsFs() then inFlight - 1 else inFlight, cnt, h', Noted(g, [rq], !sq'.Active()))
      && (Has(next, BY_DRAIN) ==> LiveOk(sq', l'))
      && h'.base == h.base && h'.ended == if sq'.Active() then h.ended else h.ended + [(sq.orig, FirstError(h'.errs))]
  {
    hide LiveOk, StagesOk, HistOk, BarriersOk, EpochsOk, Completed, TurnOk, InProgress, CurSeq, Recorded, CountFs, IsMode, FirstError, FallbackOk, Falls;
    hide LogOk, AskedOk, Has;
    var rq, l' := l.flight[k], l.(flight := RemoveAt(l.flight, k));
    RemoveAtContents(l.flight, k);
    FlightLosesBarriers(l, h.base, cnt, k);
    StageCompletes(sq, l, k, error);
    if Has(next, BY_DRAIN) { EpochsStage(sq, l, cnt, h.base, k, error); }
    TurnStage(sq, l, k, error);
    assert CurSeq(sq.ordseq) != DRAIN;
    FallbackCompletes(next, sq, StageBit(rq), error);
    LiveAfterStage(sq, l', StageBit(rq), error);
    EndedLength(sq, h, StageBit(rq), error);
    LogStage(next, sq, h, g, cnt, error, rq);
    CompletedHist(sq, h, StageBit(rq), error);
  }

  /** The mode of the sequence for a barrier with that many sectors. */
  method ModeFor(next: bv8, sectors: nat) returns (mode: bv8)
    ensures mode == StartMode(next, sectors)
  {
    mode := next;
    if sectors == 0 {
      mode := mode & !(DO_BAR | DO_POSTFLUSH);
      if Has(mode, BY_TAG) && !Has(mode, DO_PREFLUSH) {
        mode := mode & !BY_TAG;
        mode := mode | BY_DRAIN;
      }
    }
  }

  /** The flags of the barrier request, if there is one. */
  method MarkBar(mode: bv8, before: bool) returns (fua: bool)
    ensures fua == if Has(mode, DO_BAR) then Has(mode, DO_FUA) else before
  {
    fua := before;
    if Has(mode, DO_BAR) {
      fua := false;
      if Has(mode, DO_FUA) {
        fua := true;
      }
    }
  }

  /** The barrier request of a sequence in progress writes through exactly on a device of such a mode. */
  ghost predicate FuaOk(next: bv8, sq: Seqn, fua: bool) {
    sq.Active() && Has(sq.ordered, DO_BAR) ==> fua == Has(next, DO_FUA)
  }

  /** A barrier request writes through exactly on a device with a cache where no flush follows it. */
  lemma {:induction false} FuaMeans(next: bv8, sectors: nat)
    requires IsMode(next)
    ensures Has(StartMode(next, sectors), DO_BAR) <==> sectors > 0
    ensures Has(StartMode(next, sectors), DO_FUA) <==> Has(next, DO_FUA)
    ensures Has(next, DO_FUA) <==> Has(next, DO_PREFLUSH) && !Has(next, DO_POSTFLUSH)
  {}

  lemma FuaCompletes(next: bv8, sq: Seqn, seqs: bv8, error: int, fua: bool)
    requires FuaOk(next, sq, fua) && sq.Active()
    ensures FuaOk(next, Completed(sq, seqs, error), fua)
  {
    hide Has, CurSeq;
  }

  lemma FuaStarts(next: bv8, sectors: nat, epoch: nat, busy: bool, fua: bool)
    requires next != 0 && (Has(StartMode(next, sectors), DO_BAR) ==> fua == Has(next, DO_FUA))
    ensures FuaOk(next, StartSeqn(next, sectors, epoch, busy), fua)
  {
    hide Has, CurSeq, StartMode, Skipped;
  }

  lemma FuaFor(next: bv8, sectors: nat, sq: Seqn, l: Lists, inFlight: int, cnt: nat, h: Hist, g: Log)
    requires SoundOk(next, sq, l, inFlight, cnt, h, g) && next != 0
    ensures Has(StartMode(next, sectors), DO_BAR) <==> sectors > 0
    ensures Has(StartMode(next, sectors), DO_FUA) <==> Has(next, DO_FUA)
  {
    FuaMeans(next, sectors);
  }

  /** The stage requests are put at the head one by one, the last one first; skip collects the stages that there are none
      for. */
  method QueueStages(mode: bv8, rest: seq<Rq>, busy: bool) returns (queue: seq<Rq>, skip: bv8, r: Option<Rq>)
    ensures queue == StageList(mode) + rest
    ensures skip == Skipped(mode, Has(mode, BY_DRAIN) && busy)
    ensures r == if (Has(mode, BY_DRAIN) && busy) || StageList(mode) == [] then None else Some(StageList(mode)[0])
  {
    hide Has;
    queue, skip, r := rest, 0, None;
    if Has(mode, DO_POSTFLUSH) {
      queue, r := [PostFlushRq] + queue, Some(PostFlushRq);
    } else {
      skip := skip | POSTFLUSH;
    }
    if Has(mode, DO_BAR) {
      queue, r := [BarRq] + queue, Some(BarRq);
    } else {
      skip := skip | BAR;
    }
    if Has(mode, DO_PREFLUSH) {
      queue, r := [PreFlushRq] + queue, Some(PreFlushRq);
    } else {
      skip := skip | PREFLUSH;
    }
    if Has(mode, BY_DRAIN) && busy {
      r := None;
    } else {
      skip := skip | DRAIN;
    }
  }

  class RequestQueue {
    const nextOrdered: bv8
    var sq: Seqn
    var l: Lists
    var inFlight: int
    /** The number of barriers queued so far; its parity is ordcolor. */
    var cnt: nat
    /** REQ_FUA of the barrier request */
    var fua: bool
    ghost var hist: Hist
    ghost var log: Log

    /** The device orders barriers by draining. */
    predicate ByDrain() { Has(nextOrdered, BY_DRAIN) }

    ghost predicate Valid()
      reads this
    {
      Sound() && (ByDrain() ==> LiveOk(sq, l)) && FuaOk(nextOrdered, sq, fua)
    }

    ghost predicate Sound()
      reads this
    {
      SoundOk(nextOrdered, sq, l, inFlight, cnt, hist, log)
    }

    constructor (mode: bv8)
      requires mode == 0 || IsMode(mode)
      ensures Valid() && l == Lists([], [], []) && hist == Hist(0, [], []) && log == Log([], [], [])
    {
      nextOrdered := mode;
      sq, l, inFlight, cnt, fua := Seqn(mode, 0, 0, 0), Lists([], [], []), 0, 0, false;
      hist, log := Hist(0, [], []), Log([], [], []);
    }

    /** blk_ordered_complete_seq; the last precondition is its BUG_ON. */
    method OrderedCompleteSeq(seqs: bv8, error: int) returns (over: bool)
      requires sq.Active() && InProgress(sq.ordseq) && seqs < DONE && HistOk(sq, hist)
      requires sq.ordseq & seqs == 0
      modifies this`sq, this`hist
      ensures sq == Completed(old(sq), seqs, error) && hist == Recorded(old(sq), old(hist), seqs, error)
      ensures over <==> !sq.Active()
      ensures HistOk(sq, hist)
      ensures over ==> |hist.ended| > 0 && hist.ended[|hist.ended| - 1] == (old(sq).orig, FirstError(hist.errs))
    {
      CompletedHist(sq, hist, seqs, error);
      CompletedProgress(sq, seqs, error);
      hist := Recorded(sq, hist, seqs, error);
      if error != 0 && sq.orderr == 0 {
        sq := sq.(orderr := error);
      }
      sq := sq.(ordseq := sq.ordseq | seqs);
      if CurSeq(sq.ordseq) != DONE {
        return false;
      }
      sq := sq.(ordseq := 0);
      return true;
    }

    ghost predicate SafeToIssue(rq: Rq)
      reads this
    {
      Safe(nextOrdered, sq, l, hist.base, rq)
    }

    /** start_ordered, for the barrier at the head of the queue. */
    method StartOrdered() returns (go: bool, r: Option<Rq>)
      requires Valid() && !sq.Active() && nextOrdered != 0 && l.queue != [] && l.queue[0].Fs? && l.queue[0].barrier
      modifies this`sq, this`l, this`hist, this`log, this`fua
      ensures Valid() && hist.base == old(hist).base + 1 && log == Noted(old(log).(done := []), [], !go)
      ensures go <==> sq.Active()
      ensures l == old(l).(queue := l.queue)
      ensures !go ==> l == old(l).(queue := old(l).queue[1..]) && r == None
      ensures !go ==> |hist.ended| > 0 && hist.ended[|hist.ended| - 1] == (old(l).queue[0].epoch, 0)
      ensures go ==> hist.ended == old(hist).ended
      ensures r.Some? ==> l.queue != [] && r.value == l.queue[0] && SafeToIssue(r.value)
      ensures var rq := old(l).queue[0]; var stages := StageList(StartMode(nextOrdered, rq.sectors));
        && sq == StartSeqn(nextOrdered, rq.sectors, rq.epoch, old(inFlight) != 0)
        && l.queue == stages + old(l).queue[1..]
        && r == if (Has(StartMode(nextOrdered, rq.sectors), BY_DRAIN) && old(inFlight) != 0) || stages == [] then None else Some(stages[0])
      ensures go && r == None ==> l.flight != []
      ensures !go ==> NoFs(l.flight)
      ensures var rq := old(l).queue[0];
        && (BarRq in l.queue <==> rq.sectors > 0)
        && (PreFlushRq in l.queue <==> Has(nextOrdered, DO_PREFLUSH))
        && (PostFlushRq in l.queue <==> rq.sectors > 0 && Has(nextOrdered, DO_POSTFLUSH))
        && (Has(sq.ordered, BY_TAG) <==> Has(nextOrdered, BY_TAG) && (rq.sectors > 0 || Has(nextOrdered, DO_PREFLUSH)))
        && l.queue == Plan(nextOrdered, rq.sectors) + old(l).queue[1..]
        && fua == if rq.sectors > 0 then Has(nextOrdered, DO_FUA) else old(fua)
    {
      hide SoundOk, LiveOk, NoFs, Plan, StartMode, Completed, Skipped, StageList, InProgress, HistOk, Safe, Has, FirstError, FuaOk;
      var rq := l.queue[0];
      PlanFor(nextOrdered, sq, l, inFlight, cnt, hist, log);
      StartKeeps(nextOrdered, sq, l, inFlight, cnt, hist, log);
      StartSafe(nextOrdered, sq, l, inFlight, cnt, hist, log);
      FuaFor(nextOrdered, rq.sectors, sq, l, inFlight, cnt, hist, log);
      var over;
      over, r := Begin();
      go := !over;
      FuaStarts(nextOrdered, rq.sectors, rq.epoch, inFlight != 0, fua);
    }

    /** What it does, step by step. */
    method Begin() returns (over: bool, r: Option<Rq>)
      requires Ready(nextOrdered, sq, l, inFlight, cnt, hist, log)
      modifies this`sq, this`l, this`hist, this`log, this`fua
      ensures var rq := old(l).queue[0]; var mode, wait := StartMode(nextOrdered, rq.sectors), WaitsFirst(nextOrdered, rq, inFlight);
        && sq == Completed(Begun(nextOrdered, rq), Skipped(mode, wait), 0)
        && l == FrontList(nextOrdered, old(l))
        && hist == Recorded(Begun(nextOrdered, rq), Hist(old(hist).base + 1, old(hist).ended, []), Skipped(mode, wait), 0)
        && log == Noted(old(log).(done := []), [], over)
        && r == (if wait || StageList(mode) == [] then None else Some(StageList(mode)[0]))
        && fua == (if Has(mode, DO_BAR) then Has(mode, DO_FUA) else old(fua))
        && (over ==> |hist.ended| > 0 && hist.ended[|hist.ended| - 1] == (rq.epoch, FirstError(hist.errs)))
      ensures over <==> !sq.Active()
    {
      hide SoundOk, LiveOk, StartMode, Completed, Skipped, StageList, InProgress, HistOk, Has, FirstError;
      var rq := l.queue[0];
      StartKeeps(nextOrdered, sq, l, inFlight, cnt, hist, log);
      var mode := ModeFor(nextOrdered, rq.sectors);
      sq := Seqn(mode, STARTED, 0, rq.epoch);
      hist := Hist(hist.base + 1, hist.ended, []);
      var queue, skip;
      queue, skip, r := QueueStages(mode, l.queue[1..], inFlight != 0);
      fua := MarkBar(mode, fua);
      l := l.(queue := queue);
      over := OrderedCompleteSeq(skip, 0);
      log := Noted(log.(done := []), [], over);
    }

    /** blk_do_ordered, for the request at the head of the queue. */
    method DoOrdered() returns (go: bool, r: Option<Rq>)
      requires Valid() && l.queue != []
      modifies this`sq, this`l, this`hist, this`log, this`fua
      ensures Valid() && l.elevator == old(l).elevator && l.flight == old(l).flight && log.asked == old(log).asked
      ensures !go ==> l.queue == old(l).queue[1..]
      ensures r.Some? ==> go && l.queue != [] && r.value == l.queue[0] && SafeToIssue(r.value)
      ensures go && r == None && ByDrain() ==> l.flight != []
      ensures old(sq).Active() ==> go && sq == old(sq) && l == old(l) && hist == old(hist) && r == if HoldsBack() then None else Some(l.queue[0])
      ensures var h := old(l).queue[0];
        && (!old(sq).Active() && !h.IsBarrier() ==> go && r == Some(h) && sq == old(sq) && l == old(l) && hist == old(hist))
        && (!old(sq).Active() && h.Fs? && h.barrier && nextOrdered == 0 ==>
            !go && r == None && sq == old(sq) && hist.ended == old(hist).ended + [(h.epoch, -EOPNOTSUPP)])
        && (!old(sq).Active() && h.Fs? && h.barrier && nextOrdered != 0 ==>
            && sq == StartSeqn(nextOrdered, h.sectors, h.epoch, inFlight != 0)
            && l.queue == StageList(StartMode(nextOrdered, h.sectors)) + old(l).queue[1..])
    {
      hide LiveOk, StartSeqn, StartMode, StageList, LogOk, AskedOk, Plan;
      hide StagesOk, EpochsOk, HistOk, TurnOk, BarriersOk, Seqn.Early, Seqn.Late;
      var rq := l.queue[0];
      if !sq.Active() {
        if !rq.IsBarrier() {
          IdleHead(sq, l, cnt, hist.base, ByDrain());
          return true, Some(rq);
        }
        assert rq.Fs? by { IdleNoStage(l); }
        if nextOrdered != 0 {
          go, r := StartOrdered();
        } else {
          BarrierAtHead(l, hist.base, cnt, []);
          Terminated(sq, l, hist);
          LogRefused(sq, hist, log, cnt);
          AskedStart(l.queue, log.asked, []);
          hist := Hist(hist.base + 1, hist.ended + [(rq.epoch, -EOPNOTSUPP)], hist.errs);
          log := log.(past := log.past + [[]]);
          l := l.(queue := [] + l.queue[1..]);
          return false, None;
        }
      } else {
        go := true;
        r := InSequence();
      }
    }

    /** In a sequence the head waits for its turn, or, with ordered tags, for the end of the sequence if it is the next
        barrier; special requests never wait. */
    predicate HoldsBack()
      requires l.queue != []
      reads this
    {
      var rq := l.queue[0];
      !rq.Special? && if Has(sq.ordered, BY_TAG) then rq.IsBarrier() && rq != BarRq else sq.Early(rq)
    }

    /** The second half of blk_do_ordered, for a sequence in progress; the assertion is its WARN_ON. */
    method InSequence() returns (r: Option<Rq>)
      requires Valid() && sq.Active() && l.queue != []
      ensures r.Some? ==> r.value == l.queue[0] && SafeToIssue(r.value)
      ensures r == if HoldsBack() then None else Some(l.queue[0])
      ensures r == None && ByDrain() ==> l.flight != []
    {
      hide LiveOk, LogOk, AskedOk;
      hide StagesOk, EpochsOk, HistOk, TurnOk, BarriersOk, Seqn.Early, Seqn.Late;
      var rq := l.queue[0];
      if rq.Special? {
        return Some(rq);
      }
      r := Some(rq);
      OrigOf(sq, hist);
      if ByDrain() { HeadMayGo(sq, l, cnt, hist.base); }
      if rq.Fs? && rq.barrier { NextBarrierWaits(sq, l, cnt, hist.base); }
      if Has(sq.ordered, BY_TAG) {
        if rq.IsBarrier() && rq != BarRq {
          r := None;
        }
      } else {
        if !ByDrain() { FallbackDrains(nextOrdered, sq, rq); }
        assert !sq.Late(rq);
        if sq.Early(rq) {
          if ByDrain() { NeverStalls(sq, l, cnt, hist.base); }
          r := None;
        }
      }
    }

    /** __elv_next_request. When the queue is empty the scheduler is asked for more; picks says which of its requests it
        hands over, one after the other. */
    method NextRequest(picks: seq<nat>) returns (r: Option<Rq>)
      requires Valid()
      modifies this`sq, this`l, this`hist, this`log, this`fua
      ensures Valid() && l.flight == old(l).flight && log.asked == old(log).asked
      ensures r.Some? ==> l.queue != [] && r.value == l.queue[0] && SafeToIssue(r.value)
      ensures r == None && ByDrain() ==> l.queue == [] || l.flight != []
    {
      hide LiveOk, StagesOk, EpochsOk, HistOk, TurnOk, BarriersOk, Seqn.Early, Seqn.Late, StartSeqn, StartMode, StageList;
      hide LogOk, AskedOk, Plan;
      var n := 0;
      while true
        invariant Valid() && n <= |picks| && l.flight == old(l).flight && log.asked == old(log).asked
        decreases |picks| - n
      {
        while l.queue != []
          invariant Valid() && l.flight == old(l).flight && log.asked == old(log).asked
          decreases |l.queue|
        {
          var go;
          go, r := DoOrdered();
          if go {
            return;
          }
        }
        if n == |picks| || l.elevator == [] {
          return None;
        }
        DispatchSort(picks[n] % |l.elevator|, 0);
        n := n + 1;
      }
    }

    /** elv_dispatch_sort: the scheduler hands over its request k; it may pass only plain requests of its own epoch. */
    method DispatchSort(k: nat, p: nat)
      requires Valid() && k < |l.elevator| && p <= |l.queue|
      requires forall i :: p <= i < |l.queue| ==> Plain(l.queue[i]) && l.queue[i].epoch == cnt
      modifies this`l
      ensures Valid()
      ensures l == Lists(InsertAt(old(l).queue, p, old(l).elevator[k]), RemoveAt(old(l).elevator, k), old(l).flight)
    {
      hide HistOk, BarriersOk, EpochsOk, LiveOk, LogOk, AskedOk;
      var rq := l.elevator[k];
      assert rq in l.elevator && Plain(rq) by { ElevatorPlain(l, hist.base, cnt, k); }
      StagesQueueGains(sq.ordseq, l, p, rq);
      BarriersGain(l, hist.base, cnt, p, rq);
      if ByDrain() {
        EpochsDispatch(sq, l, cnt, hist.base, k, p);
        assert rq.epoch == cnt by { ElevatorEpoch(sq, l, cnt, hist.base, k); }
        LiveDispatch(sq, l, cnt, p, rq);
      }
      AskedInsert(l.queue, log.asked, p, rq);
      ElevatorLoses(l.(queue := InsertAt(l.queue, p, rq)), hist.base, cnt, k);
      l := Lists(InsertAt(l.queue, p, rq), RemoveAt(l.elevator, k), l.flight);
    }

    /** blk_start_request: the driver takes the request it was handed. */
    method StartRequest()
      requires Valid() && l.queue != [] && SafeToIssue(l.queue[0])
      modifies this`l, this`inFlight
      ensures Valid() && l == old(l).(queue := old(l).queue[1..], flight := old(l).flight + [old(l).queue[0]])
    {
      hide StagesOk, HistOk, BarriersOk, EpochsOk, TurnOk, Seqn.Early, Seqn.Late, CurSeq, ReqSeq, LogOk, AskedOk;
      var rq := l.queue[0];
      AskedStart(l.queue, log.asked, []);
      assert [] + l.queue[1..] == l.queue[1..];
      StagesHandOver(sq.ordseq, l);
      TurnHandOver(sq, l);
      BarriersPop(l, hist.base, cnt);
      if ByDrain() { HandOverSafe(sq, l, cnt, hist); }
      CountFsConcat(l.flight, [rq]);
      assert CountFs([rq]) == if rq.IsFs() then 1 else 0;
      l := l.(queue := l.queue[1..], flight := l.flight + [rq]);
      if rq.IsFs() {
        inFlight := inFlight + 1;
      }
    }

    /** elv_completed_request, when the driver is done with a request k of the ordinary kind: the last one to drain
        completes the drain stage. */
    method CompletedRequest(k: nat)
      requires Valid() && k < |l.flight| && !l.flight[k].IsStage()
      modifies this`sq, this`l, this`inFlight, this`hist, this`log
      ensures Valid() && l == old(l).(flight := RemoveAt(old(l).flight, k)) && hist.base == old(hist).base
      ensures EndedWith(old(sq), old(hist)) && log == Noted(old(log), [], old(sq).Active() && !sq.Active())
      ensures sq == if old(DrainEnds(k)) then Completed(old(sq), DRAIN, 0) else old(sq)
      ensures Falls(nextOrdered, old(sq)) ==> (!sq.Active() <==> old(DrainEnds(k)))
      ensures old(sq).Active() && !sq.Active() ==> NoFs(l.flight)
    {
      hide NoFs, LogOk, AskedOk;
      NoFsInFlight(RemoveAt(l.flight, k));
      hide LiveOk, StagesOk, HistOk, BarriersOk, EpochsOk, Completed, TurnOk, FallbackOk, Falls;
      hide CountFs, CurSeq, ReqSeq, IsMode, RemoveAt;
      if Falls(nextOrdered, sq) { FallbackDrains(nextOrdered, sq, l.flight[k]); }
      var rq := l.flight[k];
      RemoveAtContents(l.flight, k);
      FlightLosesBarriers(l, hist.base, cnt, k);
      StagesFlightLoses(sq.ordseq, l, k);
      TurnFlightLoses(sq, l, k);
      if ByDrain() { FlightLoses(sq, l, cnt, hist.base, k); }
      l := l.(flight := RemoveAt(l.flight, k));
      if rq.IsFs() {
        inFlight := inFlight - 1;
      }
      CheckDrained();
    }

    /** Request k is the last of those that the sequence waits for in its drain stage. */
    predicate DrainEnds(k: nat)
      requires k < |l.flight|
      reads this
    {
      && sq.Active() && CurSeq(sq.ordseq) == DRAIN && CountFs(RemoveAt(l.flight, k)) == 0
      && (l.queue == [] || ReqSeq(l.queue[0], sq.orig) > DRAIN)
    }

    /** The check at the end of elv_completed_request. */
    method CheckDrained()
      requires Sound() && FuaOk(nextOrdered, sq, fua)
      modifies this`sq, this`hist, this`log
      ensures Valid() && hist.base == old(hist).base && EndedWith(old(sq), old(hist))
      ensures log == Noted(old(log), [], old(sq).Active() && !sq.Active())
      ensures sq == if old(sq).Active() && inFlight == 0 && CurSeq(old(sq).ordseq) == DRAIN
                       && (l.queue == [] || ReqSeq(l.queue[0], old(sq).orig) > DRAIN)
                    then Completed(old(sq), DRAIN, 0) else old(sq)
    {
      hide LiveOk, StagesOk, HistOk, BarriersOk, EpochsOk, Completed, TurnOk, CurSeq, ReqSeq, FallbackOk, LogOk, AskedOk, FuaOk;
      if sq.Active() && inFlight == 0 && CurSeq(sq.ordseq) == DRAIN && (l.queue == [] || ReqSeq(l.queue[0], sq.orig) > DRAIN) {
        OrigOf(sq, hist);
        DrainCompletes(sq, l);
        ProgressOf(sq.ordseq, l);
        TurnDrains(sq, l);
        FallbackCompletes(nextOrdered, sq, DRAIN, 0);
        FuaCompletes(nextOrdered, sq, DRAIN, 0, fua);
        if ByDrain() { EpochsDrained(sq, l, cnt, hist.base); }
        EndedLength(sq, hist, DRAIN, 0);
        LiveDrained(sq, l);
        LogDrain(nextOrdered, sq, hist, log, cnt);
        var over := OrderedCompleteSeq(DRAIN, 0);
        log := Noted(log, [], over);
      } else {
        LiveChecked(sq, l);
        assert log.done + [] == log.done;
      }
    }

    /** pre_flush_end_io, bar_end_io and post_flush_end_io; the BUG_ON of the sequence cannot fire. */
    method StageEndIo(k: nat, error: int)
      requires Valid() && k < |l.flight| && l.flight[k].IsStage()
      modifies this`sq, this`l, this`inFlight, this`hist, this`log
      ensures Valid() && l == old(l).(flight := RemoveAt(old(l).flight, k)) && hist.base == old(hist).base
      ensures old(sq).Active() && hist == Recorded(old(sq), old(hist), StageBit(old(l).flight[k]), error)
      ensures sq == Completed(old(sq), StageBit(old(l).flight[k]), error)
      ensures EndedWith(old(sq), old(hist)) && !Falls(nextOrdered, old(sq))
      ensures log == Noted(old(log), [old(l).flight[k]], !sq.Active())
    {
      hide SoundOk, LiveOk, HistOk, Completed, InProgress, Recorded, FirstError, Falls, FuaOk;
      var rq := l.flight[k];
      StageKeeps(nextOrdered, sq, l, inFlight, cnt, hist, log, k, error);
      FuaCompletes(nextOrdered, sq, StageBit(rq), error, fua);
      l := l.(flight := RemoveAt(l.flight, k));
      if rq.IsFs() {
        inFlight := inFlight - 1;
      }
      var over := OrderedCompleteSeq(StageBit(rq), error);
      log := Noted(log, [rq], over);
    }

    /** The original barrier has ended exactly if the sequence is over, with the first error reported in it. */
    ghost predicate EndedWith(sq0: Seqn, h0: Hist)
      reads this
    {
      if sq0.Active() && !sq.Active() then hist.ended == h0.ended + [(sq0.orig, FirstError(hist.errs))]
      else hist.ended == h0.ended
    }

    // -------------------------------------------------------------- queueing

    /** __elv_add_request of an ordinary request: it goes to the scheduler, in the current colour. */
    method AddRequest(id: nat, sectors: nat)
      requires Valid()
      modifies this`l
      ensures Valid() && l == old(l).(elevator := old(l).elevator + [Fs(id, cnt, false, sectors)])
    {
      hide HistOk, HasBarrier, QueueOrdered, CurSeq, ReqSeq, LogOk, AskedOk;
      l := l.(elevator := l.elevator + [Fs(id, cnt, false, sectors)]);
    }

    /** elv_drain_elevator: everything inside the scheduler goes to the tail of the queue, in the order of its choosing. */
    method DrainElevator(pick: nat -> nat)
      requires Valid()
      modifies this`l
      ensures Valid() && l.elevator == [] && l.flight == old(l).flight
      ensures multiset(l.queue) == multiset(old(l).queue) + multiset(old(l).elevator)
    {
      hide LiveOk, StagesOk, HistOk, BarriersOk, EpochsOk, TurnOk, InsertAt, RemoveAt, CountFs, LogOk, AskedOk;
      while l.elevator != []
        invariant Valid() && l.flight == old(l).flight
        invariant multiset(l.queue) + multiset(l.elevator) == multiset(old(l).queue) + multiset(old(l).elevator)
        decreases |l.elevator|
      {
        var k := pick(|l.elevator|) % |l.elevator|;
        RemoveAtContents(l.elevator, k);
        InsertAtContents(l.queue, |l.queue|, l.elevator[k]);
        assert l.elevator[k] in multiset(l.elevator);
        DispatchSort(k, |l.queue|);
      }
    }

    /** __elv_add_request of a barrier: the scheduler is drained, the barrier goes to the tail, and the colour changes. */
    method AddBarrier(id: nat, sectors: nat, pick: nat -> nat)
      requires Valid()
      modifies this`l, this`cnt, this`log
      ensures Valid() && cnt == old(cnt) + 1 && l.elevator == [] && l.flight == old(l).flight
      ensures multiset(l.queue) == multiset(old(l).queue) + multiset(old(l).elevator) + multiset{Fs(id, old(cnt), true, sectors)}
      ensures log == old(log).(asked := old(log).asked + [sectors])
    {
      hide HistOk, StagesOk, BarriersOk, EpochsOk, LiveOk, LogOk, AskedOk;
      DrainElevator(pick);
      var rq := Fs(id, cnt, true, sectors);
      LogNew(nextOrdered, sq, hist, log, cnt, l.queue, rq);
      StagesAppend(sq.ordseq, l, rq);
      BarriersNew(l, hist.base, cnt, rq);
      if ByDrain() {
        EpochsNew(sq, l, cnt, hist.base, rq);
        LiveAppend(sq, l, rq);
      }
      l := l.(queue := l.queue + [rq]);
      log := log.(asked := log.asked + [sectors]);
      cnt := cnt + 1;
    }

    /** elv_insert of a special request at either end of the queue. */
    method AddSpecial(id: nat, front: bool, pick: nat -> nat)
      requires Valid()
      modifies this`l
      ensures Valid() && l.flight == old(l).flight
      ensures front ==> l == old(l).(queue := [Special(id)] + old(l).queue)
      ensures !front ==> l.elevator == [] && l.queue != [] && l.queue[|l.queue| - 1] == Special(id)
      ensures !front ==> multiset(l.queue) == multiset(old(l).queue) + multiset(old(l).elevator) + multiset{Special(id)}
    {
      hide HistOk, StagesOk, BarriersOk, EpochsOk, LiveOk, LogOk, AskedOk;
      if !front {
        DrainElevator(pick);
      }
      var p := if front then 0 else |l.queue|;
      StagesQueueGains(sq.ordseq, l, p, Special(id));
      BarriersGain(l, hist.base, cnt, p, Special(id));
      if ByDrain() {
        QueueGains(sq, l, cnt, hist.base, p, Special(id));
        LiveSpecial(sq, l, p, Special(id));
      }
      assert front ==> InsertAt(l.queue, p, Special(id)) == [Special(id)] + l.queue;
      InsertAtContents(l.queue, p, Special(id));
      AskedInsert(l.queue, log.asked, p, Special(id));
      l := l.(queue := InsertAt(l.queue, p, Special(id)));
    }

    /** elv_requeue_request: request k comes back from the driver, to its place in the sequence. */
    method RequeueRequest(k: nat) returns (p: nat)
      requires Valid() && k < |l.flight|
      modifies this`l, this`inFlight
      ensures Valid()
      ensures p <= |old(l).queue| && (!sq.Active() ==> p == 0)
      ensures sq.Active() ==> forall i :: 0 <= i < p ==> ReqSeq(old(l).flight[k], sq.orig) > ReqSeq(old(l).queue[i], sq.orig)
      ensures sq.Active() && p < |old(l).queue| ==> ReqSeq(old(l).flight[k], sq.orig) <= ReqSeq(old(l).queue[p], sq.orig)
      ensures l == old(l).(queue := InsertAt(old(l).queue, p, old(l).flight[k]), flight := RemoveAt(old(l).flight, k))
    {
      hide HistOk, StagesOk, BarriersOk, EpochsOk, TurnOk, LiveOk, ReqSeq, InsertAt, RemoveAt, CountFs, IsMode, LogOk, AskedOk;
      hide FuaOk, FallbackOk, Has;
      var rq := l.flight[k];
      FlightPlain(l, hist.base, cnt, k);
      AskedInsertAny(l.queue, log.asked, rq);
      RemoveAtContents(l.flight, k);
      if rq.IsFs() {
        inFlight := inFlight - 1;
      }
      p := 0;
      if sq.Active() {
        p := PlaceFor(l.queue, rq, sq.orig);
        OrigOf(sq, hist);
      }
      RequeueKeeps(sq, l, cnt, hist.base, k, p);
      if ByDrain() {
        EpochsRequeue(sq, l, cnt, hist.base, k, p);
        LiveRequeue(sq, l, cnt, hist.base, k, p);
      }
      l := l.(queue := InsertAt(l.queue, p, rq), flight := RemoveAt(l.flight, k));
    }
  }

  /** At every point of every run, for every barrier that has ended: each stage it needs has completed once, the barrier request
      if it has data, a flush before it on a device with a cache, and one behind it unless the device writes through. On a
      draining device they completed in that order. */
  lemma {:induction false} EndedBarriers(q: RequestQueue, k: nat)
    requires q.Valid() && q.nextOrdered != 0 && k < |q.hist.ended|
    ensures k < |q.log.asked| && k < |q.log.past|
    ensures var n, done := q.log.asked[k], multiset(q.log.past[k]);
      && done[BarRq] == (if n > 0 then 1 else 0)
      && done[PreFlushRq] == (if Has(q.nextOrdered, DO_PREFLUSH) then 1 else 0)
      && done[PostFlushRq] == (if n > 0 && Has(q.nextOrdered, DO_POSTFLUSH) then 1 else 0)
    ensures q.ByDrain() ==> q.log.past[k] == Plan(q.nextOrdered, q.log.asked[k])
  {
    hide StagesOk, BarriersOk, EpochsOk, TurnOk, HistOk, AskedOk, LiveOk, FallbackOk;
    assert Settled(q.nextOrdered, q.log.asked[k], q.log.past[k]);
    PlanCounts(q.nextOrdered, q.log.asked[k]);
  }

  lemma {:induction false} PlanCounts(next: bv8, n: nat)
    requires IsMode(next)
    ensures var p := multiset(Plan(next, n));
      && p[BarRq] == (if n > 0 then 1 else 0)
      && p[PreFlushRq] == (if Has(next, DO_PREFLUSH) then 1 else 0)
      && p[PostFlushRq] == (if n > 0 && Has(next, DO_POSTFLUSH) then 1 else 0)
  {}

  /** The loop of elv_insert that looks for the first request which is not earlier in the sequence. */
  method PlaceFor(queue: seq<Rq>, rq: Rq, orig: nat) returns (p: nat)
    ensures p <= |queue| && forall i :: 0 <= i < p ==> ReqSeq(rq, orig) > ReqSeq(queue[i], orig)
    ensures p < |queue| ==> ReqSeq(rq, orig) <= ReqSeq(queue[p], orig)
  {
    p := 0;
    while p < |queue| && ReqSeq(rq, orig) > ReqSeq(queue[p], orig)
      invariant p <= |queue| && forall i :: 0 <= i < p ==> ReqSeq(rq, orig) > ReqSeq(queue[i], orig)
    {
      p := p + 1;
    }
  }

  lemma StagesAppend(ordseq: bv8, l: Lists, x: Rq)
    requires StagesOk(ordseq, l) && !x.IsStage()
    ensures StagesOk(ordseq, l.(queue := l.queue + [x]))
  {}

  lemma RequeueKeeps(sq: Seqn, l: Lists, cnt: nat, base: nat, k: nat, p: nat)
    requires StagesOk(sq.ordseq, l) && BarriersOk(l, base, cnt) && TurnOk(sq, l) && k < |l.flight| && p <= |l.queue|
    ensures var l' := l.(queue := InsertAt(l.queue, p, l.flight[k]), flight := RemoveAt(l.flight, k));
      StagesOk(sq.ordseq, l') && BarriersOk(l', base, cnt) && TurnOk(sq, l')
  {
    hide HasBarrier, InsertAt, RemoveAt;
    InsertAtContents(l.queue, p, l.flight[k]);
    RemoveAtContents(l.flight, k);
    assert l.flight[k] in multiset(l.flight);
    assert l.flight[k] in l.flight;
    BarriersGain(l, base, cnt, p, l.flight[k]);
  }

  /** A requeued request finds the place that its key demands. */
  lemma EpochsRequeue(sq: Seqn, l: Lists, cnt: nat, base: nat, k: nat, p: nat)
    requires EpochsOk(sq, l, cnt, base) && StagesOk(sq.ordseq, l) && k < |l.flight| && p <= |l.queue|
    requires !sq.Active() ==> p == 0
    requires sq.Active() ==>
      && (forall i :: 0 <= i < p ==> ReqSeq(l.flight[k], base - 1) > ReqSeq(l.queue[i], base - 1))
      && (p == |l.queue| || ReqSeq(l.flight[k], base - 1) <= ReqSeq(l.queue[p], base - 1))
    ensures EpochsOk(sq, l.(queue := InsertAt(l.queue, p, l.flight[k]), flight := RemoveAt(l.flight, k)), cnt, base)
  {
    hide HasBarrier, QueueOrdered;
    var x := l.flight[k];
    assert x in l.flight;
    if x.Fs? {
      if sq.Active() && l.queue != [] { SeqAtLeastDrain(l.queue[0], base - 1); }
      forall i | 0 <= i < |l.queue| ensures l.queue[i] in l.queue {}
      QueueStagesActive(sq, l);
    } else if x.IsStage() {
      StageFits(sq, l, cnt, base, k, p);
    }
    QueueGains(sq, l, cnt, base, p, x);
    FlightLoses(sq, l.(queue := InsertAt(l.queue, p, x)), cnt, base, k);
  }

  lemma SeqAtLeastDrain(rq: Rq, orig: nat)
    ensures ReqSeq(rq, orig) >= DRAIN
  {}

  lemma QueueStagesActive(sq: Seqn, l: Lists)
    requires StagesOk(sq.ordseq, l)
    ensures forall i :: 0 <= i < |l.queue| && l.queue[i].IsStage() ==> sq.Active() && !Has(sq.ordseq, StageBit(l.queue[i]))
  {}

  lemma StageFits(sq: Seqn, l: Lists, cnt: nat, base: nat, k: nat, p: nat)
    requires EpochsOk(sq, l, cnt, base) && StagesOk(sq.ordseq, l) && k < |l.flight| && l.flight[k].IsStage() && p <= |l.queue|
    requires sq.Active()
    requires forall i :: 0 <= i < p ==> ReqSeq(l.flight[k], base - 1) > ReqSeq(l.queue[i], base - 1)
    ensures Fits(l.queue, p, l.flight[k], base)
  {
    var x := l.flight[k];
    assert x in l.flight && x in multiset(l.flight);
    CurIsFirstOpen(sq.ordseq);
    QueueStagesActive(sq, l);
    assert x !in multiset(l.queue) by { assert Copies(l, x) == 1; }
    forall i | 0 <= i < |l.queue| && !l.queue[i].Special? ensures Key(x, base) < Key(l.queue[i], base) {
      assert l.queue[i] in l.queue;
    }
    forall i | 0 <= i < p ensures l.queue[i].Special? {
      if l.queue[i].Fs? { EarlierBarrier(sq, l, cnt, base, i); }
    }
  }

  /** A request whose colour comes up again lies behind the next barrier. */
  lemma EarlierBarrier(sq: Seqn, l: Lists, cnt: nat, base: nat, i: nat)
    requires EpochsOk(sq, l, cnt, base) && sq.Active() && Drained(sq) && i < |l.queue| && l.queue[i].Fs?
    ensures exists j :: 0 <= j <= i && ReqSeq(l.queue[j], base - 1) == DONE
  {
    assert l.queue[i] in l.queue;
    if ReqSeq(l.queue[i], base - 1) != DONE {
      assert HasBarrier(l.queue, base);
      var j :| 0 <= j < |l.queue| && l.queue[j].Fs? && l.queue[j].barrier && l.queue[j].epoch == base;
      assert Key(l.queue[j], base) < Key(l.queue[i], base);
      assert j <= i;
      assert ReqSeq(l.queue[j], base - 1) == DONE;
    }
  }

  lemma EndedLength(sq: Seqn, h: Hist, seqs: bv8, error: int)
    requires sq.Active() && InProgress(sq.ordseq) && seqs < DONE && HistOk(sq, h)
    ensures var h' := Recorded(sq, h, seqs, error);
      h'.base == h.base && h'.ended == if Completed(sq, seqs, error).Active() then h.ended else h.ended + [(sq.orig, FirstError(h'.errs))]
  {
    CompletedHist(sq, h, seqs, error);
  }

  lemma TurnFlightLoses(sq: Seqn, l: Lists, k: nat)
    requires TurnOk(sq, l) && k < |l.flight|
    ensures TurnOk(sq, l.(flight := RemoveAt(l.flight, k)))
  {}

  lemma TurnDrains(sq: Seqn, l: Lists)
    requires TurnOk(sq, l) && sq.Active() && InProgress(sq.ordseq)
    ensures TurnOk(Completed(sq, DRAIN, 0), l)
  {}

  lemma TurnStage(sq: Seqn, l: Lists, k: nat, error: int)
    requires TurnOk(sq, l) && StagesOk(sq.ordseq, l) && sq.Active() && k < |l.flight| && l.flight[k].IsStage()
    ensures InProgress(sq.ordseq) && CurSeq(sq.ordseq) != DRAIN
    ensures TurnOk(Completed(sq, StageBit(l.flight[k]), error), l.(flight := RemoveAt(l.flight, k)))
  {}

  lemma TurnStart(next: bv8, l: Lists, rq: Rq, busy: bool, l': Lists)
    requires IsMode(next) && StagesOk(0, l) && rq.Fs? && l'.flight == l.flight
    ensures TurnOk(StartSeqn(next, rq.sectors, rq.epoch, busy), l')
  {}

  lemma TurnHandOver(sq: Seqn, l: Lists)
    requires TurnOk(sq, l) && StagesOk(sq.ordseq, l) && l.queue != []
    requires sq.Active() && !Has(sq.ordered, BY_TAG) && !l.queue[0].Special? ==> !sq.Early(l.queue[0])
    ensures TurnOk(sq, l.(queue := l.queue[1..], flight := l.flight + [l.queue[0]]))
  {}

  lemma ElevatorPlain(l: Lists, base: nat, cnt: nat, k: nat)
    requires BarriersOk(l, base, cnt) && k < |l.elevator|
    ensures Plain(l.elevator[k])
  {}

  lemma ElevatorEpoch(sq: Seqn, l: Lists, cnt: nat, base: nat, k: nat)
    requires EpochsOk(sq, l, cnt, base) && k < |l.elevator|
    ensures l.elevator[k].Fs? && l.elevator[k].epoch == cnt
  {}

  lemma ElevatorLoses(l: Lists, base: nat, cnt: nat, k: nat)
    requires BarriersOk(l, base, cnt) && k < |l.elevator|
    ensures BarriersOk(l.(elevator := RemoveAt(l.elevator, k)), base, cnt)
  {}

  lemma EpochsDispatch(sq: Seqn, l: Lists, cnt: nat, base: nat, k: nat, p: nat)
    requires EpochsOk(sq, l, cnt, base) && k < |l.elevator| && p <= |l.queue|
    requires forall i :: p <= i < |l.queue| ==> Plain(l.queue[i]) && l.queue[i].epoch == cnt
    ensures EpochsOk(sq, Lists(InsertAt(l.queue, p, l.elevator[k]), RemoveAt(l.elevator, k), l.flight), cnt, base)
  {
    hide HasBarrier, InsertAt, RemoveAt, QueueOrdered, Fits;
    var x := l.elevator[k];
    assert x in l.elevator;
    RemoveAtContents(l.elevator, k);
    DispatchFits(sq, l, cnt, base, p, x);
    QueueGains(sq, l, cnt, base, p, x);
  }

  lemma DispatchFits(sq: Seqn, l: Lists, cnt: nat, base: nat, p: nat, x: Rq)
    requires EpochsOk(sq, l, cnt, base) && p <= |l.queue| && Plain(x) && x.epoch == cnt
    requires forall i :: p <= i < |l.queue| ==> Plain(l.queue[i]) && l.queue[i].epoch == cnt
    ensures Fits(l.queue, p, x, base) && Epoch(sq, base) <= cnt
  {
    hide HasBarrier, QueueOrdered;
    forall i | 0 <= i < |l.queue| ensures QueuedOk(l.queue[i], Epoch(sq, base), base, cnt) {
      assert l.queue[i] in l.queue;
    }
  }

  lemma HandOverSafe(sq: Seqn, l: Lists, cnt: nat, h: Hist)
    requires EpochsOk(sq, l, cnt, h.base) && StagesOk(sq.ordseq, l) && HistOk(sq, h) && l.queue != []
    requires !(l.queue[0].Fs? && l.queue[0].barrier)
    requires l.queue[0].Fs? ==> l.queue[0].epoch == Epoch(sq, h.base) && !Drained(sq)
    requires sq.Active() && !Has(sq.ordered, BY_TAG) && !l.queue[0].Special? ==> !sq.Early(l.queue[0]) && !sq.Late(l.queue[0])
    ensures EpochsOk(sq, l.(queue := l.queue[1..], flight := l.flight + [l.queue[0]]), cnt, h.base)
  {
    hide HasBarrier, QueueOrdered;
    if l.queue[0].IsStage() && !sq.Active() { NoStage(l, l.queue[0]); }
    HandOver(sq, l, cnt, h.base);
  }

  lemma FlightLosesBarriers(l: Lists, base: nat, cnt: nat, k: nat)
    requires BarriersOk(l, base, cnt) && k < |l.flight|
    ensures BarriersOk(l.(flight := RemoveAt(l.flight, k)), base, cnt)
  {}

  lemma ProgressOf(ordseq: bv8, l: Lists)
    requires StagesOk(ordseq, l) && ordseq != 0
    ensures InProgress(ordseq)
  {}

  lemma IdleNoStage(l: Lists)
    requires StagesOk(0, l) && l.queue != []
    ensures !l.queue[0].IsStage()
  {}

  lemma IdleHead(sq: Seqn, l: Lists, cnt: nat, base: nat, byDrain: bool)
    requires !sq.Active() && StagesOk(0, l) && l.queue != [] && (byDrain ==> EpochsOk(sq, l, cnt, base))
    ensures !l.queue[0].IsStage() && (byDrain && l.queue[0].Fs? ==> l.queue[0].epoch == base)
  {
    IdleNoStage(l);
    if byDrain && l.queue[0].Fs? { HeadEpoch(sq, l, cnt, base); }
  }

  lemma Terminated(sq: Seqn, l: Lists, h: Hist)
    requires HistOk(sq, h) && !sq.Active() && l.queue != [] && l.queue[0].Fs? && l.queue[0].epoch == h.base && StagesOk(0, l)
    ensures forall e :: HistOk(sq, Hist(h.base + 1, h.ended + [(h.base, e)], h.errs))
    ensures StagesOk(0, l.(queue := [] + l.queue[1..])) && TurnOk(sq, l.(queue := [] + l.queue[1..]))
  {}

  /** The next barrier always has the other colour, so it waits for the end of the sequence. */
  lemma NextBarrierWaits(sq: Seqn, l: Lists, cnt: nat, base: nat)
    requires sq.Active() && StagesOk(sq.ordseq, l) && BarriersOk(l, base, cnt) && sq.orig == base - 1
    requires l.queue != [] && l.queue[0].Fs? && l.queue[0].barrier
    ensures sq.Early(l.queue[0])
  {
    BarrierAtHead(l, base, cnt, []);
    CurIsFirstOpen(sq.ordseq);
  }

  lemma OrigOf(sq: Seqn, h: Hist)
    requires HistOk(sq, h) && sq.Active()
    ensures sq.orig == h.base - 1
  {}

  /** On a device ordered by draining the head is never behind its turn, and when its turn has come it is safe to issue. */
  lemma HeadMayGo(sq: Seqn, l: Lists, cnt: nat, base: nat)
    requires sq.Active() && EpochsOk(sq, l, cnt, base) && StagesOk(sq.ordseq, l) && l.queue != [] && !l.queue[0].Special?
    requires sq.orig == base - 1
    ensures var h := l.queue[0];
      && !Has(sq.ordered, BY_TAG) && !sq.Late(h)
      && (!sq.Early(h) && h.Fs? ==> !h.barrier && h.epoch == base - 1 && !Drained(sq))
      && (!sq.Early(h) && h.IsStage() ==>
            && (forall x :: (x in l.queue || x in l.elevator || x in l.flight) && x.Fs? ==> x.epoch > sq.orig)
            && (forall x :: x in l.flight ==> !x.IsStage()))
  {
    hide QueueOrdered, HasBarrier, CurSeq;
    CurIsFirstOpen(sq.ordseq);
    var h := l.queue[0];
    if h.Fs? {
      HeadEpoch(sq, l, cnt, base);
    } else {
      HeadStage(sq.ordseq, l);
    }
  }

  /** The stage at the head is open and not in flight. */
  lemma HeadStage(ordseq: bv8, l: Lists)
    requires ordseq != 0 && StagesOk(ordseq, l) && l.queue != [] && l.queue[0].IsStage()
    ensures !Has(ordseq, StageBit(l.queue[0])) && l.queue[0] !in l.flight
    ensures CurSeq(ordseq) <= StageBit(l.queue[0])
  {}

  lemma StartedBits(mode: bv8, wait: bool)
    ensures var k := Skipped(mode, wait); k < DONE && STARTED & k == 0 && InProgress(STARTED)
  {}

  /** With nothing to drain, the first stage request is the current stage, and nothing before the barrier is left. */
  lemma FirstStage(next: bv8, l0: Lists, cnt: nat, base: nat, sq0: Seqn, sq: Seqn, l: Lists)
    requires IsMode(next) && StagesOk(0, l0) && !sq0.Active() && l0.queue != [] && l0.queue[0].Fs? && l0.queue[0].barrier
    requires l0.queue[0].epoch == base
    requires var mode := StartMode(next, l0.queue[0].sectors);
      && sq == StartSeqn(next, l0.queue[0].sectors, base, CountFs(l0.flight) != 0)
      && l == l0.(queue := StageList(mode) + l0.queue[1..])
      && StageList(mode) != [] && !(Has(mode, BY_DRAIN) && CountFs(l0.flight) != 0)
    ensures l.queue[0].IsStage() && sq.Active()
    ensures !sq.Early(l.queue[0]) && !sq.Late(l.queue[0])
    ensures forall x :: x in l.flight ==> !x.IsStage()
    ensures Has(next, BY_DRAIN) && EpochsOk(sq, l, cnt, base + 1) ==>
      forall x :: (x in l.queue || x in l.elevator || x in l.flight) && x.Fs? ==> x.epoch > sq.orig
  {
    hide StartMode, Completed, QueueOrdered, HasBarrier;
    var mode := StartMode(next, l0.queue[0].sectors);
    StartModeBits(next, l0.queue[0].sectors);
    StartSeqnBits(next, l0.queue[0].sectors, base, CountFs(l0.flight) != 0);
    StageListCounts(mode);
    NoFsInFlight(l.flight);
    forall x | x in l.flight ensures !x.IsStage() { NoStage(l0, x); }
    assert l.queue[0] == StageList(mode)[0];
    FirstOfList(mode);
    CurIsFirstOpen(sq.ordseq);
  }

  lemma FirstOfList(mode: bv8)
    requires StageList(mode) != []
    ensures StageList(mode)[0] ==
      if Has(mode, DO_PREFLUSH) then PreFlushRq else if Has(mode, DO_BAR) then BarRq else PostFlushRq
    ensures Has(mode, DO_PREFLUSH) || Has(mode, DO_BAR) || Has(mode, DO_POSTFLUSH)
  {}
}
