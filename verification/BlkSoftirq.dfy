/**
  Completion of requests through the block softirq (block/blk-softirq.c): per-CPU lists of finished requests, inter-processor
  calls to the CPU that issued a request, and the removal of a CPU.

  Every method is one step that runs with interrupts off on its CPU; steps of different CPUs come in any order. Only CPUs
  that are online take steps.
 */
module BlkSoftirq {
  import opened Wrappers

  /** A CPU that went offline is dying until blk_cpu_notify has dealt with it. */
  datatype Phase = Online | Dying | Dead

  /** done is blk_cpu_done and pending the raised BLOCK_SOFTIRQ. The softirq clears pending before it takes the list
      (starting) and then works on a list of its own (local). calls are requests on their way from other CPUs. */
  datatype Cpu = Cpu(phase: Phase, done: seq<nat>, pending: bool, starting: bool, local: seq<nat>, calls: seq<nat>)
  {
    /** A list with requests has a softirq raised or about to take it; a CPU that is offline runs none and expects no call,
        and a dead one holds nothing. */
    predicate Served() {
      && (done == [] || pending || starting)
      && (!phase.Online? ==> !starting && local == [] && calls == [])
      && (phase.Dead? ==> done == [])
    }

    // When StartSoftirq, TakeList, FinishOne, TriggerSoftirq, CpuDead and TakeDown can take place.
    predicate CanStart() { phase.Online? && pending && !starting && local == [] }
    predicate CanTake() { phase.Online? && starting && local == [] }
    predicate CanFinish() { phase.Online? && local != [] }
    predicate CanTrigger() { phase.Online? && calls != [] }
    predicate CanBury() { phase.Dying? }
    predicate CanGoDown() { phase.Online? && !starting && local == [] && calls == [] }

    /** There is something to do for this CPU or about it. */
    predicate CanStep() { CanStart() || CanTake() || CanFinish() || CanTrigger() || CanBury() }

    /** What is left to do here: every step makes it less. */
    function Work(): nat {
      4 * |calls| + |done| + |local| + (if pending then 2 else 0) + (if starting then 1 else 0)
      + if phase.Online? then 4 else if phase.Dying? then 3 else 0
    }

    ghost function Bag(): multiset<nat> { multiset(done) + multiset(local) + multiset(calls) }

    /** list_add_tail, and the softirq raised by the first on the list */
    function Queue(rq: nat): Cpu {
      this.(done := done + [rq], pending := pending || done == [])
    }
  }

  lemma QueueKeeps(c: Cpu, rq: nat)
    requires c.Served() && c.phase.Online?
    ensures c.Queue(rq).Served() && c.Queue(rq).Bag() == c.Bag() + multiset{rq} && c.Queue(rq).Work() <= c.Work() + 3
  {
  }

  ghost function All(cpus: seq<Cpu>): multiset<nat> {
    if cpus == [] then multiset{} else All(cpus[..|cpus| - 1]) + cpus[|cpus| - 1].Bag()
  }

  lemma {:induction false} AllUpdate(cpus: seq<Cpu>, i: nat, c: Cpu)
    requires i < |cpus|
    ensures cpus[i].Bag() <= All(cpus) && All(cpus[i := c]) == All(cpus) - cpus[i].Bag() + c.Bag()
  {
    hide Cpu.Bag;
    var n := |cpus| - 1;
    if i == n {
      assert cpus[i := c][..n] == cpus[..n];
    } else {
      AllUpdate(cpus[..n], i, c);
      assert cpus[i := c][..n] == cpus[..n][i := c];
    }
  }

  function Total(cpus: seq<Cpu>): nat {
    if cpus == [] then 0 else Total(cpus[..|cpus| - 1]) + cpus[|cpus| - 1].Work()
  }

  lemma {:induction false} TotalUpdate(cpus: seq<Cpu>, i: nat, c: Cpu)
    requires i < |cpus|
    ensures Total(cpus[i := c]) == Total(cpus) - cpus[i].Work() + c.Work()
  {
    hide Cpu.Work;
    var n := |cpus| - 1;
    if i == n {
      assert cpus[i := c][..n] == cpus[..n];
    } else {
      TotalUpdate(cpus[..n], i, c);
      assert cpus[i := c][..n] == cpus[..n][i := c];
    }
  }

  lemma {:induction false} AllEmpty(cpus: seq<Cpu>)
    requires forall i :: 0 <= i < |cpus| ==> cpus[i].Bag() == multiset{}
    ensures All(cpus) == multiset{}
  {
    hide Cpu.Bag;
    if cpus != [] { AllEmpty(cpus[..|cpus| - 1]); }
  }

  /** Every list is served, and what entered is finished or on some list. */
  ghost predicate Good(entered: multiset<nat>, finished: multiset<nat>, cpus: seq<Cpu>) {
    (forall i :: 0 <= i < |cpus| ==> cpus[i].Served()) && entered == finished + All(cpus)
  }

  /** One CPU changes: e enters and f is finished. */
  lemma {:induction false} GoodUpdate(entered: multiset<nat>, finished: multiset<nat>, cpus: seq<Cpu>, i: nat, c: Cpu,
                                      e: multiset<nat>, f: multiset<nat>)
    requires Good(entered, finished, cpus) && i < |cpus| && c.Served() && c.Bag() + f == cpus[i].Bag() + e
    ensures Good(entered + e, finished + f, cpus[i := c])
  {
    hide Cpu.Bag, Cpu.Served, All;
    AllUpdate(cpus, i, c);
    Balance(entered, finished, All(cpus), cpus[i].Bag(), c.Bag(), e, f);
  }

  lemma {:induction false} GoodKeep(n: multiset<nat>, d: multiset<nat>, cpus: seq<Cpu>, i: nat, c: Cpu)
    requires Good(n, d, cpus) && i < |cpus| && c.Served() && c.Bag() == cpus[i].Bag()
    ensures Good(n, d, cpus[i := c])
  {
    hide *;
    GoodUpdate(n, d, cpus, i, c, multiset{}, multiset{});
    assert n + multiset{} == n && d + multiset{} == d;
  }

  lemma {:induction false} GoodEnter(n: multiset<nat>, d: multiset<nat>, cpus: seq<Cpu>, i: nat, c: Cpu, e: multiset<nat>)
    requires Good(n, d, cpus) && i < |cpus| && c.Served() && c.Bag() == cpus[i].Bag() + e
    ensures Good(n + e, d, cpus[i := c])
  {
    hide *;
    GoodUpdate(n, d, cpus, i, c, e, multiset{});
    assert d + multiset{} == d;
  }

  lemma {:induction false} GoodFinish(n: multiset<nat>, d: multiset<nat>, cpus: seq<Cpu>, i: nat, c: Cpu, f: multiset<nat>)
    requires Good(n, d, cpus) && i < |cpus| && c.Served() && c.Bag() + f == cpus[i].Bag()
    ensures Good(n, d + f, cpus[i := c])
  {
    hide *;
    GoodUpdate(n, d, cpus, i, c, multiset{}, f);
    assert n + multiset{} == n;
  }

  lemma {:induction false} Balance(n: multiset<nat>, d: multiset<nat>, all: multiset<nat>, b: multiset<nat>,
                                   c: multiset<nat>, e: multiset<nat>, f: multiset<nat>)
    requires n == d + all && b <= all && c + f == b + e
    ensures n + e == (d + f) + (all - b + c)
  {
    forall x ensures (n + e)[x] == ((d + f) + (all - b + c))[x] {
      assert (c + f)[x] == (b + e)[x];
    }
  }

  lemma {:induction false} Cancel(n: multiset<nat>, d: multiset<nat>, cpus: seq<Cpu>, m: multiset<nat>)
    requires Good(n + m, d + m, cpus)
    ensures Good(n, d, cpus)
  {
    hide All, Cpu.Served;
    forall x ensures n[x] == (d + All(cpus))[x] { assert (n + m)[x] == ((d + m) + All(cpus))[x]; }
  }

  lemma {:induction false} ServedAt(n: multiset<nat>, d: multiset<nat>, cpus: seq<Cpu>, i: nat)
    requires Good(n, d, cpus) && i < |cpus|
    ensures cpus[i].Served()
  {
  }

  lemma {:induction false} StartKeeps(c: Cpu)
    requires c.CanStart()
    ensures var c' := c.(pending := false, starting := true); c'.Served() && c'.Bag() == c.Bag() && c'.Work() < c.Work()
  {
  }

  lemma {:induction false} TakeKeeps(c: Cpu)
    requires c.CanTake()
    ensures var c' := c.(done := [], local := c.done, starting := false);
      c'.Served() && c'.Bag() == c.Bag() && c'.Work() < c.Work()
  {
  }

  lemma {:induction false} FinishKeeps(c: Cpu)
    requires c.Served() && c.CanFinish()
    ensures var c' := c.(local := c.local[1..]);
      c'.Served() && c'.Bag() + multiset{c.local[0]} == c.Bag() && c'.Work() < c.Work()
  {
    assert c.local == [c.local[0]] + c.local[1..];
  }

  lemma {:induction false} BuryKeeps(c: Cpu)
    requires c.Served() && c.CanBury()
    ensures var c' := c.(phase := Dead, done := []);
      c'.Served() && c'.Bag() + multiset(c.done) == c.Bag() && c'.Work() + |c.done| + 3 == c.Work()
  {
  }

  lemma {:induction false} SpliceKeeps(c: Cpu, moved: seq<nat>)
    requires c.Served() && c.phase.Online?
    ensures var c' := c.(done := moved + c.done, pending := true);
      c'.Served() && c'.Bag() == c.Bag() + multiset(moved) && c'.Work() <= c.Work() + |moved| + 2
  {
  }

  class Softirq {
    var cpus: seq<Cpu>
    /** Requests that entered __blk_complete_request, and requests given to softirq_done_fn. */
    ghost var entered: multiset<nat>
    ghost var finished: multiset<nat>

    ghost predicate Valid()
      reads this
    {
      Good(entered, finished, cpus)
    }

    constructor (n: nat)
      ensures Valid() && |cpus| == n && entered == multiset{} && finished == multiset{}
    {
      cpus := seq(n, _ => Cpu(Online, [], false, false, [], []));
      entered, finished := multiset{}, multiset{};
      new;
      AllEmpty(cpus);
    }

    /** __blk_complete_request on a CPU: on the own list, unless another CPU asked for the completion and is online */
    method Complete(cpu: nat, rq: nat, wanted: Option<nat>, group: nat)
      requires Valid() && cpu < |cpus| && cpus[cpu].phase.Online? && (wanted.Some? ==> wanted.value < |cpus|)
      modifies this`cpus, this`entered
      ensures Valid() && entered == old(entered) + multiset{rq}
      ensures (var ccpu := if wanted.Some? then wanted.value else cpu;
               cpus == if ccpu == cpu || ccpu == group || !old(cpus[ccpu]).phase.Online? then old(cpus)[cpu := old(cpus[cpu]).Queue(rq)]
                       else old(cpus)[ccpu := old(cpus[ccpu]).(calls := old(cpus[ccpu]).calls + [rq])])
    {
      hide Cpu.Bag, Cpu.Served, Cpu.Queue, Good;
      var ccpu := if wanted.Some? then wanted.value else cpu;
      ServedAt(entered, finished, cpus, cpu);
      ServedAt(entered, finished, cpus, ccpu);
      if ccpu == cpu || ccpu == group || !cpus[ccpu].phase.Online? {
        QueueKeeps(cpus[cpu], rq);
        GoodEnter(entered, finished, cpus, cpu, cpus[cpu].Queue(rq), multiset{rq});
        cpus := cpus[cpu := cpus[cpu].Queue(rq)];
      } else {
        CallKeeps(cpus[ccpu], rq);
        GoodEnter(entered, finished, cpus, ccpu, cpus[ccpu].(calls := cpus[ccpu].calls + [rq]), multiset{rq});
        cpus := cpus[ccpu := cpus[ccpu].(calls := cpus[ccpu].calls + [rq])];
      }
      entered := entered + multiset{rq};
    }

    /** trigger_softirq: the first call that reached the CPU is put on its list */
    method TriggerSoftirq(cpu: nat)
      requires Valid() && cpu < |cpus| && cpus[cpu].CanTrigger()
      modifies this`cpus
      ensures Valid() && Total(cpus) < old(Total(cpus))
      ensures (var c := old(cpus[cpu]); cpus == old(cpus)[cpu := c.(calls := c.calls[1..]).Queue(c.calls[0])])
    {
      hide Cpu.Queue, Cpu.Served, Cpu.Bag, Cpu.Work, Total, Good;
      var c := cpus[cpu];
      ServedAt(entered, finished, cpus, cpu);
      CallTaken(c);
      QueueKeeps(c.(calls := c.calls[1..]), c.calls[0]);
      GoodKeep(entered, finished, cpus, cpu, c.(calls := c.calls[1..]).Queue(c.calls[0]));
      TotalUpdate(cpus, cpu, c.(calls := c.calls[1..]).Queue(c.calls[0]));
      cpus := cpus[cpu := c.(calls := c.calls[1..]).Queue(c.calls[0])];
    }

    /** The softirq is started: its pending bit goes before the handler has looked at the list. */
    method StartSoftirq(cpu: nat)
      requires Valid() && cpu < |cpus| && cpus[cpu].CanStart()
      modifies this`cpus
      ensures Valid() && cpus == old(cpus)[cpu := old(cpus[cpu]).(pending := false, starting := true)]
      ensures Total(cpus) < old(Total(cpus))
    {
      hide Cpu.Served, Cpu.Bag, Cpu.Work, Total, Good;
      var c := cpus[cpu].(pending := false, starting := true);
      StartKeeps(cpus[cpu]);
      GoodKeep(entered, finished, cpus, cpu, c);
      TotalUpdate(cpus, cpu, c);
      cpus := cpus[cpu := c];
    }

    /** blk_done_softirq takes the whole list. */
    method TakeList(cpu: nat)
      requires Valid() && cpu < |cpus| && cpus[cpu].CanTake()
      modifies this`cpus
      ensures Valid() && cpus == old(cpus)[cpu := old(cpus[cpu]).(done := [], local := old(cpus[cpu]).done, starting := false)]
      ensures Total(cpus) < old(Total(cpus))
    {
      hide Cpu.Served, Cpu.Bag, Cpu.Work, Total, Good;
      var c := cpus[cpu].(done := [], local := cpus[cpu].done, starting := false);
      TakeKeeps(cpus[cpu]);
      GoodKeep(entered, finished, cpus, cpu, c);
      TotalUpdate(cpus, cpu, c);
      cpus := cpus[cpu := c];
    }

    /** One round of the loop of blk_done_softirq: the next request goes to softirq_done_fn. */
    method FinishOne(cpu: nat) returns (rq: nat)
      requires Valid() && cpu < |cpus| && cpus[cpu].CanFinish()
      modifies this`cpus, this`finished
      ensures Valid() && rq == old(cpus[cpu].local[0]) && finished == old(finished) + multiset{rq}
      ensures cpus == old(cpus)[cpu := old(cpus[cpu]).(local := old(cpus[cpu]).local[1..])]
      ensures Total(cpus) < old(Total(cpus))
    {
      hide Cpu.Served, Cpu.Bag, Cpu.Work, Total, Good;
      rq := cpus[cpu].local[0];
      var c := cpus[cpu].(local := cpus[cpu].local[1..]);
      ServedAt(entered, finished, cpus, cpu);
      FinishKeeps(cpus[cpu]);
      GoodFinish(entered, finished, cpus, cpu, c, multiset{rq});
      TotalUpdate(cpus, cpu, c);
      cpus := cpus[cpu := c];
      finished := finished + multiset{rq};
    }

    /** blk_done_softirq to the end: everything on the list is finished, in order. */
    method DoneSoftirq(cpu: nat) returns (ghost order: seq<nat>)
      requires Valid() && cpu < |cpus| && cpus[cpu].CanTake()
      modifies this`cpus, this`finished
      ensures Valid() && order == old(cpus[cpu].done) && finished == old(finished) + multiset(order)
      ensures cpus == old(cpus)[cpu := old(cpus[cpu]).(done := [], starting := false)] && Total(cpus) < old(Total(cpus))
    {
      hide Cpu.Served, Cpu.Bag, Cpu.Work, Total, Good;
      ghost var was, d, fin := cpus, cpus[cpu].done, finished;
      TakeList(cpu);
      order := [];
      while cpus[cpu].local != []
        invariant Valid() && |cpus| == |was| && order + cpus[cpu].local == d && finished == fin + multiset(order)
        invariant cpus == was[cpu := was[cpu].(done := [], starting := false, local := cpus[cpu].local)]
        invariant Total(cpus) < Total(was)
        decreases |cpus[cpu].local|
      {
        ghost var rest := cpus[cpu].local;
        var rq := FinishOne(cpu);
        assert order + rest == (order + [rq]) + rest[1..];
        order := order + [rq];
      }
    }

    /** A CPU goes offline, between two softirqs and with its calls answered. */
    method TakeDown(cpu: nat)
      requires Valid() && cpu < |cpus| && cpus[cpu].CanGoDown()
      modifies this`cpus
      ensures Valid() && cpus == old(cpus)[cpu := old(cpus[cpu]).(phase := Dying)] && Total(cpus) < old(Total(cpus))
    {
      hide Cpu.Bag, Good, Total;
      ServedAt(entered, finished, cpus, cpu);
      var c := cpus[cpu].(phase := Dying);
      assert c.Bag() == cpus[cpu].Bag() by { SameBag(cpus[cpu], Dying); }
      GoodKeep(entered, finished, cpus, cpu, c);
      TotalUpdate(cpus, cpu, c);
      cpus := cpus[cpu := c];
    }

    /** A dead CPU comes back. */
    method BringUp(cpu: nat)
      requires Valid() && cpu < |cpus| && cpus[cpu].phase.Dead?
      modifies this`cpus
      ensures Valid() && cpus == old(cpus)[cpu := old(cpus[cpu]).(phase := Online)]
    {
      hide Cpu.Bag, Good;
      ServedAt(entered, finished, cpus, cpu);
      var c := cpus[cpu].(phase := Online);
      assert c.Bag() == cpus[cpu].Bag() by { SameBag(cpus[cpu], Online); }
      GoodKeep(entered, finished, cpus, cpu, c);
      cpus := cpus[cpu := c];
    }

    /** blk_cpu_notify: the list of the dead CPU is spliced in front of the current one's, and its softirq raised. */
    method CpuDead(dead: nat, cpu: nat)
      requires Valid() && dead < |cpus| && cpu < |cpus| && cpus[dead].CanBury() && cpus[cpu].phase.Online?
      modifies this`cpus
      ensures Valid() && Total(cpus) < old(Total(cpus))
      ensures (cpus == old(cpus)[dead := old(cpus[dead]).(phase := Dead, done := [])]
                       [cpu := old(cpus[cpu]).(done := old(cpus[dead]).done + old(cpus[cpu]).done, pending := true)])
    {
      hide Cpu.Served, Cpu.Bag, Cpu.Work, Total, Good;
      var moved := cpus[dead].done;
      var d := cpus[dead].(phase := Dead, done := []);
      ServedAt(entered, finished, cpus, dead);
      ServedAt(entered, finished, cpus, cpu);
      BuryKeeps(cpus[dead]);
      GoodFinish(entered, finished, cpus, dead, d, multiset(moved));
      TotalUpdate(cpus, dead, d);
      cpus := cpus[dead := d];
      var c := cpus[cpu].(done := moved + cpus[cpu].done, pending := true);
      SpliceKeeps(cpus[cpu], moved);
      GoodEnter(entered, finished + multiset(moved), cpus, cpu, c, multiset(moved));
      TotalUpdate(cpus, cpu, c);
      cpus := cpus[cpu := c];
      Cancel(entered, finished, cpus, multiset(moved));
    }
  }

  lemma SameBag(c: Cpu, phase: Phase)
    ensures c.(phase := phase).Bag() == c.Bag()
  {
  }

  lemma CallKeeps(c: Cpu, rq: nat)
    requires c.Served() && c.phase.Online?
    ensures c.(calls := c.calls + [rq]).Served() && c.(calls := c.calls + [rq]).Bag() == c.Bag() + multiset{rq}
  {
  }

  lemma CallTaken(c: Cpu)
    requires c.Served() && c.CanTrigger()
    ensures var c' := c.(calls := c.calls[1..]);
      c'.Served() && c'.Bag() + multiset{c.calls[0]} == c.Bag() && c'.Work() + 4 == c.Work()
  {
    assert c.calls == [c.calls[0]] + c.calls[1..];
  }

  /** No request is finished more often than it entered; and unless every request that entered has been finished, some
      online CPU has a step to take or a dying one is still to be dealt with. */
  lemma FinishedOnce(s: Softirq)
    requires s.Valid()
    ensures s.finished <= s.entered
    ensures s.finished != s.entered ==> Working(s.cpus)
  {
    if !Working(s.cpus) {
      forall i | 0 <= i < |s.cpus| ensures s.cpus[i].Bag() == multiset{} { NothingLeft(s.cpus[i]); }
      AllEmpty(s.cpus);
    }
  }

  predicate Working(cpus: seq<Cpu>) { exists i :: 0 <= i < |cpus| && cpus[i].CanStep() }

  lemma NothingLeft(c: Cpu)
    requires c.Served() && !c.CanStep()
    ensures c.Bag() == multiset{}
  {
  }

  /** The steps of the CPUs: a softirq starts or goes on, a call reaches its CPU, a dying CPU is dealt with by an online one,
      or a CPU goes offline. */
  datatype Step = Start(cpu: nat) | Take(cpu: nat) | Finish(cpu: nat) | Trigger(cpu: nat) | Bury(cpu: nat, heir: nat) | Down(cpu: nat)

  /** The step can take place; the last CPU does not go offline. */
  predicate Can(cpus: seq<Cpu>, step: Step) {
    step.cpu < |cpus| && var c := cpus[step.cpu];
    match step
    case Start(_) => c.CanStart()
    case Take(_) => c.CanTake()
    case Finish(_) => c.CanFinish()
    case Trigger(_) => c.CanTrigger()
    case Bury(_, heir) => c.CanBury() && heir < |cpus| && cpus[heir].phase.Online?
    case Down(k) => c.CanGoDown() && exists j :: 0 <= j < |cpus| && j != k && cpus[j].phase.Online?
  }

  predicate SomeOnline(cpus: seq<Cpu>) { exists i :: 0 <= i < |cpus| && cpus[i].phase.Online? }

  /** While there is something to do, some step other than going offline can take place. */
  lemma StepThere(cpus: seq<Cpu>)
    requires Working(cpus) && SomeOnline(cpus)
    ensures exists step :: Can(cpus, step) && !step.Down?
  {
    var i, heir :| 0 <= i < |cpus| && cpus[i].CanStep() && 0 <= heir < |cpus| && cpus[heir].phase.Online?;
    var c := cpus[i];
    var step := if c.CanStart() then Start(i) else if c.CanTake() then Take(i) else if c.CanFinish() then Finish(i)
                else if c.CanTrigger() then Trigger(i) else Bury(i, heir);
    assert Can(cpus, step) && !step.Down?;
  }

  /** Let steps follow each other in any order, the n-th one chosen by pick among those that can take place, without new
      completions, until there is nothing left to do: this ends, and then every request that entered has been finished, even
      if CPUs went offline with requests on their lists, before or meanwhile. */
  method Settle(s: Softirq, pick: (nat, seq<Cpu>) -> Step)
    requires s.Valid() && SomeOnline(s.cpus)
    requires forall n: nat, c: seq<Cpu> {:trigger pick(n, c)} :: Working(c) && SomeOnline(c) ==> Can(c, pick(n, c))
    modifies s
    ensures s.Valid() && s.entered == old(s.entered) && s.finished == s.entered
  {
    hide Cpu.Served, Cpu.Bag, Cpu.Work, Total, Good, All;
    var n := 0;
    FinishedOnce(s);
    while Working(s.cpus)
      invariant s.Valid() && s.entered == old(s.entered) && SomeOnline(s.cpus)
      invariant s.finished != s.entered ==> Working(s.cpus)
      decreases Total(s.cpus)
    {
      var step := pick(n, s.cpus);
      TakeStep(s, step);
      n := n + 1;
      FinishedOnce(s);
    }
  }

  method TakeStep(s: Softirq, step: Step)
    requires s.Valid() && Can(s.cpus, step) && SomeOnline(s.cpus)
    modifies s
    ensures s.Valid() && s.entered == old(s.entered) && SomeOnline(s.cpus) && Total(s.cpus) < old(Total(s.cpus))
  {
    hide Cpu.Served, Cpu.Bag, Cpu.Work, Total, Good, All;
    ghost var j :| 0 <= j < |s.cpus| && s.cpus[j].phase.Online? && (step.Down? ==> j != step.cpu);
    match step {
      case Start(k) => s.StartSoftirq(k);
      case Take(k) => s.TakeList(k);
      case Finish(k) => var rq := s.FinishOne(k);
      case Trigger(k) => s.TriggerSoftirq(k);
      case Bury(k, heir) => s.CpuDead(k, heir);
      case Down(k) => s.TakeDown(k);
    }
    assert s.cpus[j].phase.Online?;
  }
}
