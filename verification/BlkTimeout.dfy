/**
  Who completes a request: the driver, the timeout or an abort (block/blk.h, block/blk-timeout.c and the entry of
  block/blk-softirq.c). They race for one bit, REQ_ATOM_COMPLETE.
 */
module BlkTimeout {
  import opened Wrappers

  /** What rq_timed_out_fn answers. */
  datatype Answer = Handled | ResetTimer | NotHandled

  // ---------------------------------------------------------------- one request, any interleaving

  /** Where a thread is: blk_complete_request, and the timer or abort from blk_mark_rq_complete on. */
  datatype Pc = DriverMark | DriverComplete | TimerMark | TimerAsk | TimerComplete | TimerClear | TimerAdd | Gone
  {
    /** The thread has set the bit and not yet passed the request on. */
    predicate Owns() { DriverComplete? || TimerAsk? || TimerComplete? || TimerClear? }
  }

  /** What was done with the request, and what the driver's timeout function answered: how often it was completed by the driver
      and by a timeout, how often its timer was started again, and how often it was left to the driver. */
  datatype Tally = Tally(driver: nat, handled: nat, reset: nat, left: nat, answers: multiset<Answer>)

  /** The bit, how often the request entered __blk_complete_request, how often it was left to the driver, and the threads. */
  datatype State = State(bit: bool, entered: nat, left: nat, threads: seq<Pc>, tally: Tally)

  function Init(): State { State(false, 0, 0, [], Tally(0, 0, 0, 0, multiset{})) }

  /** One atomic step of a thread. */
  function Act(s: State, pc: Pc, a: Answer): (State, Pc) {
    match pc
    case DriverMark => if s.bit then (s, Gone) else (s.(bit := true), DriverComplete)
    case TimerMark => if s.bit then (s, Gone) else (s.(bit := true), TimerAsk)
    case DriverComplete => (s.(entered := s.entered + 1, tally := s.tally.(driver := s.tally.driver + 1)), Gone)
    case TimerComplete => (s.(entered := s.entered + 1, tally := s.tally.(handled := s.tally.handled + 1)), Gone)
    case TimerAsk =>
      var t := s.tally.(answers := s.tally.answers + multiset{a});
      if a == Handled then (s.(tally := t), TimerComplete)
      else if a == ResetTimer then (s.(tally := t), TimerClear)
      else (s.(left := s.left + 1, tally := t.(left := t.left + 1)), Gone)
    case TimerClear => (s.(bit := false, tally := s.tally.(reset := s.tally.reset + 1)), TimerAdd)
    case TimerAdd => (s, Gone)
    case Gone => (s, Gone)
  }

  function Step(s: State, t: nat, a: Answer): State
    requires t < |s.threads|
  {
    var (s', pc) := Act(s, s.threads[t], a);
    s'.(threads := s.threads[t := pc])
  }

  ghost predicate Next(s: State, s': State) {
    || s' == s.(threads := s.threads + [DriverMark])
    || s' == s.(threads := s.threads + [TimerMark])
    || exists t, a :: 0 <= t < |s.threads| && s' == Step(s, t, a)
  }

  ghost predicate IsRun(run: seq<State>) {
    run != [] && run[0] == Init() && forall i :: 0 <= i < |run| - 1 ==> Next(run[i], run[i + 1])
  }

  function One(b: bool): nat { if b then 1 else 0 }

  function Owners(threads: seq<Pc>): nat {
    if threads == [] then 0 else Owners(threads[..|threads| - 1]) + One(threads[|threads| - 1].Owns())
  }

  lemma {:induction false} OwnersUpdate(threads: seq<Pc>, t: nat, pc: Pc)
    requires t < |threads|
    ensures Owners(threads) >= One(threads[t].Owns())
    ensures Owners(threads[t := pc]) == Owners(threads) - One(threads[t].Owns()) + One(pc.Owns())
  {
    hide Pc.Owns;
    var n := |threads| - 1;
    if t == n {
      assert threads[t := pc][..n] == threads[..n];
    } else {
      OwnersUpdate(threads[..n], t, pc);
      assert threads[t := pc][..n] == threads[..n][t := pc];
    }
  }

  lemma {:induction false} OwnersAppend(threads: seq<Pc>, pc: Pc)
    ensures Owners(threads + [pc]) == Owners(threads) + One(pc.Owns())
  {}

  /** The bit is set exactly while one thread holds the request, or it was completed, or it was left to the driver. */
  ghost predicate Held(s: State) { Owners(s.threads) + s.entered + s.left == One(s.bit) }

  lemma {:induction false} ActKeeps(s: State, pc: Pc, a: Answer, others: nat)
    requires others + One(pc.Owns()) + s.entered + s.left == One(s.bit)
    ensures var (s', pc') := Act(s, pc, a); others + One(pc'.Owns()) + s'.entered + s'.left == One(s'.bit)
  {
  }

  lemma {:induction false} HeldStep(s: State, t: nat, a: Answer)
    requires Held(s) && t < |s.threads|
    ensures Held(Step(s, t, a))
  {
    hide Act, Pc.Owns;
    var (s', pc) := Act(s, s.threads[t], a);
    OwnersUpdate(s.threads, t, pc);
    ActKeeps(s, s.threads[t], a, Owners(s.threads) - One(s.threads[t].Owns()));
  }

  lemma {:induction false} HeldRun(run: seq<State>, k: nat)
    requires IsRun(run) && k < |run|
    ensures Held(run[k])
  {
    if k > 0 {
      HeldRun(run, k - 1);
      var s, s' := run[k - 1], run[k - 1 + 1];
      assert Next(s, s');
      OwnersAppend(s.threads, DriverMark);
      OwnersAppend(s.threads, TimerMark);
      if s' != s.(threads := s.threads + [DriverMark]) && s' != s.(threads := s.threads + [TimerMark]) {
        var t, a :| 0 <= t < |s.threads| && s' == Step(s, t, a);
        HeldStep(s, t, a);
      }
    }
  }

  /** In every run the request enters completion at most once, and never after it was left to the driver; from then on no
      thread holds it and the bit stays set. */
  lemma {:induction false} EntersOnce(run: seq<State>, k: nat)
    requires IsRun(run) && k < |run|
    ensures run[k].entered + run[k].left <= 1
    ensures run[k].entered == 1 ==> run[k].bit && forall t :: 0 <= t < |run[k].threads| ==> !run[k].threads[t].Owns()
  {
    HeldRun(run, k);
    var s := run[k];
    forall t | 0 <= t < |s.threads| && s.entered == 1 ensures !s.threads[t].Owns() {
      OwnersUpdate(s.threads, t, s.threads[t]);
    }
  }

  /** How many threads are at pc. */
  function Count(threads: seq<Pc>, pc: Pc): nat {
    if threads == [] then 0 else Count(threads[..|threads| - 1], pc) + One(threads[|threads| - 1] == pc)
  }

  lemma {:induction false} CountUpdate(threads: seq<Pc>, t: nat, pc: Pc, x: Pc)
    requires t < |threads|
    ensures Count(threads, x) >= One(threads[t] == x)
    ensures Count(threads[t := pc], x) == Count(threads, x) - One(threads[t] == x) + One(pc == x)
  {
    var n := |threads| - 1;
    if t == n {
      assert threads[t := pc][..n] == threads[..n];
    } else {
      CountUpdate(threads[..n], t, pc, x);
      assert threads[t := pc][..n] == threads[..n][t := pc];
    }
  }

  /** Every answer is followed: completed for each Handled, started again for each ResetTimer, left alone for each NotHandled, but
      for the answers that threads are still acting on. Otherwise only the driver completes it. */
  ghost predicate Followed(s: State) {
    && s.tally.handled + Count(s.threads, TimerComplete) == s.tally.answers[Handled]
    && s.tally.reset + Count(s.threads, TimerClear) == s.tally.answers[ResetTimer]
    && s.tally.left == s.left == s.tally.answers[NotHandled]
    && s.entered == s.tally.driver + s.tally.handled
  }

  lemma {:induction false} FollowedStep(s: State, t: nat, a: Answer)
    requires Followed(s) && t < |s.threads|
    ensures Followed(Step(s, t, a))
  {
    var (s', pc) := Act(s, s.threads[t], a);
    CountUpdate(s.threads, t, pc, TimerComplete);
    CountUpdate(s.threads, t, pc, TimerClear);
  }

  lemma {:induction false} CountAppend(threads: seq<Pc>, pc: Pc, x: Pc)
    ensures Count(threads + [pc], x) == Count(threads, x) + One(pc == x)
  {}

  lemma {:induction false} FollowedRun(run: seq<State>, k: nat)
    requires IsRun(run) && k < |run|
    ensures Followed(run[k])
  {
    hide Step;
    if k > 0 {
      FollowedRun(run, k - 1);
      var s, s' := run[k - 1], run[k - 1 + 1];
      assert Next(s, s');
      CountAppend(s.threads, DriverMark, TimerComplete);
      CountAppend(s.threads, DriverMark, TimerClear);
      CountAppend(s.threads, TimerMark, TimerComplete);
      CountAppend(s.threads, TimerMark, TimerClear);
      if s' != s.(threads := s.threads + [DriverMark]) && s' != s.(threads := s.threads + [TimerMark]) {
        var t, a :| 0 <= t < |s.threads| && s' == Step(s, t, a);
        FollowedStep(s, t, a);
      }
    }
  }

  // ---------------------------------------------------------------- the timeout list

  /** Every marked request was completed, left to the driver or is held by the thread at work. */
  ghost predicate Books(marked: set<nat>, entered: multiset<nat>, left: multiset<nat>, held: set<nat>) {
    forall x: nat :: entered[x] + left[x] + One(x in held) == One(x in marked)
  }

  ghost predicate NoDup(s: seq<nat>) { forall x: nat :: multiset(s)[x] <= 1 }

  /** Everything that was on the list when the walk began: what it keeps, has still to look at, has put back, and has
      taken away. */
  ghost function Four(kept: seq<nat>, todo: seq<nat>, back: seq<nat>, gone: seq<nat>): multiset<nat> {
    multiset(kept) + multiset(todo) + multiset(back) + multiset(gone)
  }

  /** The next element moves to one of the other lists. */
  lemma {:induction false} Moves(kept: seq<nat>, todo: seq<nat>, back: seq<nat>, gone: seq<nat>)
    requires todo != []
    ensures Four(kept + [todo[0]], todo[1..], back, gone) == Four(kept, todo, back, gone)
    ensures Four(kept, todo[1..], back + [todo[0]], gone) == Four(kept, todo, back, gone)
    ensures Four(kept, todo[1..], back, gone + [todo[0]]) == Four(kept, todo, back, gone)
    ensures Four(kept, todo[1..] + [todo[0]], back, gone) == Four(kept, todo, back, gone)
  {
    assert todo == [todo[0]] + todo[1..];
  }

  /** It is on none of the others yet. */
  lemma {:induction false} OnlyHere(all: seq<nat>, kept: seq<nat>, todo: seq<nat>, back: seq<nat>, gone: seq<nat>)
    requires todo != [] && NoDup(all) && multiset(all) == Four(kept, todo, back, gone)
    ensures todo[0] !in back
  {
    assert multiset(all)[todo[0]] <= 1;
  }

  /** What was taken away was not complete before, and was answered with something else than a new timer. */
  ghost predicate AllGone(gone: seq<nat>, before: set<nat>, marked: set<nat>, answers: nat -> Answer) {
    forall x :: x in gone ==> x !in before && x in marked && answers(x) != ResetTimer
  }

  class TimeoutQueue {
    /** timeout_list, the requests whose complete bit is set, and the deadlines. */
    var list: seq<nat>
    var marked: set<nat>
    var deadline: map<nat, int>
    ghost var entered: multiset<nat>
    ghost var left: multiset<nat>

    ghost predicate Valid()
      reads this
    {
      NoDup(list) && Books(marked, entered, left, {})
    }

    /** blk_complete_request by the driver */
    method Complete(rq: nat)
      requires Books(marked, entered, left, {})
      modifies this`marked, this`entered
      ensures Books(marked, entered, left, {}) && marked == old(marked) + {rq}
      ensures entered == old(entered) + if rq in old(marked) then multiset{} else multiset{rq}
    {
      if rq !in marked {
        marked := marked + {rq};
        entered := entered + multiset{rq};
      }
    }

    /** Completions by the driver that come in between. */
    method CompleteAll(rqs: seq<nat>)
      requires Books(marked, entered, left, {})
      modifies this`marked, this`entered
      ensures Books(marked, entered, left, {}) && old(marked) <= marked && old(entered) <= entered
      ensures forall k :: 0 <= k < |rqs| ==> rqs[k] in marked
    {
      hide Books;
      var i := 0;
      while i < |rqs|
        invariant Books(marked, entered, left, {}) && old(marked) <= marked && old(entered) <= entered
        invariant i <= |rqs| && forall k :: 0 <= k < i ==> rqs[k] in marked
      {
        Complete(rqs[i]);
        i := i + 1;
      }
    }

    /** blk_rq_timed_out on a request that the caller has marked and taken off its list */
    method TimedOut(rq: nat, answer: Answer, now: int, timeout: nat)
      requires Books(marked, entered, left, {rq}) && rq in marked && rq !in list
      modifies this
      ensures Books(marked, entered, left, {})
      ensures answer == ResetTimer ==> list == old(list) + [rq] && rq in deadline && deadline[rq] == now + timeout
      ensures answer != ResetTimer ==> list == old(list) && marked == old(marked) && deadline == old(deadline)
      ensures answer == ResetTimer ==> marked == old(marked) - {rq} && entered == old(entered) && left == old(left)
      ensures answer == Handled ==> entered == old(entered) + multiset{rq} && left == old(left)
      ensures answer == NotHandled ==> entered == old(entered) && left == old(left) + multiset{rq}
      ensures forall x :: x in old(deadline) && x != rq ==> x in deadline && deadline[x] == old(deadline)[x]
    {
      match answer
      case Handled => entered := entered + multiset{rq};
      case NotHandled => left := left + multiset{rq};
      case ResetTimer =>
        marked := marked - {rq};
        deadline := deadline[rq := now + timeout];
        list := list + [rq];
    }

    /** blk_mark_rq_complete, and the timeout if the request was not complete */
    method Grab(rq: nat, answer: Answer, now: int, timeout: nat) returns (got: bool)
      requires Books(marked, entered, left, {}) && rq !in list
      modifies this
      ensures Books(marked, entered, left, {}) && got == (rq !in old(marked)) && old(marked) <= marked
      ensures !got ==> list == old(list) && marked == old(marked)
      ensures got && answer == ResetTimer ==> list == old(list) + [rq]
      ensures got && answer != ResetTimer ==> list == old(list) && rq in marked
      ensures rq in old(deadline) ==> rq in deadline && (got && answer == ResetTimer ==> deadline[rq] == now + timeout)
      ensures forall x :: x in old(deadline) && x != rq ==> x in deadline && deadline[x] == old(deadline)[x]
    {
      got := rq !in marked;
      if got {
        marked := marked + {rq};
        TimedOut(rq, answer, now, timeout);
      }
    }

    /** blk_abort_queue: the list is taken over, every request on it is aborted, and those that somebody else is completing
        go back. Nothing is lost: an entry is on the list again unless it was grabbed here and not reset. */
    method AbortQueue(answers: nat -> Answer, races: nat -> seq<nat>, now: int, timeout: nat) returns (ghost gone: seq<nat>)
      requires Valid()
      modifies this
      ensures Valid() && multiset(old(list)) == multiset(list) + multiset(gone)
      ensures AllGone(gone, old(marked), marked, answers)
    {
      hide Books, NoDup, Four, AllGone;
      ghost var all := list;
      var todo, kept := list, [];
      list := [];
      gone := [];
      var k := 0;
      ghost var before := marked;
      Begin(all, before, answers);
      while todo != []
        invariant Books(marked, entered, left, {}) && multiset(all) == Four(kept, todo, list, gone)
        invariant before <= marked && AllGone(gone, before, marked, answers)
        decreases |todo|
      {
        ghost var m := marked;
        CompleteAll(races(k));
        Moves(kept, todo, list, gone);
        OnlyHere(all, kept, todo, list, gone);
        var rq := todo[0];
        todo := todo[1..];
        var got := Grab(rq, answers(rq), now, timeout);
        GoneMore(gone, before, m, marked, answers, rq);
        if !got {
          kept := kept + [rq];
        } else if answers(rq) != ResetTimer {
          gone := gone + [rq];
        }
        k := k + 1;
      }
      End(all, kept, list, gone);
      list := kept + list;
    }

    /** One round of blk_rq_timed_out_timer on an expired request that has been taken off the list: seen and todo are what
        stands before and behind it. */
    method Expire(rq: nat, answer: Answer, race: seq<nat>, now: int, timeout: nat, seen: seq<nat>, todo: seq<nat>)
      returns (todo': seq<nat>, gone: bool)
      requires Books(marked, entered, left, {}) && rq in deadline && rq !in seen && rq !in todo
      modifies this
      ensures Books(marked, entered, left, {}) && todo' == todo + (if gone then [] else [rq]) && list == seen + todo'
      ensures rq in deadline && (!gone ==> deadline[rq] == now + timeout)
      ensures forall x :: x in old(deadline) && x != rq ==> x in deadline && deadline[x] == old(deadline)[x]
    {
      hide Books;
      list := seen + todo;
      CompleteAll(race);
      var got := Grab(rq, answer, now, timeout);
      gone := !got || answer != ResetTimer;
      todo' := todo + if gone then [] else [rq];
      assert seen + todo + [rq] == seen + (todo + [rq]);
      assert todo + [] == todo;
    }

    /** blk_rq_timed_out_timer: every expired request comes off the list once; a request whose timer is reset goes to the
        end of it. The walk ends, as a reset request is not expired; then nothing on the list has expired, and nothing that
        had not is lost. */
    method TimedOutTimer(answers: nat -> Answer, races: nat -> seq<nat>, now: int, timeout: nat)
      returns (next: Option<int>, ghost seen: seq<nat>, ghost gone: seq<nat>)
      requires Valid() && timeout > 0 && forall x :: x in list ==> x in deadline
      modifies this
      ensures Valid() && multiset(old(list)) == multiset(list) + multiset(gone)
      ensures forall x :: x in gone ==> x in old(deadline) && old(deadline)[x] <= now
      ensures forall x :: x in list ==> x in deadline && deadline[x] > now
      ensures seen <= list && IsEarliest(next, seen, deadline)
    {
      hide Books, NoDup, Walk, Expired, IsEarliest;
      ghost var all, d0 := list, deadline;
      var front, todo := [], list;
      next, gone := None, [];
      var k, more := 0, todo != [];
      WalkBegin(all, deadline, now);
      while more
        invariant Books(marked, entered, left, {}) && (more ==> todo != []) && list == front + todo
        invariant Walk(all, front, todo, gone, d0, deadline, now) && IsEarliest(next, front, deadline)
        invariant !more ==> forall x :: x in todo ==> x in deadline && deadline[x] > now
        decreases Expired(todo, deadline, now), |todo|
      {
        WalkHead(all, front, todo, gone, d0, deadline, now);
        var rq, rest := todo[0], todo[1..];
        more := rest != [];
        assert rest == [] ==> forall x :: x in rest + [rq] ==> x == rq;
        if deadline[rq] <= now {
          ghost var d, todo0 := deadline, todo;
          var taken: bool;
          todo, taken := Expire(rq, answers(rq), races(k), now, timeout, front, rest);
          WalkTake(all, front, todo0, todo, gone, taken, d0, d, deadline, now);
          EarliestSame(next, front, d, deadline);
          if taken { gone := gone + [rq]; }
        } else {
          EarliestMore(next, front, deadline, rq);
          WalkSkip(all, front, todo, gone, d0, deadline, now);
          if next == None || next.value > deadline[rq] { next := Some(deadline[rq]); }
          front, todo := front + [rq], rest;
        }
        k := k + 1;
      }
      TimerEnd(all, front, todo, gone, d0, deadline, now);
      seen := front;
    }
  }

  /** The walk of the timer: front has not expired, todo is to be looked at, gone has expired and left the list. */
  ghost predicate Walk(all: seq<nat>, front: seq<nat>, todo: seq<nat>, gone: seq<nat>, d0: map<nat, int>, d: map<nat, int>,
                       now: int)
  {
    && multiset(all) == Four(front, todo, [], gone)
    && (forall x :: x in front ==> x in d && d[x] > now)
    && (forall x :: x in todo ==> x in d)
    && (forall x :: x in gone ==> x in d0 && d0[x] <= now)
    && (forall x :: x in todo && x in d && d[x] <= now ==> x in d0 && d0[x] <= now)
  }

  lemma {:induction false} WalkBegin(all: seq<nat>, d: map<nat, int>, now: int)
    requires forall x :: x in all ==> x in d
    ensures Walk(all, [], all, [], d, d, now) && IsEarliest(None, [], d)
  {
  }

  lemma {:induction false} WalkHead(all: seq<nat>, front: seq<nat>, todo: seq<nat>, gone: seq<nat>, d0: map<nat, int>,
                                    d: map<nat, int>, now: int)
    requires Walk(all, front, todo, gone, d0, d, now) && NoDup(all) && todo != []
    ensures todo[0] in d && todo[0] !in front && todo[0] !in todo[1..]
    ensures forall x :: x in front ==> x in d
  {
    hide Four, NoDup;
    OnlyOnce(all, front, todo, gone);
  }

  lemma {:induction false} WalkSkip(all: seq<nat>, front: seq<nat>, todo: seq<nat>, gone: seq<nat>, d0: map<nat, int>,
                                    d: map<nat, int>, now: int)
    requires Walk(all, front, todo, gone, d0, d, now) && todo != [] && todo[0] in d && d[todo[0]] > now
    ensures Walk(all, front + [todo[0]], todo[1..], gone, d0, d, now)
    ensures Expired(todo[1..], d, now) == Expired(todo, d, now)
  {
    hide Four;
    Moves(front, todo, [], gone);
  }

  lemma {:induction false} WalkTake(all: seq<nat>, front: seq<nat>, todo: seq<nat>, todo': seq<nat>, gone: seq<nat>,
                                    taken: bool, d0: map<nat, int>, d: map<nat, int>, d': map<nat, int>, now: int)
    requires Walk(all, front, todo, gone, d0, d, now) && NoDup(all) && todo != [] && todo[0] in d && d[todo[0]] <= now
    requires todo' == todo[1..] + (if taken then [] else [todo[0]])
    requires todo[0] in d' && (!taken ==> d'[todo[0]] > now)
    requires forall x :: x in d && x != todo[0] ==> x in d' && d'[x] == d[x]
    ensures Walk(all, front, todo', if taken then gone + [todo[0]] else gone, d0, d', now)
    ensures Expired(todo', d', now) < Expired(todo, d, now)
  {
    hide Four, NoDup, Expired;
    Moves(front, todo, [], gone);
    OnlyOnce(all, front, todo, gone);
    assert todo[1..] + [] == todo[1..];
    ExpiredLess(todo[0], todo[1..], todo', d, d', now);
    assert [todo[0]] + todo[1..] == todo;
  }

  lemma {:induction false} TimerEnd(all: seq<nat>, front: seq<nat>, todo: seq<nat>, gone: seq<nat>, d0: map<nat, int>,
                                    d: map<nat, int>, now: int)
    requires NoDup(all) && Walk(all, front, todo, gone, d0, d, now) && forall x :: x in todo ==> x in d && d[x] > now
    ensures NoDup(front + todo) && multiset(all) == multiset(front + todo) + multiset(gone)
    ensures forall x :: x in gone ==> x in d0 && d0[x] <= now
    ensures forall x :: x in front + todo ==> x in d && d[x] > now
  {
    forall x: nat ensures multiset(front + todo)[x] <= 1 { assert multiset(all)[x] <= 1; }
  }

  ghost predicate IsEarliest(next: Option<int>, s: seq<nat>, deadline: map<nat, int>) {
    && (next == None <==> s == [])
    && (next.Some? ==> (exists x :: x in s && x in deadline && deadline[x] == next.value))
    && (next.Some? ==> forall x :: x in s && x in deadline ==> next.value <= deadline[x])
  }

  /** How many requests of a list have expired. */
  ghost function Expired(s: seq<nat>, deadline: map<nat, int>, now: int): nat {
    if s == [] then 0 else One(s[0] in deadline && deadline[s[0]] <= now) + Expired(s[1..], deadline, now)
  }

  lemma {:induction false} OnlyOnce(all: seq<nat>, front: seq<nat>, todo: seq<nat>, gone: seq<nat>)
    requires todo != [] && NoDup(all) && multiset(all) == Four(front, todo, [], gone)
    ensures todo[0] !in front && todo[0] !in todo[1..] && todo[0] !in gone
  {
    assert multiset(all)[todo[0]] <= 1;
    assert todo == [todo[0]] + todo[1..];
  }

  lemma {:induction false} ExpiredSame(s: seq<nat>, d: map<nat, int>, d': map<nat, int>, now: int)
    requires forall x :: x in s ==> x in d && x in d' && d[x] == d'[x]
    ensures Expired(s, d', now) == Expired(s, d, now)
  {
    if s != [] { ExpiredSame(s[1..], d, d', now); }
  }

  lemma {:induction false} ExpiredAppend(s: seq<nat>, x: nat, d: map<nat, int>, now: int)
    requires x in d && d[x] > now
    ensures Expired(s + [x], d, now) == Expired(s, d, now)
  {
    if s != [] {
      ExpiredAppend(s[1..], x, d, now);
      assert (s + [x])[1..] == s[1..] + [x];
    } else {
      assert (s + [x])[1..] == [];
    }
  }

  /** Taking an expired request off, and perhaps putting it back with a later deadline, leaves fewer expired ones. */
  lemma {:induction false} ExpiredLess(rq: nat, rest: seq<nat>, rest': seq<nat>, d: map<nat, int>, d': map<nat, int>, now: int)
    requires rq in d && d[rq] <= now && rq !in rest
    requires forall x :: x in rest ==> x in d
    requires rest' == rest || (rest' == rest + [rq] && rq in d' && d'[rq] > now)
    requires forall x :: x in d && x != rq ==> x in d' && d'[x] == d[x]
    ensures Expired(rest', d', now) < Expired([rq] + rest, d, now)
  {
    ExpiredSame(rest, d, d', now);
    if rest' != rest { ExpiredAppend(rest, rq, d', now); }
    assert ([rq] + rest)[1..] == rest;
  }

  lemma {:induction false} EarliestSame(next: Option<int>, s: seq<nat>, d: map<nat, int>, d': map<nat, int>)
    requires IsEarliest(next, s, d) && forall x :: x in s ==> x in d && x in d' && d[x] == d'[x]
    ensures IsEarliest(next, s, d')
  {
  }

  lemma {:induction false} EarliestMore(next: Option<int>, s: seq<nat>, d: map<nat, int>, rq: nat)
    requires IsEarliest(next, s, d) && rq in d
    ensures IsEarliest(if next == None || next.value > d[rq] then Some(d[rq]) else next, s + [rq], d)
  {}

  lemma {:induction false} Begin(all: seq<nat>, before: set<nat>, answers: nat -> Answer)
    ensures Four([], all, [], []) == multiset(all) && AllGone([], before, before, answers)
  {
  }

  lemma {:induction false} GoneMore(gone: seq<nat>, before: set<nat>, m: set<nat>, marked: set<nat>, answers: nat -> Answer,
                                    rq: nat)
    requires AllGone(gone, before, m, answers) && m <= marked
    ensures AllGone(gone, before, marked, answers)
    ensures rq !in before && rq in marked && answers(rq) != ResetTimer ==> AllGone(gone + [rq], before, marked, answers)
  {
  }

  lemma {:induction false} End(all: seq<nat>, kept: seq<nat>, back: seq<nat>, gone: seq<nat>)
    requires NoDup(all) && multiset(all) == Four(kept, [], back, gone)
    ensures NoDup(kept + back) && multiset(all) == multiset(kept + back) + multiset(gone)
  {
    forall x: nat ensures multiset(kept + back)[x] <= 1 { assert multiset(all)[x] <= 1; }
  }
}
