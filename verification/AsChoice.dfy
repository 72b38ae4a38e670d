/**
  How the anticipatory scheduler of block/as-iosched.c picks a request: as_choose_req compares
  two requests, and as_find_next_rq looks only at the neighbours of the request being removed.
 */
module AsChoice {
  import opened Elevator
  import opened Wrappers
  import opened Seek

  const MAXBACK: nat := 1024 * 1024
  const BACK_PENALTY: nat := 2

  /** The request lies so far behind the head that the elevator has to wrap around for it. */
  predicate Wraps(last: nat, s: nat) {
    s < last && s + MAXBACK < last
  }

  function Cost(last: nat, s: nat): nat {
    if s >= last then s - last else if s + MAXBACK >= last then (last - s) * BACK_PENALTY else 0
  }

  /** as_choose_req, with last_sector[data_dir] passed in. */
  function ChooseReq(last: nat, rq1: Option<Request>, rq2: Option<Request>): Option<Request> {
    if rq1 == None || rq1 == rq2 then rq2
    else if rq2 == None then rq1
    else
      var (s1, s2) := (rq1.value.pos, rq2.value.pos);
      var (d1, d2) := (Cost(last, s1), Cost(last, s2));
      if !Wraps(last, s1) && Wraps(last, s2) then rq1
      else if !Wraps(last, s2) && Wraps(last, s1) then rq2
      else if Wraps(last, s1) && Wraps(last, s2) then (if s1 <= s2 then rq1 else rq2)
      else if d1 < d2 then rq1
      else if d2 < d1 then rq2
      else if s1 >= s2 then rq1 else rq2
  }

  /** a is taken when it is offered against b. */
  predicate Beats(last: nat, a: Request, b: Request) {
    ChooseReq(last, Some(a), Some(b)) == Some(a)
  }

  /** What as_choose_req decides: the request that is sooner, going back at most 1024 * 1024 sectors and counting them twice; the
      other one if one is missing. */
  lemma {:induction false} ChooseMeans(last: nat, a: Request, b: Request)
    requires a.pos != b.pos
    ensures ChooseReq(last, Some(a), Some(b)) == if Sooner(Style(0x10_0000, 2), last, a.pos, b.pos) then Some(a) else Some(b)
    ensures ChooseReq(last, Some(a), None) == ChooseReq(last, None, Some(a)) == ChooseReq(last, Some(a), Some(a)) == Some(a)
    ensures ChooseReq(last, None, None) == None
  {}

  /** Among requests with different start sectors as_choose_req is a strict total order,
      and it does not matter in which order the two are offered. */
  lemma ChooseIsTotalOrder(last: nat, a: Request, b: Request, c: Request)
    requires a.pos != b.pos && b.pos != c.pos && a.pos != c.pos
    ensures Beats(last, a, b) <==> !Beats(last, b, a)
    ensures ChooseReq(last, Some(a), Some(b)) == ChooseReq(last, Some(b), Some(a))
    ensures Beats(last, a, b) && Beats(last, b, c) ==> Beats(last, a, c)
  {
  }

  /** r is the choice over the whole list, and nothing exactly when the list is empty. */
  ghost predicate Best(last: nat, l: seq<Request>, r: Option<Request>) {
    && (r == None <==> l == [])
    && (r.Some? ==> r.value in l && forall x :: x in l ==> Beats(last, r.value, x))
  }

  /** Whether a request is the best of its sorted list can be seen from those next to it. */
  lemma {:induction false} BestIsHere(last: nat, l: seq<Request>, k: nat)
    requires Sorted(l) && k < |l|
    ensures Best(last, l, Some(l[k])) <==> FirstHere(Style(0x10_0000, 2), last, l, k)
  {
    hide ChooseReq, Sooner, FirstHere;
    FirstIsHere(Style(0x10_0000, 2), last, l, k);
    forall j | 0 <= j < |l| && j != k ensures Beats(last, l[k], l[j]) <==> Sooner(Style(0x10_0000, 2), last, l[k].pos, l[j].pos) {
      ChooseMeans(last, l[k], l[j]);
    }
    ChooseSelf(last, l[k]);
    assert forall j :: 0 <= j < |l| ==> l[j] in l;
  }

  lemma {:induction false} ChooseSelf(last: nat, a: Request)
    ensures Beats(last, a, a)
  {}

  /** There is one best request. */
  lemma BestIsUnique(last: nat, l: seq<Request>, r: Option<Request>, r': Option<Request>)
    requires Sorted(l) && Best(last, l, r) && Best(last, l, r')
    ensures r == r'
  {}

  /** as_find_next_rq for the request at index i of the sorted list. */
  function FindNext(last: nat, l: seq<Request>, i: nat): Option<Request>
    requires i < |l|
  {
    var prev := if i > 0 then Some(l[i - 1]) else None;
    var next := if i + 1 < |l| then Some(l[i + 1]) else if i > 0 then Some(l[0]) else None;
    ChooseReq(last, next, prev)
  }

  /** Where the two neighbours are all that matters, by the sectors alone. The request does not reach into its successor. Or
      the successor lies behind the new head, and whatever follows it is more than twice as far ahead. Or the elevator has
      to wrap around for everything, and nothing stands before the predecessor. */
  predicate NeighboursDecide(l: seq<Request>, i: nat)
    requires i < |l|
  {
    var last := l[i].End();
    i + 1 < |l| && l[i + 1].pos < last ==>
      if Wraps(last, l[i + 1].pos) then i <= 1 && Wraps(last, l[|l| - 1].pos)
      else i + 2 < |l| ==> l[i + 2].pos > last + BACK_PENALTY * (last - l[i + 1].pos)
  }

  lemma FindNextIsNeighbour(last: nat, l: seq<Request>, i: nat)
    requires i < |l|
    ensures FindNext(last, l, i) == None <==> |l| == 1
    ensures |l| > 1 ==> FindNext(last, l, i).value in Without(l, i)
  {}

  lemma {:induction false} FindNextBeatsBefore(l: seq<Request>, i: nat, j: nat)
    requires Sorted(l) && j < i < |l|
    requires NeighboursDecide(l, i)
    ensures Beats(l[i].End(), FindNext(l[i].End(), l, i).value, l[j])
  {}

  lemma {:induction false} FindNextBeatsAfter(l: seq<Request>, i: nat, j: nat)
    requires Sorted(l) && i < j < |l|
    requires NeighboursDecide(l, i)
    ensures Beats(l[i].End(), FindNext(l[i].End(), l, i).value, l[j])
  {
    var last := l[i].End();
    assert l[i].pos < l[i + 1].pos <= l[j].pos <= l[|l| - 1].pos;
    if i > 0 { assert l[i - 1].pos < l[i].pos; }
    if j > i + 1 { assert l[i + 1].pos < l[i + 2].pos <= l[j].pos; }
  }

  lemma NeighboursSuffice(l: seq<Request>, i: nat)
    requires Sorted(l) && i < |l| && NeighboursDecide(l, i)
    ensures Best(l[i].End(), Without(l, i), FindNext(l[i].End(), l, i))
  {
    hide NeighboursDecide, Beats, FindNext;
    var (last, rest) := (l[i].End(), Without(l, i));
    FindNextIsNeighbour(last, l, i);
    forall x | x in rest ensures |l| > 1 && Beats(last, FindNext(last, l, i).value, x) {
      var k :| 0 <= k < |rest| && rest[k] == x;
      if k < i { FindNextBeatsBefore(l, i, k); } else { FindNextBeatsAfter(l, i, k + 1); }
    }
  }

  lemma NeighboursNeeded(l: seq<Request>, i: nat)
    requires Sorted(l) && i < |l| && !NeighboursDecide(l, i)
    ensures !Best(l[i].End(), Without(l, i), FindNext(l[i].End(), l, i))
  {
    var (last, rest) := (l[i].End(), Without(l, i));
    var r := FindNext(last, l, i).value;
    if i + 2 < |l| {
      assert rest[i + 1] == l[i + 2] && rest[|rest| - 1] == l[|l| - 1];
      assert l[i + 1].pos < l[i + 2].pos <= l[|l| - 1].pos;
    }
    if i > 0 { assert rest[0] == l[0] && l[0].pos <= l[i - 1].pos < l[i].pos; }
    if !Wraps(last, l[i + 1].pos) {
      assert !Beats(last, r, l[i + 2]);
    } else if !Wraps(last, l[|l| - 1].pos) {
      assert !Beats(last, r, l[|l| - 1]);
    } else {
      assert l[0].pos < l[i - 1].pos && !Beats(last, r, l[0]);
    }
  }

  /** After the head has moved to the end of the removed request, its neighbours give the choice
      over everything that stays queued: exactly when NeighboursDecide. */
  lemma FindNextIsBest(l: seq<Request>, i: nat)
    requires Sorted(l) && i < |l|
    ensures Best(l[i].End(), Without(l, i), FindNext(l[i].End(), l, i)) <==> NeighboursDecide(l, i)
  {
    hide Best, NeighboursDecide, FindNext;
    if NeighboursDecide(l, i) { NeighboursSuffice(l, i); } else { NeighboursNeeded(l, i); }
  }

  /** No queued request reaches into a later one. */
  ghost predicate Apart(l: seq<Request>) {
    forall i, j :: 0 <= i < j < |l| ==> l[i].End() <= l[j].pos
  }

  lemma ApartDecides(l: seq<Request>, i: nat)
    requires Apart(l) && i < |l|
    ensures NeighboursDecide(l, i) && Apart(Without(l, i))
  {}

  /** Where a queued request reaches into its successor the neighbours can mislead: the head ends
      at sector 100, where a request waits, yet the request at sector 10 is taken. */
  lemma OverlapMisleads()
    ensures var l := [Request(0, Sync, false, 0, 100, None), Request(1, Sync, false, 10, 8, None), Request(2, Sync, false, 100, 8, None)];
      && Sorted(l)
      && FindNext(l[0].End(), l, 0) == Some(l[1])
      && !Best(l[0].End(), Without(l, 0), FindNext(l[0].End(), l, 0))
  {
    var l := [Request(0, Sync, false, 0, 100, None), Request(1, Sync, false, 10, 8, None), Request(2, Sync, false, 100, 8, None)];
    assert Without(l, 0)[1] == l[2] && !Beats(100, l[1], l[2]);
  }

  /** A new request keeps the cache best if it is compared with the cached one alone. */
  lemma ChooseKeepsBest(last: nat, l: seq<Request>, r: Option<Request>, rq: Request, l': seq<Request>)
    requires Best(last, l, r) && forall x :: x in l ==> x.pos != rq.pos
    requires l' != [] && forall x :: x in l' <==> x in l || x == rq
    requires forall x, y :: x in l && y in l && x != y ==> x.pos != y.pos
    ensures Best(last, l', ChooseReq(last, Some(rq), r))
  {}
}
