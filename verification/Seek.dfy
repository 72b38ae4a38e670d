/**
  Which of several requests is to be served next, by their sectors and the place of the head: what the comparisons of the
  schedulers are meant to decide, and how little of a sorted list one has to look at to know its first request.
 */
module Seek {
  import opened Elevator

  /** How a scheduler seeks: how many sectors it goes back at most, and how much more a seek back costs. */
  datatype Style = Style(reach: nat, penalty: nat)

  /** The request at sector a is served before the one at sector b, with the head at last. Of two ahead the nearer one is.
      One that lies behind but within reach counts as farther away, by the penalty. One out of reach comes after all others,
      and of two such the lower one is first. */
  predicate Sooner(y: Style, last: nat, a: nat, b: nat) {
    if last <= a && last <= b then a < b
    else if last <= a then b + y.reach < last || a - last <= y.penalty * (last - b)
    else if last <= b then last <= a + y.reach && y.penalty * (last - a) < b - last
    else if last <= a + y.reach && last <= b + y.reach then a > b
    else if last <= a + y.reach || last <= b + y.reach then last <= a + y.reach
    else a < b
  }

  /** Among different sectors this is a strict total order. */
  lemma {:induction false} SoonerOrder(y: Style, last: nat, a: nat, b: nat, c: nat)
    requires a != b && b != c && a != c
    ensures Sooner(y, last, a, b) <==> !Sooner(y, last, b, a)
    ensures Sooner(y, last, a, b) && Sooner(y, last, b, c) ==> Sooner(y, last, a, c)
  {
    Farther(y.penalty, last, a, b);
    Farther(y.penalty, last, b, c);
    Farther(y.penalty, last, a, c);
    Farther(y.penalty, last, b, a);
    Farther(y.penalty, last, c, b);
    Farther(y.penalty, last, c, a);
  }

  lemma {:induction false} Farther(penalty: nat, last: nat, a: nat, b: nat)
    ensures a <= b <= last ==> penalty * (last - b) <= penalty * (last - a)
  {
    if a <= b <= last { Times(penalty, last - b, last - a); }
  }

  lemma {:induction false} Times(p: nat, x: nat, y: nat)
    requires x <= y
    ensures p * x <= p * y
  {}

  /** Request k is served before all others of the list. */
  ghost predicate First(y: Style, last: nat, l: seq<Request>, k: nat) {
    k < |l| && forall j :: 0 <= j < |l| && j != k ==> Sooner(y, last, l[k].pos, l[j].pos)
  }

  /** The same, by a look at the requests next to it, and at the last one of the list if it is out of reach. */
  predicate FirstHere(y: Style, last: nat, l: seq<Request>, k: nat) {
    k < |l| &&
    var s := l[k].pos;
    if last <= s then k == 0 || (l[k - 1].pos < last && (l[k - 1].pos + y.reach < last || s - last <= y.penalty * (last - l[k - 1].pos)))
    else if last <= s + y.reach then k + 1 < |l| ==> l[k + 1].pos > last + y.penalty * (last - s)
    else k == 0 && l[|l| - 1].pos + y.reach < last
  }

  /** In a sorted list that is enough. */
  lemma {:induction false} FirstIsHere(y: Style, last: nat, l: seq<Request>, k: nat)
    requires Sorted(l)
    ensures First(y, last, l, k) <==> FirstHere(y, last, l, k)
  {
    hide Sooner;
    if FirstHere(y, last, l, k) {
      forall j | 0 <= j < |l| && j != k ensures Sooner(y, last, l[k].pos, l[j].pos) {
        if j < k { HereBefore(y, last, l, k, j); } else { HereAfter(y, last, l, k, j); }
      }
    } else if k < |l| {
      NotHere(y, last, l, k);
    }
  }

  lemma {:induction false} HereBefore(y: Style, last: nat, l: seq<Request>, k: nat, j: nat)
    requires Sorted(l) && j < k < |l| && FirstHere(y, last, l, k)
    ensures Sooner(y, last, l[k].pos, l[j].pos)
  {
    assert l[j].pos <= l[k - 1].pos < l[k].pos;
    Farther(y.penalty, last, l[j].pos, l[k - 1].pos);
  }

  lemma {:induction false} HereAfter(y: Style, last: nat, l: seq<Request>, k: nat, j: nat)
    requires Sorted(l) && k < j < |l| && FirstHere(y, last, l, k)
    ensures Sooner(y, last, l[k].pos, l[j].pos)
  {
    assert l[k].pos < l[k + 1].pos <= l[j].pos <= l[|l| - 1].pos;
  }

  /** Where the look fails, one of those requests comes before. */
  lemma {:induction false} NotHere(y: Style, last: nat, l: seq<Request>, k: nat)
    requires Sorted(l) && k < |l| && !FirstHere(y, last, l, k)
    ensures !First(y, last, l, k)
  {
    var s := l[k].pos;
    if last <= s {
      assert !Sooner(y, last, s, l[k - 1].pos);
    } else if last <= s + y.reach {
      assert !Sooner(y, last, s, l[k + 1].pos) by {
        assert l[k].pos < l[k + 1].pos;
        Farther(y.penalty, last, l[k].pos, l[k + 1].pos);
      }
    } else if k > 0 {
      assert l[0].pos < l[k].pos && !Sooner(y, last, s, l[0].pos);
    } else {
      assert !Sooner(y, last, s, l[|l| - 1].pos);
    }
  }
}
