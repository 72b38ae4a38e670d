/**
  What the schedulers share: requests, and the sorted request lists that elv_rb_add, elv_rb_del and
  elv_rb_find of block/elevator.c keep in an rbtree.
 */
module Elevator {
  import opened Wrappers

  datatype Dir = Async | Sync {
    function Other(): Dir { if Sync? then Async else Sync }
  }

  /** A pair of fields indexed by BLK_RW_ASYNC and BLK_RW_SYNC. */
  datatype PerDir<T> = PerDir(async: T, sync: T) {
    function Get(d: Dir): T { if d.Sync? then sync else async }
    function Set(d: Dir, v: T): PerDir<T> { if d.Sync? then PerDir(async, v) else PerDir(v, sync) }
  }

  /** A request as a scheduler sees it; id stands for its address, dir for rq_is_sync, meta for rq_is_meta, and ioc for
      the io_context of its process. */
  datatype Request = Request(id: nat, dir: Dir, meta: bool, pos: nat, sectors: nat, ioc: Option<nat>) {
    function End(): nat { pos + sectors }
  }

  ghost predicate Sorted(l: seq<Request>) {
    forall i, j :: 0 <= i < j < |l| ==> l[i].pos < l[j].pos
  }

  function Without(l: seq<Request>, i: nat): seq<Request>
    requires i < |l|
  {
    l[..i] + l[i + 1..]
  }

  function HasPos(l: seq<Request>, pos: nat): bool {
    exists i :: 0 <= i < |l| && l[i].pos == pos
  }

  /** The request that elv_rb_add finds at a sector. */
  function AtPos(l: seq<Request>, pos: nat): (r: Option<Request>)
    ensures r == None <==> !HasPos(l, pos)
    ensures r.Some? ==> r.value in l && r.value.pos == pos
  {
    if l == [] then None
    else if l[0].pos == pos then Some(l[0])
    else AtPos(l[1..], pos)
  }

  lemma NotAtPos(l: seq<Request>, rq: Request)
    requires rq in l
    ensures HasPos(l, rq.pos)
  {}

  /** elv_rb_add in a tree without a request at the same sector. */
  function Insert(l: seq<Request>, rq: Request): (l': seq<Request>)
    ensures |l'| == |l| + 1
    ensures multiset(l') == multiset(l) + multiset{rq}
  {
    if l == [] || rq.pos < l[0].pos then [rq] + l
    else
      assert l == [l[0]] + l[1..];
      [l[0]] + Insert(l[1..], rq)
  }

  lemma InsertHas(l: seq<Request>, rq: Request, x: Request)
    ensures x in Insert(l, rq) <==> x in l || x == rq
  {}

  lemma {:induction false} InsertSorted(l: seq<Request>, rq: Request)
    requires Sorted(l) && !HasPos(l, rq.pos)
    ensures Sorted(Insert(l, rq))
    ensures forall x :: x in Insert(l, rq) <==> x in l || x == rq
  {
    forall x ensures x in Insert(l, rq) <==> x in l || x == rq {
      InsertHas(l, rq, x);
    }
    if l != [] && l[0].pos < rq.pos {
      var t := l[1..];
      InsertSorted(t, rq);
      PrependSorted(l[0], Insert(t, rq), l, rq);
    }
  }

  lemma PrependSorted(h: Request, t: seq<Request>, l: seq<Request>, rq: Request)
    requires Sorted(l) && l != [] && h == l[0] && h.pos < rq.pos && Sorted(t)
    requires forall x :: x in t ==> x in l[1..] || x == rq
    ensures Sorted([h] + t)
  {
    forall i | 0 <= i < |t| ensures h.pos < t[i].pos {
      assert t[i] in t;
    }
  }

  function IndexOf(l: seq<Request>, rq: Request): (i: nat)
    requires rq in l
    ensures i < |l| && l[i] == rq
  {
    if l[0] == rq then 0 else 1 + IndexOf(l[1..], rq)
  }

  lemma DistinctPos(l: seq<Request>, x: Request, y: Request)
    requires Sorted(l) && x in l && y in l && x != y
    ensures x.pos != y.pos
  {}

  function Remove(l: seq<Request>, rq: Request): seq<Request>
    requires rq in l
  {
    Without(l, IndexOf(l, rq))
  }

  lemma RemoveContents(l: seq<Request>, rq: Request)
    requires rq in l
    ensures multiset(Remove(l, rq)) == multiset(l) - multiset{rq}
    ensures |Remove(l, rq)| == |l| - 1
  {
    var i := IndexOf(l, rq);
    assert l == l[..i] + [l[i]] + l[i + 1..];
  }

  lemma RemoveSorted(l: seq<Request>, rq: Request)
    requires rq in l && Sorted(l)
    ensures Sorted(Remove(l, rq))
    ensures forall x :: x in Remove(l, rq) <==> x in l && x != rq
  {}
}
