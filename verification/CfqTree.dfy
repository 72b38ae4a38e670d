/**
  The service tree of block/cfq-iosched.c: an rbtree of busy queues with a cached leftmost node.

  A tree is known by its in-order sequence and some shape; the rebalancing of the rbtree library changes the shape and
  keeps the order, so everything here holds for every shape.
 */
module CfqTree {

  datatype Class = RT | BE | IDLE {
    function Rank(): nat { match this case RT => 0 case BE => 1 case IDLE => 2 }
  }

  /** What the position of a queue depends on; key is its rb_key, an unsigned long. */
  datatype Slot = Slot(cls: Class, key: nat)

  const WORD: nat := 0x1_0000_0000_0000_0000

  /** time_before on jiffies-like counters, with their wrap-around. */
  predicate TimeBefore(a: nat, b: nat) {
    (a - b) % WORD >= WORD / 2
  }

  /** That is: the difference, brought into the range of a signed long, is negative. */
  lemma {:induction false} TimeBeforeSigned(a: nat, b: nat, d: int, turns: int)
    requires a - b == d + turns * WORD && -(WORD / 2) <= d < WORD / 2
    ensures TimeBefore(a, b) <==> d < 0
  {
    assert (a - b) % WORD == if d < 0 then d + WORD else d;
  }

  /** The comparison of cfq_service_tree_add, in the order of its branches: x goes to the left of y. */
  predicate GoesLeft(x: Slot, y: Slot) {
    if x.cls == RT && y.cls != RT then true
    else if x.cls != RT && y.cls == RT then false
    else if x.cls != IDLE && y.cls == IDLE then true
    else if x.cls == IDLE && y.cls != IDLE then false
    else TimeBefore(x.key, y.key)
  }

  datatype Tree = Leaf | Node(l: Tree, q: nat, r: Tree)

  function Inorder(t: Tree): seq<nat> {
    match t
    case Leaf => []
    case Node(l, q, r) => Inorder(l) + [q] + Inorder(r)
  }

  lemma KnownParts(t: Tree, at: seq<Slot>)
    requires t.Node? && Known(Inorder(t), at)
    ensures t.q < |at| && Known(Inorder(t.l), at) && Known(Inorder(t.r), at)
  {
    var a, b, s := Inorder(t.l), Inorder(t.r), Inorder(t);
    assert s[|a|] == t.q;
    forall k | 0 <= k < |a| ensures a[k] < |at| { assert a[k] == s[k]; }
    forall k | 0 <= k < |b| ensures b[k] < |at| { assert b[k] == s[|a| + 1 + k]; }
  }

  /** How many nodes lie before the place where the walk from the root ends. */
  function Place(t: Tree, at: seq<Slot>, x: Slot): nat
    requires Known(Inorder(t), at)
  {
    match t
    case Leaf => 0
    case Node(l, q, r) =>
      KnownParts(t, at);
      if GoesLeft(x, at[q]) then Place(l, at, x) else |Inorder(l)| + 1 + Place(r, at, x)
  }

  lemma {:induction false} PlaceBound(t: Tree, at: seq<Slot>, x: Slot)
    requires Known(Inorder(t), at)
    ensures Place(t, at, x) <= |Inorder(t)|
  {
    match t
    case Leaf =>
    case Node(l, q, r) =>
      KnownParts(t, at);
      PlaceBound(l, at, x);
      PlaceBound(r, at, x);
  }

  /** The walk of cfq_service_tree_add: left stays set exactly if the new node becomes the first one. */
  method Walk(t: Tree, at: seq<Slot>, x: Slot) returns (place: nat, left: bool)
    requires Known(Inorder(t), at)
    ensures place == Place(t, at, x) && place <= |Inorder(t)|
    ensures left <==> place == 0
  {
    PlaceBound(t, at, x);
    place, left := 0, true;
    var p := t;
    while p.Node?
      invariant Known(Inorder(p), at)
      invariant place + Place(p, at, x) == Place(t, at, x)
      invariant left <==> place == 0
      decreases p
    {
      KnownParts(p, at);
      if GoesLeft(x, at[p.q]) {
        p := p.l;
      } else {
        left := false;
        place := place + |Inorder(p.l)| + 1;
        p := p.r;
      }
    }
  }

  // ---------------------------------------------------------------- the order of the tree

  /** In service order nobody would go to the left of somebody before it. */
  ghost predicate InOrder(order: seq<nat>, at: seq<Slot>)
    requires Known(order, at)
  {
    forall i, j :: 0 <= i < j < |order| ==> !GoesLeft(at[order[j]], at[order[i]])
  }

  ghost predicate Known(order: seq<nat>, at: seq<Slot>) {
    forall i :: 0 <= i < |order| ==> order[i] < |at|
  }

  /** All keys lie within half of the counter's range, from base on. */
  predicate InWindow(base: nat, x: Slot) {
    x.key < WORD && base < WORD && (x.key - base) % WORD < WORD / 2
  }

  /** Inside a window time_before is the order of the distances from its base. */
  lemma TimeBeforeInWindow(base: nat, x: Slot, y: Slot)
    requires InWindow(base, x) && InWindow(base, y)
    ensures TimeBefore(x.key, y.key) <==> (x.key - base) % WORD < (y.key - base) % WORD
  {
    var dx, dy := (x.key - base) % WORD, (y.key - base) % WORD;
    ModDifference(x.key, y.key, base);
    if dx < dy {
      assert (dx - dy) % WORD == dx - dy + WORD;
    } else {
      assert (dx - dy) % WORD == dx - dy;
    }
  }

  lemma ModDifference(a: nat, b: nat, c: nat)
    requires a < WORD && b < WORD && c < WORD
    ensures (a - b) % WORD == ((a - c) % WORD - (b - c) % WORD) % WORD
  {}

  /** The service order sorts RT queues first, IDLE ones last, and then by service time. */
  lemma OrderMeaning(base: nat, x: Slot, y: Slot)
    requires InWindow(base, x) && InWindow(base, y)
    ensures GoesLeft(x, y) <==>
      x.cls.Rank() < y.cls.Rank() || (x.cls == y.cls && (x.key - base) % WORD < (y.key - base) % WORD)
  {
    TimeBeforeInWindow(base, x, y);
  }

  /** Nobody slips between: the two ways in which the order is transitive. */
  lemma OrderTransitive(base: nat, x: Slot, m: Slot, y: Slot)
    requires InWindow(base, x) && InWindow(base, m) && InWindow(base, y)
    ensures GoesLeft(x, m) && !GoesLeft(y, m) ==> GoesLeft(x, y)
    ensures !GoesLeft(x, m) && !GoesLeft(m, y) ==> !GoesLeft(x, y)
  {
    hide GoesLeft;
    OrderMeaning(base, x, m);
    OrderMeaning(base, y, m);
    OrderMeaning(base, x, y);
    OrderMeaning(base, m, y);
  }

  /** A slot that changes at one place leaves the order as it is exactly if it still fits between its two neighbours. */
  lemma {:induction false} NeighboursKeepOrder(order: seq<nat>, at: seq<Slot>, at': seq<Slot>, i: nat, base: nat)
    requires i < |order| && Known(order, at) && |at'| == |at| && forall k :: 0 <= k < |at| && k != order[i] ==> at'[k] == at[k]
    requires forall j :: 0 <= j < |order| && j != i ==> order[j] != order[i]
    requires AllInWindow(order, at, base) && AllInWindow(order, at', base) && InOrder(order, at)
    ensures InOrder(order, at') <==>
      && (i > 0 ==> !GoesLeft(at'[order[i]], at'[order[i - 1]]))
      && (i + 1 < |order| ==> !GoesLeft(at'[order[i + 1]], at'[order[i]]))
  {
    hide GoesLeft, InWindow;
    var x := at'[order[i]];
    if (i > 0 ==> !GoesLeft(x, at'[order[i - 1]])) && (i + 1 < |order| ==> !GoesLeft(at'[order[i + 1]], x)) {
      forall j, k | 0 <= j < k < |order| ensures !GoesLeft(at'[order[k]], at'[order[j]]) {
        if k == i && j < i - 1 {
          OrderTransitive(base, x, at'[order[i - 1]], at'[order[j]]);
        } else if j == i && k > i + 1 {
          OrderTransitive(base, at'[order[k]], at'[order[i + 1]], x);
        }
      }
    }
  }

  function InsertAt<T>(s: seq<T>, i: nat, x: T): seq<T>
    requires i <= |s|
  {
    s[..i] + [x] + s[i..]
  }

  /** Everything before the place is not later than x, everything from it on is later. */
  ghost predicate Splits(order: seq<nat>, at: seq<Slot>, i: nat, x: Slot)
    requires Known(order, at)
  {
    && i <= |order|
    && (forall k :: 0 <= k < i ==> !GoesLeft(x, at[order[k]]))
    && (forall k :: i <= k < |order| ==> GoesLeft(x, at[order[k]]))
  }

  ghost predicate AllInWindow(order: seq<nat>, at: seq<Slot>, base: nat)
    requires Known(order, at)
  {
    forall i :: 0 <= i < |order| ==> InWindow(base, at[order[i]])
  }

  lemma {:induction false} PlaceSplits(t: Tree, at: seq<Slot>, x: Slot, base: nat)
    requires Known(Inorder(t), at) && AllInWindow(Inorder(t), at, base)
    requires InWindow(base, x) && InOrder(Inorder(t), at)
    ensures Splits(Inorder(t), at, Place(t, at, x), x)
  {
    hide GoesLeft, InWindow;
    match t
    case Leaf =>
    case Node(l, q, r) =>
      var a, b, s := Inorder(l), Inorder(r), Inorder(t);
      assert forall k :: 0 <= k < |a| ==> s[k] == a[k];
      assert s[|a|] == q;
      assert forall k :: 0 <= k < |b| ==> s[|a| + 1 + k] == b[k];
      var m := at[q];
      if GoesLeft(x, m) {
        PlaceSplits(l, at, x, base);
        forall k | |a| <= k < |s| ensures GoesLeft(x, at[s[k]]) {
          OrderTransitive(base, x, m, at[s[k]]);
        }
        forall k | Place(l, at, x) <= k < |a| ensures GoesLeft(x, at[s[k]]) {
          assert s[k] == a[k];
        }
      } else {
        assert InOrder(b, at) && AllInWindow(b, at, base) by { RightPart(s, b, |a| + 1, at, base); }
        PlaceSplits(r, at, x, base);
        var i := Place(r, at, x);
        forall k | 0 <= k < |a| + 1 + i ensures !GoesLeft(x, at[s[k]]) {
          if k < |a| { OrderTransitive(base, x, m, at[s[k]]); }
          else if |a| < k { assert s[k] == b[k - |a| - 1]; }
        }
        forall k | |a| + 1 + i <= k < |s| ensures GoesLeft(x, at[s[k]]) {
          assert s[k] == b[k - |a| - 1];
        }
      }
  }

  lemma RightPart(s: seq<nat>, b: seq<nat>, n: nat, at: seq<Slot>, base: nat)
    requires n <= |s| && b == s[n..] && Known(s, at) && InOrder(s, at) && AllInWindow(s, at, base)
    ensures Known(b, at) && InOrder(b, at) && AllInWindow(b, at, base)
  {}

  /** Adding a queue keeps the tree in service order, whatever shape the rebalancing has left it in. */
  lemma AddKeepsOrder(t: Tree, at: seq<Slot>, q: nat, base: nat)
    requires Known(Inorder(t), at) && AllInWindow(Inorder(t), at, base) && InOrder(Inorder(t), at)
    requires q < |at| && InWindow(base, at[q])
    ensures Place(t, at, at[q]) <= |Inorder(t)|
    ensures var s := InsertAt(Inorder(t), Place(t, at, at[q]), q); Known(s, at) && AllInWindow(s, at, base) && InOrder(s, at)
  {
    hide GoesLeft, InWindow, Place, InOrder, Splits, AllInWindow;
    PlaceSplits(t, at, at[q], base);
    InsertSplit(Inorder(t), at, Place(t, at, at[q]), q, base);
  }

  lemma InsertSplit(s: seq<nat>, at: seq<Slot>, i: nat, q: nat, base: nat)
    requires Known(s, at) && AllInWindow(s, at, base) && InOrder(s, at)
    requires q < |at| && InWindow(base, at[q]) && Splits(s, at, i, at[q])
    ensures i <= |s|
    ensures var s' := InsertAt(s, i, q); Known(s', at) && AllInWindow(s', at, base) && InOrder(s', at)
  {
    hide GoesLeft, InWindow;
    var s' := InsertAt(s, i, q);
    assert forall k :: 0 <= k < |s'| ==> s'[k] == if k < i then s[k] else if k == i then q else s[k - 1];
    forall k | 0 <= k < |s'| ensures s'[k] < |at| && InWindow(base, at[s'[k]]) {}
    forall j, k | 0 <= j < k < |s'| ensures !GoesLeft(at[s'[k]], at[s'[j]]) {
      if j == i { Asymmetric(base, at[q], at[s'[k]]); }
    }
  }

  lemma Asymmetric(base: nat, x: Slot, y: Slot)
    requires InWindow(base, x) && InWindow(base, y) && GoesLeft(x, y)
    ensures !GoesLeft(y, x)
  {
    OrderMeaning(base, x, y);
    OrderMeaning(base, y, x);
  }

  /** A slot is placed first exactly if it goes to the left of the first node. */
  lemma {:induction false} PlacedFirst(t: Tree, at: seq<Slot>, x: Slot, base: nat)
    requires Known(Inorder(t), at) && AllInWindow(Inorder(t), at, base) && InOrder(Inorder(t), at) && InWindow(base, x)
    ensures Place(t, at, x) == 0 <==> Inorder(t) == [] || GoesLeft(x, at[Inorder(t)[0]])
  {
    hide Place, GoesLeft, InWindow, InOrder, AllInWindow;
    PlaceSplits(t, at, x, base);
  }
}
