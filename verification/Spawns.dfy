/**
  The removal of an algorithm and of everything built on it (crypto_remove_alg and crypto_remove_spawns of
  crypto/algapi.c, without a replacement algorithm).

  A spawn links an algorithm to an instance built on it. The walk keeps no marks: it moves spawns between lists, and
  the list it works on is the users list of the instance of the spawn it moved last.
 */
module Spawns {
  import opened Wrappers

  const ENOENT := 2

  /** Algorithms and spawns are named by their addresses: users lists the spawns on an algorithm, inst is the instance of
      a spawn. */
  datatype Graph = Graph(users: map<nat, seq<nat>>, inst: map<nat, nat>)

  predicate NoDup(s: seq<nat>) { forall i, j :: 0 <= i < j < |s| ==> s[i] != s[j] }

  /** A spawn is on one list only, once. */
  ghost predicate GraphOk(g: Graph) {
    && (forall a :: a in g.users ==> NoDup(g.users[a]))
    && (forall a, s :: a in g.users && s in g.users[a] ==> s in g.inst && g.inst[s] in g.users)
    && (forall a, b, s :: a in g.users && b in g.users && s in g.users[a] && s in g.users[b] ==> a == b)
  }

  /** b is an instance built directly on a. */
  ghost predicate Edge(g: Graph, a: nat, b: nat) {
    exists s :: a in g.users && s in g.users[a] && s in g.inst && g.inst[s] == b
  }

  ghost predicate Path(g: Graph, p: seq<nat>) {
    |p| > 1 && forall i :: 0 <= i < |p| - 1 ==> Edge(g, p[i], p[i + 1])
  }

  /** b is built on a, directly or through other instances. */
  ghost predicate Reaches(g: Graph, a: nat, b: nat) {
    exists p :: Path(g, p) && p[0] == a && p[|p| - 1] == b
  }

  lemma ReachesEdge(g: Graph, a: nat, b: nat)
    requires Edge(g, a, b)
    ensures Reaches(g, a, b)
  {
    var p := [a, b];
    assert Path(g, p) && p[0] == a && p[|p| - 1] == b;
  }

  lemma ReachesFurther(g: Graph, a: nat, b: nat, c: nat)
    requires Reaches(g, a, b) && Edge(g, b, c)
    ensures Reaches(g, a, c)
  {
    hide Edge;
    var p :| Path(g, p) && p[0] == a && p[|p| - 1] == b;
    var q := p + [c];
    assert Path(g, q) && q[0] == a && q[|q| - 1] == c;
  }

  /** A set that holds everything built directly on a, and on its own members, holds everything a reaches. */
  lemma ClosedHolds(g: Graph, a: nat, b: nat, v: set<nat>)
    requires forall x :: Edge(g, a, x) ==> x in v
    requires forall x, y :: x in v && Edge(g, x, y) ==> y in v
    requires Reaches(g, a, b)
    ensures b in v
  {
    hide Edge;
    var p :| Path(g, p) && p[0] == a && p[|p| - 1] == b;
    PathStays(g, p, v, |p| - 1);
  }

  lemma {:induction false} PathStays(g: Graph, p: seq<nat>, v: set<nat>, k: nat)
    requires Path(g, p) && 0 < k < |p|
    requires forall x :: Edge(g, p[0], x) ==> x in v
    requires forall x, y :: x in v && Edge(g, x, y) ==> y in v
    ensures p[k] in v
  {
    hide Edge;
    if k > 1 { PathStays(g, p, v, k - 1); }
    assert Edge(g, p[k - 1], p[k - 1 + 1]);
  }

  // ---------------------------------------------------------------- the walk

  /** The list the walk works on. */
  datatype ListHead = Top | Users(alg: nat)

  /** The lists of the walk. */
  datatype Walk = Walk(users: map<nat, seq<nat>>, top: seq<nat>, stack: seq<nat>, secondary: seq<nat>) {

    /** The spawn was taken off its list. */
    predicate Moved(s: nat) { s in stack || s in secondary }

    function At(h: ListHead): seq<nat>
      requires h.Users? ==> h.alg in users
    {
      if h.Top? then top else users[h.alg]
    }

    /** list_move of the first spawn of a list to the stack */
    function Push(h: ListHead): Walk
      requires (h.Users? ==> h.alg in users) && At(h) != []
    {
      if h.Top? then this.(top := top[1..], stack := [top[0]] + stack)
      else this.(users := users[h.alg := users[h.alg][1..]], stack := [users[h.alg][0]] + stack)
    }

    /** list_move of the top of the stack to the secondary list */
    function Pop(): Walk
      requires stack != []
    {
      this.(stack := stack[1..], secondary := [stack[0]] + secondary)
    }

    /** The users list of the instance on top of the stack, or the list of the removed algorithm's own users. */
    function Head(inst: map<nat, nat>): ListHead
      requires stack != [] ==> stack[0] in inst
    {
      if stack == [] then Top else Users(inst[stack[0]])
    }
  }

  /** What is left of a list is part of it, and has not been moved. */
  ghost predicate Rest(w: Walk, rest: seq<nat>, all: seq<nat>) {
    && NoDup(rest)
    && (forall s :: s in rest ==> s in all)
    && (forall s :: s in rest ==> !w.Moved(s))
  }

  ghost predicate Sub(g: Graph, alg: nat, w: Walk) {
    && w.users.Keys == g.users.Keys && alg in g.users && w.users[alg] == []
    && (forall a :: a in w.users ==> Rest(w, w.users[a], g.users[a]))
    && Rest(w, w.top, g.users[alg])
  }

  /** Nothing disappears: a spawn leaves its list only through the stack. */
  ghost predicate Kept(g: Graph, alg: nat, w: Walk)
    requires Sub(g, alg, w)
  {
    && (forall a, s :: a in g.users && a != alg && s in g.users[a] && !w.Moved(s) ==> s in w.users[a])
    && (forall s :: s in g.users[alg] && !w.Moved(s) ==> s in w.top)
  }

  /** The instances of the spawns that were moved are built on the algorithm, and only lists of such instances change. */
  ghost predicate Sound(g: Graph, alg: nat, w: Walk)
    requires Sub(g, alg, w)
  {
    && (forall s :: w.Moved(s) ==> s in g.inst && g.inst[s] in g.users && Reaches(g, alg, g.inst[s]))
    && (forall a :: a in g.users && a != alg && !Reaches(g, alg, a) ==> w.users[a] == g.users[a])
    && (forall a, s :: a in g.users && s in g.users[a] && w.Moved(s) ==> a == alg || Reaches(g, alg, a))
  }

  /** Spawns off the stack are explored: their instances have no users left. */
  ghost predicate Explored(g: Graph, w: Walk) {
    && NoDup(w.stack + w.secondary)
    && (forall s :: s in w.secondary ==> s in g.inst && g.inst[s] in w.users && w.users[g.inst[s]] == [])
  }

  ghost predicate WalkOk(g: Graph, alg: nat, w: Walk) {
    Sub(g, alg, w) && Kept(g, alg, w) && Sound(g, alg, w) && Explored(g, w)
  }

  /** The list the walk works on belongs to the algorithm or to an instance built on it, and so do its spawns. */
  lemma HeadOk(g: Graph, alg: nat, w: Walk)
    requires GraphOk(g) && WalkOk(g, alg, w)
    ensures w.stack != [] ==> w.stack[0] in g.inst && g.inst[w.stack[0]] in w.users && w.Moved(w.stack[0])
    ensures w.stack != [] ==> Reaches(g, alg, g.inst[w.stack[0]])
  {}

  /** The algorithm whose spawns a list holds. */
  function OwnerOf(alg: nat, h: ListHead): nat { if h.Top? then alg else h.alg }

  lemma FirstSub(g: Graph, alg: nat, w: Walk, h: ListHead)
    requires Sub(g, alg, w) && (h.Users? ==> h.alg in w.users) && w.At(h) != []
    ensures OwnerOf(alg, h) in g.users && w.At(h)[0] in g.users[OwnerOf(alg, h)] && !w.Moved(w.At(h)[0])
  {}

  /** The next spawn of the walk. */
  lemma NextSpawn(g: Graph, alg: nat, w: Walk)
    requires GraphOk(g) && WalkOk(g, alg, w)
    requires w.stack != [] ==> w.stack[0] in g.inst && g.inst[w.stack[0]] in w.users
    requires w.At(w.Head(g.inst)) != []
    ensures var s := w.At(w.Head(g.inst))[0]; s in g.inst && g.inst[s] in g.users && Reaches(g, alg, g.inst[s]) && !w.Moved(s)
  {
    HeadOk(g, alg, w);
    var h := w.Head(g.inst);
    FirstSub(g, alg, w, h);
    hide Reaches, Kept, Sound, Explored, Sub, Walk.Moved;
    var s := w.At(h)[0];
    var a := OwnerOf(alg, h);
    assert Edge(g, a, g.inst[s]);
    if h.Top? { ReachesEdge(g, alg, g.inst[s]); } else { ReachesFurther(g, alg, a, g.inst[s]); }
  }

  /** What is left of a list after a move: one spawn less of its own list, the same of the others. */
  lemma RestPush(w: Walk, w': Walk, rest: seq<nat>, rest': seq<nat>, all: seq<nat>, x: nat)
    requires Rest(w, rest, all) && (rest' == rest || (rest != [] && rest' == rest[1..])) && x !in rest'
    requires forall s :: w'.Moved(s) <==> s == x || w.Moved(s)
    ensures Rest(w', rest', all)
  {}

  lemma PushSub(g: Graph, alg: nat, w: Walk, h: ListHead)
    requires GraphOk(g) && Sub(g, alg, w) && (h.Users? ==> h.alg in w.users) && w.At(h) != []
    ensures Sub(g, alg, w.Push(h))
    ensures forall s :: w.Push(h).Moved(s) <==> s == w.At(h)[0] || w.Moved(s)
  {
    var w' := w.Push(h);
    var x := w.At(h)[0];
    forall s ensures w'.Moved(s) <==> s == x || w.Moved(s) { }
    FirstSub(g, alg, w, h);
    hide Walk.Moved;
    assert Rest(w, w.At(h), g.users[OwnerOf(alg, h)]);
    forall a | a in w'.users ensures Rest(w', w'.users[a], g.users[a]) {
      assert Rest(w, w.users[a], g.users[a]);
      assert x !in w'.users[a];
      RestPush(w, w', w.users[a], w'.users[a], g.users[a], x);
    }
    assert x !in w'.top;
    RestPush(w, w', w.top, w'.top, g.users[alg], x);
  }

  lemma PushKept(g: Graph, alg: nat, w: Walk, h: ListHead)
    requires GraphOk(g) && Sub(g, alg, w) && Kept(g, alg, w) && (h.Users? ==> h.alg in w.users) && w.At(h) != []
    requires Sub(g, alg, w.Push(h))
    requires forall s :: w.Push(h).Moved(s) <==> s == w.At(h)[0] || w.Moved(s)
    ensures Kept(g, alg, w.Push(h))
  {
    var w' := w.Push(h);
    hide Walk.Moved, GraphOk;
    forall a, s | a in g.users && a != alg && s in g.users[a] && !w'.Moved(s) ensures s in w'.users[a] {
      assert s in w.users[a];
    }
  }

  lemma PushSound(g: Graph, alg: nat, w: Walk, h: ListHead)
    requires GraphOk(g) && Sub(g, alg, w) && Sound(g, alg, w) && (h.Users? ==> h.alg in w.users) && w.At(h) != []
    requires Sub(g, alg, w.Push(h)) && (h.Users? ==> Reaches(g, alg, h.alg))
    requires forall s :: w.Push(h).Moved(s) <==> s == w.At(h)[0] || w.Moved(s)
    requires var s := w.At(h)[0]; s in g.inst && g.inst[s] in g.users && Reaches(g, alg, g.inst[s])
    ensures Sound(g, alg, w.Push(h))
  {
    FirstSub(g, alg, w, h);
    hide Walk.Moved, Reaches;
  }

  lemma PushExplored(g: Graph, alg: nat, w: Walk, h: ListHead)
    requires Sub(g, alg, w) && Explored(g, w) && (h.Users? ==> h.alg in w.users) && w.At(h) != [] && !w.Moved(w.At(h)[0])
    ensures Explored(g, w.Push(h))
  {
    var w' := w.Push(h);
    assert w'.stack + w'.secondary == [w.At(h)[0]] + (w.stack + w.secondary);
  }

  /** Moving the next spawn to the stack keeps the walk in order. */
  lemma PushOk(g: Graph, alg: nat, w: Walk)
    requires GraphOk(g) && WalkOk(g, alg, w)
    requires w.stack != [] ==> w.stack[0] in g.inst && g.inst[w.stack[0]] in w.users
    requires w.At(w.Head(g.inst)) != []
    ensures WalkOk(g, alg, w.Push(w.Head(g.inst)))
  {
    var h := w.Head(g.inst);
    HeadOk(g, alg, w);
    NextSpawn(g, alg, w);
    hide Walk.Moved, Walk.Push, Reaches, GraphOk, Kept, Sound, Explored, Sub;
    PushSub(g, alg, w, h);
    PushKept(g, alg, w, h);
    PushSound(g, alg, w, h);
    PushExplored(g, alg, w, h);
  }

  lemma PopNoDup(stack: seq<nat>, secondary: seq<nat>)
    requires stack != [] && NoDup(stack + secondary)
    ensures NoDup(stack[1..] + ([stack[0]] + secondary))
  {
    var was, now := stack + secondary, stack[1..] + ([stack[0]] + secondary);
    var n := |stack|;
    forall i, j | 0 <= i < j < |now| ensures now[i] != now[j] {
      var i', j' := if i < n - 1 then i + 1 else if i == n - 1 then 0 else i, if j < n - 1 then j + 1 else if j == n - 1 then 0 else j;
      assert now[i] == was[i'] && now[j] == was[j'] && i' != j';
    }
  }

  /** A spawn comes off the stack only when its instance has no users left. */
  lemma PopOk(g: Graph, alg: nat, w: Walk)
    requires GraphOk(g) && WalkOk(g, alg, w) && w.stack != []
    requires w.stack[0] in g.inst && g.inst[w.stack[0]] in w.users && w.At(w.Head(g.inst)) == []
    ensures WalkOk(g, alg, w.Pop())
  {
    var w' := w.Pop();
    forall s ensures w'.Moved(s) <==> w.Moved(s) { }
    hide GraphOk, Reaches;
    PopNoDup(w.stack, w.secondary);
    assert Explored(g, w');
    hide Walk.Moved, Walk.Pop, Explored;
    assert Sub(g, alg, w');
    assert Kept(g, alg, w');
    assert Sound(g, alg, w');
  }

  /** The algorithm and everything built on it. */
  ghost predicate Doomed(g: Graph, alg: nat, a: nat) { a == alg || Reaches(g, alg, a) }

  /** Their users lists are empty and the others are as they were. */
  ghost predicate Emptied(g: Graph, alg: nat, users: map<nat, seq<nat>>) {
    users.Keys == g.users.Keys && forall a :: a in g.users ==> users[a] == if Doomed(g, alg, a) then [] else g.users[a]
  }

  /** The spawns on exactly those lists. */
  ghost predicate SpawnsOf(g: Graph, alg: nat, spawns: seq<nat>) {
    && (forall s :: s in spawns ==> s in g.inst)
    && forall a, s :: a in g.users && s in g.users[a] ==> (s in spawns <==> Doomed(g, alg, a))
  }

  lemma SpawnsDone(g: Graph, alg: nat, w: Walk)
    requires WalkOk(g, alg, w) && w.stack == [] && w.top == [] && Emptied(g, alg, w.users)
    ensures SpawnsOf(g, alg, w.secondary)
  {
    forall s ensures w.Moved(s) <==> s in w.secondary { }
    hide Reaches, Explored, Walk.Moved, Rest;
    forall a, s | a in g.users && s in g.users[a] ensures s in w.secondary <==> Doomed(g, alg, a) {
      if Doomed(g, alg, a) { assert w.users[a] == []; }
    }
  }

  /** When the walk is over it has moved exactly the spawns of the algorithm and of everything built on it. */
  lemma WalkDone(g: Graph, alg: nat, w: Walk)
    requires GraphOk(g) && WalkOk(g, alg, w) && w.stack == [] && w.top == []
    ensures Emptied(g, alg, w.users) && SpawnsOf(g, alg, w.secondary)
    ensures forall b :: Reaches(g, alg, b) <==> b in Insts(g.inst, w.secondary)
  {
    var v := Insts(g.inst, w.secondary);
    Closed(g, alg, w, v);
    forall b ensures Reaches(g, alg, b) <==> b in v {
      if Reaches(g, alg, b) { ClosedHolds(g, alg, b, v); }
      if b in v { Visited(g, alg, w, v, b); }
    }
    hide Reaches, GraphOk, Insts, Kept, Sound, Explored;
    forall a | a in g.users ensures w.users[a] == if Doomed(g, alg, a) then [] else g.users[a] {
      ListDone(g, alg, w, v, a);
    }
    assert Emptied(g, alg, w.users) by { hide Doomed; }
    SpawnsDone(g, alg, w);
  }

  /** The instances of the moved spawns are closed under the users relation. */
  lemma Closed(g: Graph, alg: nat, w: Walk, v: set<nat>)
    requires GraphOk(g) && WalkOk(g, alg, w) && w.stack == [] && w.top == []
    requires v == Insts(g.inst, w.secondary)
    ensures forall x :: Edge(g, alg, x) ==> x in v
    ensures forall x, y :: x in v && Edge(g, x, y) ==> y in v
  {
    hide Reaches, Sound;
    forall x, y | (x == alg || x in v) && Edge(g, x, y) ensures y in v {
      var s :| x in g.users && s in g.users[x] && s in g.inst && g.inst[s] == y;
      if !w.Moved(s) {
        if x != alg { ListEmpty(g, alg, w, v, x); }
      }
      assert w.Moved(s);
    }
  }

  lemma ListEmpty(g: Graph, alg: nat, w: Walk, v: set<nat>, x: nat)
    requires WalkOk(g, alg, w) && v == Insts(g.inst, w.secondary)
    requires x in v
    ensures x in w.users && w.users[x] == []
  {}

  lemma Visited(g: Graph, alg: nat, w: Walk, v: set<nat>, x: nat)
    requires WalkOk(g, alg, w) && v == Insts(g.inst, w.secondary)
    requires x in v
    ensures Reaches(g, alg, x)
  {}

  lemma ListDone(g: Graph, alg: nat, w: Walk, v: set<nat>, a: nat)
    requires WalkOk(g, alg, w) && v == Insts(g.inst, w.secondary)
    requires a in g.users && (Reaches(g, alg, a) <==> a in v)
    ensures w.users[a] == if Doomed(g, alg, a) then [] else g.users[a]
  {}

  lemma NoDupCons(x: nat, s: seq<nat>)
    requires NoDup(s) && x !in s
    ensures NoDup([x] + s)
  {
  }

  lemma {:induction false} NoDupBound(s: seq<nat>, all: set<nat>)
    requires NoDup(s) && forall x :: x in s ==> x in all
    ensures |s| <= |all|
  {
    if s != [] {
      assert s[0] in s;
      forall x | x in s[1..] ensures x in all - {s[0]} { }
      NoDupBound(s[1..], all - {s[0]});
    }
  }

  lemma StackBound(g: Graph, alg: nat, w: Walk)
    requires WalkOk(g, alg, w)
    ensures |w.stack| + |w.secondary| <= |g.inst.Keys|
  {
    hide Sub, Kept, Reaches;
    forall x | x in w.stack + w.secondary ensures x in g.inst.Keys { assert w.Moved(x); }
    NoDupBound(w.stack + w.secondary, g.inst.Keys);
  }

  /** The walk starts with the algorithm's own users set aside. */
  lemma WalkStart(g: Graph, alg: nat, w: Walk)
    requires GraphOk(g) && alg in g.users && w.users == g.users[alg := []] && w.stack == [] && w.secondary == []
    requires NoDup(w.top) && (forall s :: s in w.top <==> s in g.users[alg])
    ensures WalkOk(g, alg, w)
  {
    hide Reaches;
    forall a | a in w.users ensures Rest(w, w.users[a], g.users[a]) { }
  }

  /** The spawns' alg pointers: those of moved spawns are NULL, the others still name the algorithm they are on. */
  ghost predicate PointersOk(g: Graph, w: Walk, spawnAlg: map<nat, Option<nat>>) {
    && (forall a, s :: a in g.users && s in g.users[a] ==> s in spawnAlg)
    && (forall a, s :: a in g.users && s in g.users[a] && s in spawnAlg ==>
          spawnAlg[s] == if w.Moved(s) then None else Some(a))
  }

  lemma PointersPush(g: Graph, alg: nat, w: Walk, spawnAlg: map<nat, Option<nat>>, h: ListHead)
    requires Sub(g, alg, w) && PointersOk(g, w, spawnAlg)
    requires (h.Users? ==> h.alg in w.users) && w.At(h) != []
    ensures PointersOk(g, w.Push(h), spawnAlg[w.At(h)[0] := None])
  {
    hide Sub;
    forall s ensures w.Push(h).Moved(s) <==> s == w.At(h)[0] || w.Moved(s) { }
    hide Walk.Moved, Walk.Push;
  }

  lemma PointersPop(g: Graph, w: Walk, spawnAlg: map<nat, Option<nat>>)
    requires PointersOk(g, w, spawnAlg) && w.stack != []
    ensures PointersOk(g, w.Pop(), spawnAlg)
  {}

  /** The instances that the template still lists and can still hold go to the caller's list when they die. */
  datatype Instances = Instances(dead: set<nat>, hashed: set<nat>, gone: seq<nat>)

  class Registry {
    var users: map<nat, seq<nat>>
    var spawnAlg: map<nat, Option<nat>>
    const inst: map<nat, nat>
    var state: Instances
    var listed: set<nat>

    ghost function G(): Graph
      reads this
    {
      Graph(users, inst)
    }

    ghost predicate Valid()
      reads this
    {
      GraphOk(G()) && PointersOk(G(), Walk(users, [], [], []), spawnAlg)
    }

    /** The first loop of crypto_remove_spawns; without a replacement it compares the algorithm's flags with themselves. */
    method SetAside(alg: nat) returns (w: Walk)
      requires Valid() && alg in users
      ensures WalkOk(G(), alg, w) && PointersOk(G(), w, spawnAlg) && w.stack == []
    {
      var top, rest := [], users[alg];
      while rest != []
        invariant NoDup(rest) && NoDup(top) && forall s :: s in top ==> s !in rest
        invariant forall s :: s in users[alg] <==> s in top || s in rest
      {
        NoDupCons(rest[0], top);
        top, rest := [rest[0]] + top, rest[1..];
      }
      w := Walk(users[alg := []], top, [], []);
      WalkStart(G(), alg, w);
    }

    /** The loop that goes down from one list to the next until it meets an empty one. */
    method Descend(alg: nat, w0: Walk, ghost g: Graph) returns (w: Walk)
      requires GraphOk(g) && WalkOk(g, alg, w0) && g.inst == inst && PointersOk(g, w0, spawnAlg) && !Reaches(g, alg, alg)
      modifies this`spawnAlg
      ensures WalkOk(g, alg, w) && PointersOk(g, w, spawnAlg)
      ensures |w.stack| + |w.secondary| <= |g.inst.Keys| && |w.secondary| == |w0.secondary| && |w.stack| >= |w0.stack|
      ensures w.stack != [] ==> w.stack[0] in g.inst && g.inst[w.stack[0]] in w.users
      ensures w.At(w.Head(inst)) == []
    {
      hide WalkOk, GraphOk, PointersOk, Reaches, Walk.Moved;
      w := w0;
      HeadHere(g, alg, w);
      StackBound(g, alg, w);
      var spawns := w.Head(inst);
      while w.At(spawns) != []
        invariant WalkOk(g, alg, w) && PointersOk(g, w, spawnAlg)
        invariant |w.stack| + |w.secondary| <= |g.inst.Keys| && |w.secondary| == |w0.secondary| && |w.stack| >= |w0.stack|
        invariant w.stack != [] ==> w.stack[0] in g.inst && g.inst[w.stack[0]] in w.users
        invariant spawns == w.Head(inst)
        decreases |g.inst.Keys| - |w.stack|
      {
        NextSpawn(g, alg, w);
        var spawn := w.At(spawns)[0];
        assert inst[spawn] != alg;
        PushOk(g, alg, w);
        SubOf(g, alg, w);
        PointersPush(g, alg, w, spawnAlg, spawns);
        w := w.Push(spawns);
        spawnAlg := spawnAlg[spawn := None];
        HeadHere(g, alg, w);
        StackBound(g, alg, w);
        spawns := Users(inst[spawn]);
      }
    }

    /** The whole walk of crypto_remove_spawns; crypto_more_spawns takes the explored spawn off the stack. */
    method Explore(alg: nat) returns (secondary: seq<nat>)
      requires Valid() && alg in users && !Reaches(G(), alg, alg)
      modifies this`users, this`spawnAlg
      ensures Emptied(old(G()), alg, users) && SpawnsOf(old(G()), alg, secondary)
      ensures PointersOk(old(G()), Walk(users, [], [], secondary), spawnAlg)
      ensures forall b :: Reaches(old(G()), alg, b) <==> b in Insts(inst, secondary)
    {
      hide WalkOk, GraphOk, PointersOk, Reaches, Walk.Moved, Emptied, SpawnsOf, Insts;
      ghost var g := G();
      var w := SetAside(alg);
      StackBound(g, alg, w);
      while true
        invariant WalkOk(g, alg, w) && PointersOk(g, w, spawnAlg)
        invariant |w.secondary| <= |g.inst.Keys|
        decreases |g.inst.Keys| - |w.secondary|
      {
        w := Descend(alg, w, g);
        if w.stack == [] { break; }
        PopOk(g, alg, w);
        PointersPop(g, w, spawnAlg);
        w := w.Pop();
      }
      WalkDone(g, alg, w);
      PointersDone(g, w, spawnAlg);
      users, secondary := w.users, w.secondary;
    }

    /** The last loop of crypto_remove_spawns: every moved spawn has a NULL pointer, so its instance goes. */
    method Bury(secondary: seq<nat>, holds: nat -> bool)
      requires forall s :: s in secondary ==> s in inst && inst[s] in users && users[inst[s]] == []
      modifies this`state
      ensures Buried(old(state), state, Insts(inst, secondary), holds)
    {
      hide Buried, Leaves, Insts;
      ghost var was := state;
      var i := 0;
      BuriedNone(state, holds);
      InstsNone(inst, secondary);
      while i < |secondary|
        invariant 0 <= i <= |secondary|
        invariant Buried(was, state, Insts(inst, secondary[..i]), holds)
      {
        ghost var mid := state;
        RemoveSpawn(inst[secondary[i]], holds);
        BuriedStep(was, mid, state, Insts(inst, secondary[..i]), holds, inst[secondary[i]]);
        InstsStep(inst, secondary, i);
        i := i + 1;
      }
      assert secondary[..i] == secondary;
    }

    /** crypto_remove_spawns without a replacement: every instance built on the algorithm, and no other, dies; it loses its
        users, its spawns point nowhere, and all other lists stay as they are. */
    method RemoveSpawns(alg: nat, holds: nat -> bool) returns (ghost died: set<nat>)
      requires Valid() && alg in users && !Reaches(G(), alg, alg)
      modifies this`users, this`spawnAlg, this`state
      ensures Valid() && Emptied(old(G()), alg, users) && Cleared(old(G()), alg, spawnAlg)
      ensures forall b :: b in died <==> Reaches(old(G()), alg, b)
      ensures Buried(old(state), state, died, holds)
    {
      hide GraphOk, Reaches, Buried, Leaves, PointersOk, Emptied, SpawnsOf, Cleared, Insts;
      ghost var g := G();
      var secondary := Explore(alg);
      died := Insts(inst, secondary);
      StillValid(g, alg, users);
      PointersStay(g, alg, users, secondary, spawnAlg);
      InInst(g, alg, secondary);
      NoUsers(g, alg, users, secondary);
      Bury(secondary, holds);
    }

    /** crypto_remove_alg */
    method RemoveAlg(alg: nat, holds: nat -> bool) returns (err: int, ghost died: set<nat>)
      requires Valid() && alg in users && !Reaches(G(), alg, alg)
      modifies this
      ensures Valid()
      ensures alg !in old(listed) ==> err == -ENOENT && died == {} && unchanged(this)
      ensures alg in old(listed) ==> err == 0 && listed == old(listed) - {alg} && Emptied(old(G()), alg, users)
      ensures alg in old(listed) ==> forall b :: b in died <==> Reaches(old(G()), alg, b)
      ensures alg in old(listed) ==> Cleared(old(G()), alg, spawnAlg)
      ensures alg in old(listed) ==> Buried(old(state).(dead := old(state).dead + {alg}), state, died, holds)
    {
      err, died := -ENOENT, {};
      if alg !in listed { return; }
      state := state.(dead := state.dead + {alg});
      listed := listed - {alg};
      hide GraphOk, PointersOk, Reaches, Emptied, Cleared;
      died := RemoveSpawns(alg, holds);
      err := 0;
    }

    /** crypto_remove_spawn; the precondition is its BUG_ON, on the users of the instance. */
    method RemoveSpawn(i: nat, holds: nat -> bool)
      requires i in users && users[i] == []
      modifies this`state
      ensures state.dead == old(state.dead) + {i}
      ensures var leaves := Leaves(old(state), holds, i);
              && state.hashed == old(state.hashed) - (if leaves then {i} else {})
              && state.gone == (if leaves then [i] else []) + old(state.gone)
    {
      if i in state.dead { return; }
      state := state.(dead := state.dead + {i});
      if i !in state.hashed { return; }
      if !holds(i) { return; }
      state := state.(gone := [i] + state.gone, hashed := state.hashed - {i});
    }
  }

  lemma PointersDone(g: Graph, w: Walk, spawnAlg: map<nat, Option<nat>>)
    requires PointersOk(g, w, spawnAlg) && w.stack == []
    ensures PointersOk(g, Walk(w.users, [], [], w.secondary), spawnAlg)
  {}

  /** The pointers of exactly the spawns of the algorithm and of everything built on it are NULL. */
  ghost predicate Cleared(g: Graph, alg: nat, spawnAlg: map<nat, Option<nat>>) {
    && (forall a, s :: a in g.users && s in g.users[a] ==> s in spawnAlg)
    && (forall a, s :: a in g.users && s in g.users[a] && s in spawnAlg ==>
          spawnAlg[s] == if Doomed(g, alg, a) then None else Some(a))
  }

  /** Everything that goes has lost its users before. */
  lemma NoUsers(g: Graph, alg: nat, users: map<nat, seq<nat>>, secondary: seq<nat>)
    requires GraphOk(g) && Emptied(g, alg, users) && SpawnsOf(g, alg, secondary)
    requires forall b :: Reaches(g, alg, b) <==> b in Insts(g.inst, secondary)
    ensures forall s :: s in secondary ==> s in g.inst && g.inst[s] in users && users[g.inst[s]] == []
  {
    hide Reaches;
    forall s | s in secondary ensures s in g.inst && g.inst[s] in users && users[g.inst[s]] == [] {
      assert g.inst[s] in Insts(g.inst, secondary);
      ClosedHolds(g, alg, g.inst[s], g.users.Keys);
    }
  }

  lemma InInst(g: Graph, alg: nat, secondary: seq<nat>)
    requires SpawnsOf(g, alg, secondary)
    ensures forall s :: s in secondary ==> s in g.inst
  {
  }

  /** What is left is a registry in order. */
  lemma StillValid(g: Graph, alg: nat, users: map<nat, seq<nat>>)
    requires GraphOk(g) && Emptied(g, alg, users)
    ensures GraphOk(Graph(users, g.inst))
  {
    hide Doomed;
    forall a | a in g.users ensures NoDup(users[a]) && forall s :: s in users[a] ==> s in g.users[a] { }
  }

  lemma PointersStay(g: Graph, alg: nat, users: map<nat, seq<nat>>, secondary: seq<nat>, spawnAlg: map<nat, Option<nat>>)
    requires Emptied(g, alg, users) && SpawnsOf(g, alg, secondary)
    requires PointersOk(g, Walk(users, [], [], secondary), spawnAlg)
    ensures PointersOk(Graph(users, g.inst), Walk(users, [], [], []), spawnAlg)
    ensures Cleared(g, alg, spawnAlg)
  {
    hide Doomed;
    forall a, s | a in users && s in users[a] ensures s in spawnAlg && spawnAlg[s] == Some(a) {
      assert s in g.users[a];
    }
  }

  lemma BuriedNone(was: Instances, holds: nat -> bool)
    ensures Buried(was, was, {}, holds)
  {}

  /** The instances of a list of spawns. */
  ghost function Insts(inst: map<nat, nat>, spawns: seq<nat>): set<nat> {
    set s | s in spawns && s in inst :: inst[s]
  }

  lemma InstsNone(inst: map<nat, nat>, spawns: seq<nat>)
    ensures Insts(inst, spawns[..0]) == {}
  {
  }

  lemma InstsStep(inst: map<nat, nat>, spawns: seq<nat>, i: nat)
    requires i < |spawns| && spawns[i] in inst
    ensures Insts(inst, spawns[..i + 1]) == Insts(inst, spawns[..i]) + {inst[spawns[i]]}
  {}

  /** Which instances leave their template: those that die now, are listed there, and whose template can be held. */
  predicate Leaves(was: Instances, holds: nat -> bool, b: nat) {
    b !in was.dead && b in was.hashed && holds(b)
  }

  /** The instances after some have been removed. */
  ghost predicate Buried(was: Instances, now: Instances, died: set<nat>, holds: nat -> bool) {
    && now.dead == was.dead + died
    && (forall b :: b in now.hashed <==> b in was.hashed && !(b in died && Leaves(was, holds, b)))
    && (forall b :: b in now.gone <==> b in was.gone || (b in died && Leaves(was, holds, b)))
    && |now.gone| == |was.gone| + |set b | b in died && Leaves(was, holds, b)|
  }

  lemma BuriedStep(was: Instances, mid: Instances, now: Instances, died: set<nat>, holds: nat -> bool, i: nat)
    requires Buried(was, mid, died, holds) && now.dead == mid.dead + {i}
    requires now.hashed == mid.hashed - (if Leaves(mid, holds, i) then {i} else {})
    requires now.gone == (if Leaves(mid, holds, i) then [i] else []) + mid.gone
    ensures Buried(was, now, died + {i}, holds)
  {
    ghost var d := set b | b in died && Leaves(was, holds, b);
    ghost var d' := set b | b in died + {i} && Leaves(was, holds, b);
    if Leaves(mid, holds, i) {
      assert d' == d + {i} && i !in d;
    } else {
      assert d' == d;
    }
  }

  lemma SubOf(g: Graph, alg: nat, w: Walk)
    requires WalkOk(g, alg, w)
    ensures Sub(g, alg, w)
  {
  }

  lemma HeadHere(g: Graph, alg: nat, w: Walk)
    requires GraphOk(g) && WalkOk(g, alg, w)
    ensures w.stack != [] ==> w.stack[0] in g.inst && g.inst[w.stack[0]] in w.users
  {}
}
