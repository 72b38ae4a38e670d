/**
  The request queue of crypto/algapi.c. Requests beyond the length limit are accepted only with the backlog flag, and a
  pointer into the list marks the first of them.
 */
module CryptoQueue {
  import opened Wrappers

  const EBUSY := 16
  const EINPROGRESS := 115

  predicate Distinct(s: seq<nat>) { forall i, j :: 0 <= i < j < |s| ==> s[i] != s[j] }

  /** The node that follows a node of the list; None stands for the list head. */
  function NextNode(list: seq<nat>, node: nat): Option<nat>
    requires node in list
  {
    if list[0] == node then (if |list| > 1 then Some(list[1]) else None) else NextNode(list[1..], node)
  }

  lemma {:induction false} NextNodeAt(list: seq<nat>, i: nat)
    requires Distinct(list) && i < |list|
    ensures NextNode(list, list[i]) == if i + 1 < |list| then Some(list[i + 1]) else None
  {
    if i > 0 {
      assert list[1..][i - 1] == list[i];
      NextNodeAt(list[1..], i - 1);
    }
  }

  /** Where the backlog pointer belongs: on the first request beyond the limit. */
  function FirstBeyond(list: seq<nat>, limit: nat): Option<nat> {
    if |list| > limit then Some(list[limit]) else None
  }

  /** Requests are named by their addresses; a backlog of None is the pointer to the list head. */
  class Queue {
    var list: seq<nat>
    var backlog: Option<nat>
    var qlen: nat
    const maxQlen: nat

    ghost predicate Valid()
      reads this
    {
      qlen == |list| && Distinct(list) && backlog == FirstBeyond(list, maxQlen)
    }

    /** crypto_init_queue */
    constructor (maxQlen: nat)
      ensures Valid() && list == [] && this.maxQlen == maxQlen
    {
      list, backlog, qlen := [], None, 0;
      this.maxQlen := maxQlen;
    }

    /** crypto_enqueue_request: a request that finds the queue full is refused, unless it may be backlogged. */
    method Enqueue(request: nat, mayBacklog: bool) returns (err: int)
      requires Valid() && request !in list
      modifies this
      ensures Valid()
      ensures err == if |old(list)| >= maxQlen then -EBUSY else -EINPROGRESS
      ensures list == if |old(list)| >= maxQlen && !mayBacklog then old(list) else old(list) + [request]
    {
      err := -EINPROGRESS;
      if qlen >= maxQlen {
        err := -EBUSY;
        if !mayBacklog { return; }
        if backlog == None { backlog := Some(request); }
      }
      qlen := qlen + 1;
      list := list + [request];
    }

    /** crypto_get_backlog */
    function GetBacklog(): (r: Option<nat>)
      requires Valid()
      reads this
      ensures r.Some? <==> |list| > maxQlen
      ensures r.Some? ==> r.value == list[maxQlen]
    {
      backlog
    }

    /** crypto_dequeue_request: the backlog pointer moves on before the head is unlinked, so it follows the limit. */
    method Dequeue() returns (request: Option<nat>)
      requires Valid()
      modifies this
      ensures Valid()
      ensures old(list) == [] ==> request == None && list == []
      ensures old(list) != [] ==> request == Some(old(list[0])) && list == old(list[1..])
    {
      if qlen == 0 { return None; }
      qlen := qlen - 1;
      if backlog != None {
        NextNodeAt(list, maxQlen);
        backlog := NextNode(list, backlog.value);
      }
      request := Some(list[0]);
      list := list[1..];
    }
  }
}
