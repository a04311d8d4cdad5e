/** The intrusive list of cleanup handlers. */
module Cleanup {
  import opened Common

  /** struct nrf_rpc_cleanup_handler: `next` belongs to the list. */
  class Node {
    const handler: Option<nat>
    const context: nat
    var next: Node?

    constructor (handler: Option<nat>, context: nat)
      ensures this.handler == handler && this.context == context
    {
      this.handler := handler;
      this.context := context;
      next := null;
    }
  }

  /** The nodes whose handler a pass over `nodes` calls, in order: each call is
      handler(context) of that node. */
  function Calls(nodes: seq<Node>): seq<Node> {
    if nodes == [] then []
    else (if nodes[0].handler.Some? then [nodes[0]] else []) + Calls(nodes[1..])
  }

  class Registry {
    var head: Node?
    var log: seq<Node>
    ghost var nodes: seq<Node>

    /** Following `next` from the head passes through exactly `nodes`, each once:
        the list ends and has no cycle. */
    ghost predicate Valid()
      reads this, nodes
    {
      && (forall i, j | 0 <= i < j < |nodes| :: nodes[i] != nodes[j])
      && head == (if nodes == [] then null else nodes[0])
      && (forall i {:trigger nodes[i].next} | 0 <= i < |nodes| ::
            nodes[i].next == (if i + 1 < |nodes| then nodes[i + 1] else null))
    }

    constructor ()
      ensures Valid() && nodes == [] && log == []
    {
      head := null;
      nodes := [];
      log := [];
    }

    /** nrf_rpc_register_cleanup_handler: new nodes go in front, a node that is
        already in the list changes nothing. */
    method Register(h: Node)
      requires Valid()
      modifies this`head, this`nodes, h`next
      ensures Valid() && nodes == if h in old(nodes) then old(nodes) else [h] + old(nodes)
      ensures h in old(nodes) ==> h.next == old(h.next)
    {
      var current := head;
      ghost var i := 0;
      while current != null
        invariant i <= |nodes| && current == (if i < |nodes| then nodes[i] else null)
        invariant forall k | 0 <= k < i :: nodes[k] != h
        decreases |nodes| - i
      {
        if current == h {
          break;
        }
        current := current.next;
        i := i + 1;
      }
      if current == null {
        assert h !in nodes;
        h.next := head;
        head := h;
        nodes := [h] + nodes;
      }
    }

    /** The cleanup pass of nrf_rpc_stop(true): it ends, and calls the handler of
        every node that has one, once, with its own context. */
    method RunAll()
      requires Valid()
      modifies this`log
      ensures log == old(log) + Calls(nodes)
    {
      var current := head;
      ghost var i := 0;
      while current != null
        invariant i <= |nodes| && current == (if i < |nodes| then nodes[i] else null)
        invariant log + Calls(nodes[i..]) == old(log) + Calls(nodes)
        decreases |nodes| - i
      {
        assert nodes[i..][0] == current && nodes[i..][1..] == nodes[i + 1..];
        if current.handler.Some? {
          log := log + [current];
        }
        current := current.next;
        i := i + 1;
      }
    }
  }

  // ------------------------------------------------ any sequence of registrations

  /** The list after registering `hs` in order. */
  function Registered(hs: seq<Node>): seq<Node> {
    if hs == [] then []
    else
      var before := Registered(hs[..|hs| - 1]);
      var h := hs[|hs| - 1];
      if h in before then before else [h] + before
  }

  /** Repeats or not, the list holds exactly the registered nodes, each once. */
  lemma {:induction false} RegisteredExactly(hs: seq<Node>)
    ensures forall h :: h in Registered(hs) <==> h in hs
    ensures forall i, j | 0 <= i < j < |Registered(hs)| :: Registered(hs)[i] != Registered(hs)[j]
  {
    if hs != [] {
      RegisteredExactly(hs[..|hs| - 1]);
      assert hs == hs[..|hs| - 1] + [hs[|hs| - 1]];
    }
  }

  method RegisterAll(r: Registry, hs: seq<Node>)
    requires r.Valid() && r.nodes == []
    modifies r`head, r`nodes, hs
    ensures r.Valid() && r.nodes == Registered(hs)
  {
    var i := 0;
    while i < |hs|
      invariant i <= |hs| && r.Valid() && r.nodes == Registered(hs[..i])
    {
      assert hs[..i + 1][..i] == hs[..i];
      RegisteredExactly(hs[..i]);
      r.Register(hs[i]);
      i := i + 1;
    }
    assert hs[..|hs|] == hs;
  }

  /** How often a node is called in a pass. */
  function Times(calls: seq<Node>, x: Node): nat {
    if calls == [] then 0 else (if calls[0] == x then 1 else 0) + Times(calls[1..], x)
  }

  lemma {:induction false} TimesAppend(a: seq<Node>, b: seq<Node>, x: Node)
    ensures Times(a + b, x) == Times(a, x) + Times(b, x)
  {
    if a == [] {
      assert a + b == b;
    } else {
      assert (a + b)[1..] == a[1..] + b;
      TimesAppend(a[1..], b, x);
    }
  }

  lemma {:induction false} PassCallsOnce(nodes: seq<Node>, x: Node)
    requires forall i, j | 0 <= i < j < |nodes| :: nodes[i] != nodes[j]
    ensures Times(Calls(nodes), x) == if x in nodes && x.handler.Some? then 1 else 0
  {
    if nodes != [] {
      PassCallsOnce(nodes[1..], x);
      var first := if nodes[0].handler.Some? then [nodes[0]] else [];
      TimesAppend(first, Calls(nodes[1..]), x);
      assert nodes == [nodes[0]] + nodes[1..];
    }
  }

  /** After any sequence of registrations a cleanup pass calls each registered node
      that has a handler exactly once, and nothing else. */
  lemma CleanupCallsEachOnce(hs: seq<Node>, x: Node)
    ensures Times(Calls(Registered(hs)), x) == if x in hs && x.handler.Some? then 1 else 0
  {
    RegisteredExactly(hs);
    PassCallsOnce(Registered(hs), x);
  }
}
