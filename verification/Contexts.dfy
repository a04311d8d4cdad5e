/** Command contexts: the record behind struct nrf_rpc_cmd_ctx and the four
    operations that hand it out, nest it, un-nest it and give it back. */
module Contexts {
  import opened Common

  /** A thread of one processor: an application thread or a pool thread. */
  datatype Tid = Tid(side: Side, n: nat)

  /** A context of one processor, named by its index in the pool. */
  datatype Cid = Cid(side: Side, n: nat)

  datatype Kind = Cmd | Rsp | Evt | Ack

  /** A packet. `id` is its identity as a physical buffer: no code reads it. */
  datatype Msg = Msg(id: nat, to: Side, kind: Kind, src: nat, dst: nat, data: nat)

  /** The one-slot mailbox: nothing, a NULL from the abort sweep,
      RESPONSE_HANDLED_PTR, or a packet. */
  datatype Slot = Empty | Abort | Handled | Packet(m: Msg)

  /** A response handler together with its handler_data. */
  datatype Handler = Handler(fn: nat, data: nat)

  /** Where the response of a command goes: to a handler (nrf_rpc_cmd) or to
      the caller's rsp_packet pointer (nrf_rpc_cmd_rsp). */
  datatype Sink = ToHandler(h: Handler) | ToCaller

  function HandlerOf(sink: Sink): Option<Handler> {
    match sink
    case ToHandler(h) => Some(h)
    case ToCaller => None
  }

  /** `owner` is the reservation kept by the OS context pool; `locked` is the
      context mutex; `uses` is the uint8 use_count. */
  datatype Ctx = Ctx(owner: Option<Tid>, locked: bool, remote: nat, uses: nat,
                     handler: Option<Handler>, slot: Slot)

  /** ++ and -- on a uint8. */
  function Inc8(u: nat): nat { (u + 1) % 256 }
  function Dec8(u: nat): nat { (u + 255) % 256 }

  /** cmd_ctx_alloc: neither the mailbox nor anything else is reset. */
  function Alloc(x: Ctx, t: Tid): Ctx {
    x.(owner := Some(t), locked := true, handler := None, remote := ID_UNKNOWN, uses := 1)
  }

  /** cmd_ctx_free: the use count is left as it is. */
  function Free(x: Ctx): Ctx {
    x.(owner := None, locked := false)
  }

  /** cmd_ctx_reserve by a thread that already has the context in its TLS. */
  function Reserve(x: Ctx): Ctx {
    x.(uses := Inc8(x.uses))
  }

  /** cmd_ctx_release. */
  function Release(x: Ctx): Ctx {
    var y := x.(uses := Dec8(x.uses));
    if y.uses == 0 then Free(y) else y
  }

  /** What one visit of the abort sweep does to a context. */
  function Swept(x: Ctx): Ctx {
    if x.uses > 0 then x.(slot := Abort) else x
  }

  /** abort_all_ops: every context of the pool is visited exactly once. */
  method AbortAllOps(pool: array<Ctx>)
    modifies pool
    ensures forall i | 0 <= i < pool.Length :: pool[i] == Swept(old(pool[i]))
    ensures forall i | 0 <= i < pool.Length :: pool[i].slot == Abort || (pool[i] == old(pool[i]) && pool[i].uses == 0)
  {
    var i := 0;
    while i < pool.Length
      invariant i <= pool.Length
      invariant forall k | 0 <= k < i :: pool[k] == Swept(old(pool[k]))
      invariant forall k | i <= k < pool.Length :: pool[k] == old(pool[k])
    {
      if pool[i].uses > 0 {
        pool[i] := pool[i].(slot := Abort);
      }
      i := i + 1;
    }
  }
}
