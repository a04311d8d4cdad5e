/** The mutual recursion nrf_rpc_cmd_common, wait_for_response,
    parse_incoming_packet, decoder, nrf_rpc_cmd_common as one thread executes it,
    over the contexts it updates in place. What the rest of the system does to
    this thread is a script: what arrives in its mailbox while it waits, and what
    calls each decoder makes. */
module CallPath {
  import opened Common
  import Contexts

  /** `viaPtr`: nrf_rpc_cmd_rsp; otherwise the response goes to handler `fn` with
      `data`. `send` is what the transport returns for the command, an error if
      negative. */
  datatype Call = Call(viaPtr: bool, fn: nat, data: nat, send: int, inbox: seq<Event>)

  /** A NULL (timeout or abort), a response received under the given discipline,
      or a command whose decoder makes further calls. */
  datatype Event =
    | Null
    | Response(v: nat, auto: bool)
    | Command(src: nat, body: seq<Call>)

  /** Who got which response. */
  datatype Delivery = ToCaller(v: nat) | ToHandler(fn: nat, data: nat, v: nat)

  // ------------------------------------------------ what a call means by itself

  /** The responses delivered during a call, in order: the inner ones, then its
      own, each to the sink of the call it answers. */
  function Trace(c: Call): seq<Delivery>
    decreases c
  {
    if c.send >= 0 then TraceWait(c.viaPtr, c.fn, c.data, c.inbox) else []
  }

  function TraceWait(viaPtr: bool, fn: nat, data: nat, inbox: seq<Event>): seq<Delivery>
    decreases inbox
  {
    if inbox == [] then []
    else
      match inbox[0]
      case Null => []
      case Response(v, _) => [if viaPtr then ToCaller(v) else ToHandler(fn, data, v)]
      case Command(_, body) => TraceBody(body) + TraceWait(viaPtr, fn, data, inbox[1..])
  }

  function TraceBody(body: seq<Call>): seq<Delivery>
    decreases body
  {
    if body == [] then [] else Trace(body[0]) + TraceBody(body[1..])
  }

  function Outcome(c: Call): int {
    if c.send >= 0 then OutcomeWait(c.inbox) else c.send
  }

  function OutcomeWait(inbox: seq<Event>): int {
    if inbox == [] || inbox[0].Null? then ETIMEDOUT
    else if inbox[0].Response? then 0
    else OutcomeWait(inbox[1..])
  }

  /** The remote id of the context after a call that started with `remote`: every
      command served while it waits leaves its source there, for good. */
  function RemoteCall(c: Call, remote: nat): nat
    decreases c
  {
    if c.send >= 0 then RemoteWait(c.inbox, remote) else remote
  }

  function RemoteWait(inbox: seq<Event>, remote: nat): nat
    decreases inbox
  {
    if inbox == [] || !inbox[0].Command? then remote
    else RemoteWait(inbox[1..], RemoteBody(inbox[0].body, inbox[0].src))
  }

  function RemoteBody(body: seq<Call>, remote: nat): nat
    decreases body
  {
    if body == [] then remote else RemoteBody(body[1..], RemoteCall(body[0], remote))
  }

  /** How deep the call nests on its context, itself included. */
  function Depth(c: Call): nat
    decreases c
  {
    if c.send >= 0 then 1 + DepthWait(c.inbox) else 1
  }

  function DepthWait(inbox: seq<Event>): nat
    decreases inbox
  {
    if inbox == [] || !inbox[0].Command? then 0
    else
      var rest := DepthWait(inbox[1..]);
      if DepthBody(inbox[0].body) > rest then DepthBody(inbox[0].body) else rest
  }

  function DepthBody(body: seq<Call>): nat
    decreases body
  {
    if body == [] then 0
    else
      var rest := DepthBody(body[1..]);
      if Depth(body[0]) > rest then Depth(body[0]) else rest
  }

  /** The answer that ends a wait, if any. */
  function Answer(inbox: seq<Event>): Option<nat> {
    if inbox == [] || inbox[0].Null? then None
    else if inbox[0].Response? then Some(inbox[0].v)
    else Answer(inbox[1..])
  }

  /** A call succeeds exactly when a response ends its wait, and then that response
      is the last delivery, made to the sink of this very call. */
  lemma {:induction false} OwnAnswerLast(viaPtr: bool, fn: nat, data: nat, inbox: seq<Event>)
    ensures OutcomeWait(inbox) == 0 <==> Answer(inbox).Some?
    ensures Answer(inbox).Some? ==>
              var tr := TraceWait(viaPtr, fn, data, inbox);
              && tr != []
              && tr[|tr| - 1] == (if viaPtr then ToCaller(Answer(inbox).value) else ToHandler(fn, data, Answer(inbox).value))
  {
    if inbox != [] && inbox[0].Command? {
      OwnAnswerLast(viaPtr, fn, data, inbox[1..]);
    }
  }

  /** The command was sent and a response ends its wait. */
  predicate Succeeds(c: Call) {
    c.send >= 0 && Answer(c.inbox).Some?
  }

  /** What a successful call delivers for itself. */
  function OwnDelivery(c: Call): Delivery
    requires Succeeds(c)
  {
    if c.viaPtr then ToCaller(Answer(c.inbox).value) else ToHandler(c.fn, c.data, Answer(c.inbox).value)
  }

  /** The result of a whole call: 0 exactly when it was sent and answered, and then
      its own delivery is the last one; the error of the transport, with no
      delivery, if it was not sent; ETIMEDOUT if it was sent and a NULL or nothing
      ends the wait. */
  lemma WholeCall(c: Call)
    ensures Outcome(c) == 0 <==> Succeeds(c)
    ensures Succeeds(c) ==> Trace(c) != [] && Trace(c)[|Trace(c)| - 1] == OwnDelivery(c)
    ensures c.send < 0 ==> Outcome(c) == c.send && Trace(c) == []
    ensures c.send >= 0 ==> (Outcome(c) == -60 <==> !Succeeds(c))
    ensures !Succeeds(c) ==> Outcome(c) < 0
  {
    OwnAnswerLast(c.viaPtr, c.fn, c.data, c.inbox);
    WaitCodes(c.inbox);
  }

  lemma {:induction false} WaitCodes(inbox: seq<Event>)
    ensures OutcomeWait(inbox) == if Answer(inbox).Some? then 0 else -60
  {
    if inbox != [] && inbox[0].Command? { WaitCodes(inbox[1..]); }
  }

  /** The calls of a decoder deliver one after the other, each its own part. */
  lemma {:induction false} BodySplit(body: seq<Call>, k: nat)
    requires k < |body|
    ensures TraceBody(body) == TraceBody(body[..k]) + Trace(body[k]) + TraceBody(body[k + 1..])
  {
    if k > 0 {
      BodySplit(body[1..], k - 1);
      assert body[1..][..k - 1] == body[..k][1..] && body[1..][k..] == body[k + 1..];
    }
  }

  /** How many calls of the whole tree under a call succeed, itself included. */
  function Successes(c: Call): nat
    decreases c
  {
    (if Succeeds(c) then 1 else 0) + (if c.send >= 0 then SuccessesWait(c.inbox) else 0)
  }

  function SuccessesWait(inbox: seq<Event>): nat
    decreases inbox
  {
    if inbox == [] || !inbox[0].Command? then 0 else SuccessesBody(inbox[0].body) + SuccessesWait(inbox[1..])
  }

  function SuccessesBody(body: seq<Call>): nat
    decreases body
  {
    if body == [] then 0 else Successes(body[0]) + SuccessesBody(body[1..])
  }

  /** There is exactly one delivery for every call of the tree that succeeds. */
  lemma {:induction false} OneDeliveryEach(c: Call)
    ensures |Trace(c)| == Successes(c)
    decreases c
  {
    if c.send >= 0 { DeliveriesWait(c.viaPtr, c.fn, c.data, c.inbox); }
  }

  lemma {:induction false} DeliveriesWait(viaPtr: bool, fn: nat, data: nat, inbox: seq<Event>)
    ensures |TraceWait(viaPtr, fn, data, inbox)| == SuccessesWait(inbox) + (if Answer(inbox).Some? then 1 else 0)
    decreases inbox
  {
    if inbox != [] && inbox[0].Command? {
      DeliveriesBody(inbox[0].body);
      DeliveriesWait(viaPtr, fn, data, inbox[1..]);
    }
  }

  lemma {:induction false} DeliveriesBody(body: seq<Call>)
    ensures |TraceBody(body)| == SuccessesBody(body)
    decreases body
  {
    if body != [] {
      OneDeliveryEach(body[0]);
      DeliveriesBody(body[1..]);
    }
  }

  /** A wait serves exactly the commands in front of what ends it; the last of them
      decides the remote id. */
  lemma {:induction false} RemoteOfLast(inbox: seq<Event>, remote: nat, k: nat)
    requires k <= |inbox| && (forall i | 0 <= i < k :: inbox[i].Command?) && (k < |inbox| ==> !inbox[k].Command?)
    ensures RemoteWait(inbox, remote) == if k == 0 then remote else RemoteBody(inbox[k - 1].body, inbox[k - 1].src)
  {
    if k > 0 {
      RemoteOfLast(inbox[1..], RemoteBody(inbox[0].body, inbox[0].src), k - 1);
    }
  }

  /** A call that serves at least one command while it waits. */
  predicate Serves(c: Call) {
    c.send >= 0 && c.inbox != [] && c.inbox[0].Command?
  }

  /** Of the calls of a decoder the last one that serves a command decides the remote
      id; if none does, it stays. */
  lemma {:induction false} RemoteOfBody(body: seq<Call>, remote: nat, other: nat)
    ensures (forall c | c in body :: !Serves(c)) ==> RemoteBody(body, remote) == remote
    ensures (exists c | c in body :: Serves(c)) ==> RemoteBody(body, remote) == RemoteBody(body, other)
    ensures body != [] && Serves(body[|body| - 1]) ==>
              RemoteBody(body, remote) == RemoteWait(body[|body| - 1].inbox, remote)
  {
    if body != [] {
      var rest := body[1..];
      assert forall c | c in rest :: c in body;
      assert forall c | c in body :: c == body[0] || c in rest;
      RemoteForgets(body[0], remote, other);
      RemoteOfBody(rest, RemoteCall(body[0], remote), RemoteCall(body[0], other));
      RemoteForgets(body[|body| - 1], remote, RemoteCall(body[0], remote));
    }
  }

  lemma RemoteForgets(c: Call, remote: nat, other: nat)
    ensures RemoteCall(c, remote) == if Serves(c) then RemoteCall(c, other) else remote
    ensures Serves(c) ==> RemoteCall(c, remote) == RemoteWait(c.inbox, other)
  {
  }

  /** The nesting of a decoder is that of its deepest call, a call without callbacks
      has depth one, and every callback of a wait is one level deeper at most. */
  lemma {:induction false} DepthIsMax(body: seq<Call>)
    ensures forall c | c in body :: Depth(c) <= DepthBody(body)
    ensures if body == [] then DepthBody(body) == 0 else exists c | c in body :: Depth(c) == DepthBody(body)
    ensures forall c | c in body && !Serves(c) :: Depth(c) == 1
  {
    if body != [] {
      var rest := body[1..];
      DepthIsMax(rest);
      assert forall c | c in body :: c == body[0] || c in rest;
      assert body[0] in body && forall c | c in rest :: c in body;
    }
  }

  lemma {:induction false} DepthOfWait(c: Call, k: nat)
    requires c.send >= 0 && k <= |c.inbox| && (forall i | 0 <= i < k :: c.inbox[i].Command?)
    requires k < |c.inbox| ==> !c.inbox[k].Command?
    ensures forall i | 0 <= i < k :: DepthBody(c.inbox[i].body) < Depth(c)
    ensures if k == 0 then Depth(c) == 1 else exists i | 0 <= i < k :: DepthBody(c.inbox[i].body) + 1 == Depth(c)
    decreases k
  {
    if k > 0 {
      var d := c.(inbox := c.inbox[1..]);
      DepthOfWait(d, k - 1);
      forall i | 0 <= i < k ensures DepthBody(c.inbox[i].body) < Depth(c) {
        if i > 0 { assert c.inbox[i] == d.inbox[i - 1]; }
      }
      if DepthBody(c.inbox[0].body) + 1 != Depth(c) {
        var i :| 0 <= i < k - 1 && DepthBody(d.inbox[i].body) + 1 == Depth(d);
        assert c.inbox[i + 1] == d.inbox[i];
      }
    }
  }

  // ------------------------------------------------ the code

  /** struct nrf_rpc_cmd_ctx, without mutex and mailbox: this thread holds the
      mutex whenever it reads or writes the rest. */
  class CmdCtx {
    const id: nat
    var remoteId: nat
    var useCount: nat
    var handler: Option<nat>
    var handlerData: nat

    constructor (id: nat)
      ensures this.id == id && useCount == 0
    {
      this.id := id;
      remoteId := ID_UNKNOWN;
      useCount := 0;
      handler := None;
      handlerData := 0;
    }

    /** The record of this context, as held by `owner` or free. */
    ghost function Record(owner: Option<Contexts.Tid>): Contexts.Ctx
      reads this
    {
      var h := if handler.Some? then Some(Contexts.Handler(handler.value, handlerData)) else None;
      Contexts.Ctx(owner, owner.Some?, remoteId, useCount, h, Contexts.Empty)
    }
  }

  class RpcThread {
    const me: Contexts.Tid
    const pool: seq<CmdCtx>
    var free: set<nat>
    var tls: CmdCtx?
    var stopped: bool
    var log: seq<Delivery>

    ghost predicate PoolOk()
      reads this, pool
    {
      && (forall i | 0 <= i < |pool| :: pool[i].id == i && pool[i].useCount <= 255)
      && (forall i | i in free :: i < |pool|)
      && (tls != null ==> tls in pool && tls.id !in free)
    }

    ghost predicate Valid()
      reads this, pool
    {
      PoolOk() && (tls != null ==> tls.useCount >= 1)
    }

    constructor (me: Contexts.Tid, pool: seq<CmdCtx>)
      requires forall i | 0 <= i < |pool| :: pool[i].id == i && pool[i].useCount <= 255
      ensures Valid() && this.me == me && this.pool == pool
      ensures tls == null && free == (set c | c in pool :: c.id) && log == [] && !stopped
    {
      this.me := me;
      this.pool := pool;
      free := set c | c in pool :: c.id;
      tls := null;
      stopped := false;
      log := [];
    }

    /** cmd_ctx_alloc. Waiting for a free context is not modelled. */
    method CtxAlloc() returns (ctx: CmdCtx)
      requires Valid() && tls == null && free != {}
      modifies this`tls, this`free, pool
      ensures Valid() && tls == ctx && ctx.id in old(free) && free == old(free) - {ctx.id} && ctx in pool
      ensures ctx.Record(Some(me)) == Contexts.Alloc(old(pool[ctx.id].Record(None)), me)
      ensures forall c | c in pool && c != ctx :: unchanged(c)
    {
      var index :| index in free;
      free := free - {index};
      ctx := pool[index];
      ctx.handler := None;
      ctx.remoteId := ID_UNKNOWN;
      ctx.useCount := 1;
      tls := ctx;
    }

    /** cmd_ctx_free: the use count keeps its value. */
    method CtxFree(ctx: CmdCtx)
      requires PoolOk() && ctx == tls
      modifies this`tls, this`free
      ensures Valid() && tls == null && free == old(free) + {ctx.id}
      ensures ctx.Record(None) == Contexts.Free(old(ctx.Record(Some(me))))
    {
      tls := null;
      free := free + {ctx.id};
    }

    /** cmd_ctx_reserve. */
    method CtxReserve() returns (ctx: CmdCtx)
      requires Valid() && (tls == null ==> free != {})
      modifies this`tls, this`free, pool
      ensures PoolOk() && tls == ctx && ctx in pool
      ensures ctx.useCount == if old(tls) == null then 1 else (old(tls.useCount) + 1) % 256
      ensures Valid() <==> (old(tls) != null ==> old(tls.useCount) < 255)
      ensures old(tls) == null ==>
                && ctx.id in old(free) && free == old(free) - {ctx.id}
                && ctx.Record(Some(me)) == Contexts.Alloc(old(pool[ctx.id].Record(None)), me)
      ensures old(tls) != null ==>
                && ctx == old(tls) && free == old(free)
                && ctx.Record(Some(me)) == Contexts.Reserve(old(tls.Record(Some(me))))
                && ctx.handler == old(tls.handler) && ctx.handlerData == old(tls.handlerData)
                && ctx.remoteId == old(tls.remoteId)
      ensures forall c | c in pool && c != ctx :: unchanged(c)
    {
      if tls == null {
        ctx := CtxAlloc();
      } else {
        ctx := tls;
        ctx.useCount := (ctx.useCount + 1) % 256;
      }
    }

    /** cmd_ctx_release. */
    method CtxRelease(ctx: CmdCtx)
      requires Valid() && ctx == tls
      modifies this`tls, this`free, ctx`useCount
      ensures Valid() && ctx.useCount == old(ctx.useCount) - 1
      ensures ctx.Record(if tls == ctx then Some(me) else None) == Contexts.Release(old(ctx.Record(Some(me))))
      ensures old(ctx.useCount) == 1 ==> tls == null && free == old(free) + {ctx.id}
      ensures old(ctx.useCount) > 1 ==> tls == ctx && free == old(free)
    {
      ctx.useCount := (ctx.useCount + 255) % 256;
      if ctx.useCount == 0 {
        CtxFree(ctx);
      }
    }

    /** nrf_rpc_cmd_common. */
    method CmdCommon(c: Call) returns (err: int)
      requires Valid() && (tls == null ==> free != {} && Depth(c) <= 255)
      requires tls != null ==> tls.useCount + Depth(c) <= 255
      modifies this`tls, this`free, this`log, pool
      ensures Valid() && tls == old(tls) && free == old(free)
      ensures tls != null ==>
                && tls.handler == old(tls.handler) && tls.handlerData == old(tls.handlerData)
                && tls.useCount == old(tls.useCount)
                && tls.remoteId == (if stopped then old(tls.remoteId) else RemoteCall(c, old(tls.remoteId)))
      ensures forall x | x in pool && x.id !in old(free) && x != old(tls) :: unchanged(x)
      ensures err == if stopped then EPERM else Outcome(c)
      ensures log == old(log) + if stopped then [] else Trace(c)
      decreases c, 1
    {
      hide CmdCtx.Record, Contexts.Alloc, Contexts.Reserve, Contexts.Release;
      hide TraceWait, OutcomeWait, RemoteWait, DepthWait;
      if stopped {
        err := EPERM;
        return;
      }
      var ctx := CtxReserve();
      var oldHandler, oldHandlerData := ctx.handler, ctx.handlerData;
      ctx.handler := if c.viaPtr then None else Some(c.fn);
      ctx.handlerData := if c.viaPtr then 0 else c.data;
      err := c.send;
      if err >= 0 {
        err := WaitForResponse(ctx, c.viaPtr, c.fn, c.data, c.inbox);
      }
      ctx.handler := oldHandler;
      ctx.handlerData := oldHandlerData;
      CtxRelease(ctx);
    }

    /** wait_for_response: the do/while loop over what the mailbox yields. */
    method WaitForResponse(ctx: CmdCtx, viaPtr: bool, ghost fn: nat, ghost data: nat, inbox: seq<Event>) returns (err: int)
      requires Valid() && tls == ctx && !stopped && ctx.useCount + DepthWait(inbox) <= 255
      requires if viaPtr then ctx.handler == None else ctx.handler == Some(fn) && ctx.handlerData == data
      modifies this`tls, this`free, this`log, pool
      ensures Valid() && tls == ctx && free == old(free)
      ensures ctx.handler == old(ctx.handler) && ctx.handlerData == old(ctx.handlerData) && ctx.useCount == old(ctx.useCount)
      ensures forall x | x in pool && x.id !in old(free) && x != old(tls) :: unchanged(x)
      ensures ctx.remoteId == RemoteWait(inbox, old(ctx.remoteId))
      ensures err == OutcomeWait(inbox) && log == old(log) + TraceWait(viaPtr, fn, data, inbox)
      decreases inbox, 0
    {
      var i := 0;
      while i < |inbox| && inbox[i].Command?
        invariant i <= |inbox| && Valid() && tls == ctx && free == old(free)
        invariant ctx.handler == old(ctx.handler) && ctx.handlerData == old(ctx.handlerData)
        invariant ctx.useCount == old(ctx.useCount) && ctx.useCount + DepthWait(inbox[i..]) <= 255
        invariant forall x | x in pool && x.id !in old(free) && x != old(tls) :: unchanged(x)
        invariant OutcomeWait(inbox) == OutcomeWait(inbox[i..])
        invariant RemoteWait(inbox[i..], ctx.remoteId) == RemoteWait(inbox, old(ctx.remoteId))
        invariant log + TraceWait(viaPtr, fn, data, inbox[i..]) == old(log) + TraceWait(viaPtr, fn, data, inbox)
      {
        ghost var before := log;
        ghost var e := inbox[i];
        assert inbox[i..][0] == inbox[i] && inbox[i..][1..] == inbox[i + 1..];
        ParseIncomingPacket(ctx, inbox[i]);
        assert log == before + TraceBody(inbox[i].body);
        i := i + 1;
      }
      if i == |inbox| || inbox[i].Null? {
        err := ETIMEDOUT;
        return;
      }
      err := 0;
      Accept(ctx, viaPtr, fn, data, inbox[i].v, inbox[i].auto);
      assert log == old(log) + TraceWait(viaPtr, fn, data, inbox);
    }

    /** A response: run by the receive thread under auto free if the context shows
        a handler, else taken by this thread. Either way it reaches the sink of the
        command that waits, once. */
    method Accept(ctx: CmdCtx, viaPtr: bool, ghost fn: nat, ghost data: nat, v: nat, auto: bool)
      requires if viaPtr then ctx.handler == None else ctx.handler == Some(fn) && ctx.handlerData == data
      modifies this`log
      ensures log == old(log) + [if viaPtr then ToCaller(v) else ToHandler(fn, data, v)]
    {
      if auto && ctx.handler.Some? {
        log := log + [ToHandler(ctx.handler.value, ctx.handlerData, v)];
      } else if viaPtr {
        log := log + [ToCaller(v)];
      } else if ctx.handler.Some? {
        log := log + [ToHandler(ctx.handler.value, ctx.handlerData, v)];
      }
    }

    /** parse_incoming_packet for a command, on the context of the waiting thread. */
    method ParseIncomingPacket(ctx: CmdCtx, e: Event)
      requires Valid() && tls == ctx && !stopped && e.Command? && ctx.useCount + DepthBody(e.body) <= 255
      modifies this`tls, this`free, this`log, pool
      ensures Valid() && tls == ctx && free == old(free)
      ensures ctx.handler == old(ctx.handler) && ctx.handlerData == old(ctx.handlerData) && ctx.useCount == old(ctx.useCount)
      ensures forall x | x in pool && x.id !in old(free) && x != old(tls) :: unchanged(x)
      ensures ctx.remoteId == RemoteBody(e.body, e.src)
      ensures log == old(log) + TraceBody(e.body)
      decreases e, 0
    {
      ctx.remoteId := e.src;
      RunDecoder(ctx, e.body);
    }

    /** The calls of a decoder. */
    method RunDecoder(ctx: CmdCtx, body: seq<Call>)
      requires Valid() && tls == ctx && !stopped && ctx.useCount + DepthBody(body) <= 255
      modifies this`tls, this`free, this`log, pool
      ensures Valid() && tls == ctx && free == old(free)
      ensures ctx.handler == old(ctx.handler) && ctx.handlerData == old(ctx.handlerData) && ctx.useCount == old(ctx.useCount)
      ensures forall x | x in pool && x.id !in old(free) && x != old(tls) :: unchanged(x)
      ensures ctx.remoteId == RemoteBody(body, old(ctx.remoteId))
      ensures log == old(log) + TraceBody(body)
      decreases body, 0
    {
      var i := 0;
      while i < |body|
        invariant i <= |body| && Valid() && tls == ctx && free == old(free)
        invariant ctx.handler == old(ctx.handler) && ctx.handlerData == old(ctx.handlerData)
        invariant ctx.useCount == old(ctx.useCount) && ctx.useCount + DepthBody(body[i..]) <= 255
        invariant forall x | x in pool && x.id !in old(free) && x != old(tls) :: unchanged(x)
        invariant RemoteBody(body[i..], ctx.remoteId) == RemoteBody(body, old(ctx.remoteId))
        invariant log + TraceBody(body[i..]) == old(log) + TraceBody(body)
      {
        ghost var before := log;
        assert body[i..][0] == body[i] && body[i..][1..] == body[i + 1..];
        var err := CmdCommon(body[i]);
        assert log == before + Trace(body[i]);
        i := i + 1;
      }
    }
  }
}
