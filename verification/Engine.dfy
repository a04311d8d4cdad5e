/** The command path of two peers as one interleaved state machine: threads,
    thread-local contexts, one-slot mailboxes, the receive thread of each side,
    the thread pool, and the stop gate. A step is one stretch of code between
    two points where another thread can interfere; work done while a context
    mutex is held is one step. */
module Engine {
  import opened Common
  import opened Contexts

  /** What a thread has on its C stack: an nrf_rpc_cmd_common activation with
      the response handler it saved, or a command decoder called by
      parse_incoming_packet (`alloc`: on a context allocated there). */
  datatype Frame =
    | CmdFrame(sink: Sink, saved: Option<Handler>)
    | SrvFrame(alloc: bool, responded: bool)

  datatype Stack = Nil | Push(below: Stack, top: Frame)

  datatype Pc = Running | Sending(arg: nat) | Waiting

  datatype Thread = Thread(tls: Option<nat>, stack: Stack, pc: Pc, inEvent: bool)

  /** `sweep` is the progress of the nrf_rpc_stop call that holds the cleanup
      mutex, if any. */
  datatype Gate = Gate(stopped: bool, sweep: Option<nat>)

  datatype State = State(
    ctx: map<Cid, Ctx>,
    thr: map<Tid, Thread>,
    net: set<Msg>,
    rx: PerSide<Option<Msg>>,
    pool: set<Msg>,
    gate: PerSide<Gate>,
    autoFree: PerSide<bool>,
    next: nat)

  datatype Step =
    | Admit(t: Tid, sink: Sink, arg: nat, n: nat)
    | Send(t: Tid)
    | SendFail(t: Tid)
    | Take(t: Tid)
    | Timeout(t: Tid)
    | Dispatch(t: Tid, m: Msg, n: nat)
    | Respond(t: Tid, v: nat)
    | Finish(t: Tid)
    | SendEvent(t: Tid, arg: nat)
    | DispatchEvent(t: Tid, m: Msg)
    | FinishEvent(t: Tid)
    | Arrive(m: Msg)
    | Route(side: Side)
    | StopBegin(side: Side)
    | Sweep(side: Side)
    | StopEnd(side: Side)
    | Resume(side: Side)

  // ---------------------------------------------------------------- transitions

  /** Thread t exists and has context n of its own side in its TLS. */
  predicate Holds(s: State, t: Tid, n: nat) {
    t in s.thr && s.thr[t].tls == Some(n) && Cid(t.side, n) in s.ctx
  }

  predicate Owns(s: State, t: Tid) {
    t in s.thr && s.thr[t].tls.Some? && Cid(t.side, s.thr[t].tls.value) in s.ctx
  }

  function Own(s: State, t: Tid): (c: Cid)
    requires Owns(s, t)
    ensures c in s.ctx
  {
    Cid(t.side, s.thr[t].tls.value)
  }

  predicate InCmd(s: State, t: Tid) {
    Owns(s, t) && s.thr[t].stack.Push? && s.thr[t].stack.top.CmdFrame?
  }

  predicate InSrv(s: State, t: Tid) {
    Owns(s, t) && s.thr[t].stack.Push? && s.thr[t].stack.top.SrvFrame? && s.thr[t].pc == Running
  }

  predicate Idle(s: State, t: Tid) {
    t in s.thr && s.thr[t].tls.None? && s.thr[t].stack.Nil? && s.thr[t].pc == Running
  }

  predicate FreeCtx(s: State, c: Cid) {
    c in s.ctx && s.ctx[c].owner.None? && !s.ctx[c].locked
  }

  /** A received command or response that is addressed to a context. */
  predicate Addressed(m: Msg) {
    m.kind == Rsp || (m.kind == Cmd && m.dst != ID_UNKNOWN)
  }

  /** nrf_rpc_cmd_common past the gate: not stopped, no stop in progress, and a
      context at hand or a free one to reserve. */
  predicate CanAdmit(s: State, t: Tid, n: nat) {
    && t in s.thr && s.thr[t].pc == Running
    && !s.gate.At(t.side).stopped && s.gate.At(t.side).sweep.None?
    && (if s.thr[t].tls.None? then FreeCtx(s, Cid(t.side, n)) else Holds(s, t, n))
  }

  predicate CanSend(s: State, t: Tid) {
    InCmd(s, t) && s.thr[t].pc.Sending?
  }

  predicate InWait(s: State, t: Tid) {
    InCmd(s, t) && s.thr[t].pc == Waiting && !s.ctx[Own(s, t)].locked
  }

  predicate CanTake(s: State, t: Tid) {
    InWait(s, t) && s.ctx[Own(s, t)].slot != Empty
  }

  predicate CanDispatch(s: State, t: Tid, m: Msg, n: nat) {
    && Idle(s, t) && !s.thr[t].inEvent
    && m in s.pool && m.to == t.side && m.kind == Cmd
    && FreeCtx(s, Cid(t.side, n))
  }

  predicate CanDispatchEvent(s: State, t: Tid, m: Msg) {
    Idle(s, t) && !s.thr[t].inEvent && m in s.pool && m.to == t.side && m.kind == Evt
  }

  predicate CanArrive(s: State, m: Msg) {
    m in s.net && s.rx.At(m.to).None?
  }

  /** The receive thread holds a packet and, for an addressed context, its mutex. */
  predicate CanRoute(s: State, side: Side) {
    && s.rx.At(side).Some?
    && (Addressed(s.rx.At(side).value) && Cid(side, s.rx.At(side).value.dst) in s.ctx ==>
          !s.ctx[Cid(side, s.rx.At(side).value.dst)].locked)
  }

  predicate CanSweep(s: State, side: Side) {
    && s.gate.At(side).sweep.Some?
    && Cid(side, s.gate.At(side).sweep.value) in s.ctx
    && !s.ctx[Cid(side, s.gate.At(side).sweep.value)].locked
  }

  predicate Enabled(s: State, e: Step) {
    match e
    case Admit(t, _, _, n) => CanAdmit(s, t, n)
    case Send(t) => CanSend(s, t)
    case SendFail(t) => CanSend(s, t)
    case Take(t) => CanTake(s, t)
    case Timeout(t) => InWait(s, t) && s.ctx[Own(s, t)].slot == Empty
    case Dispatch(t, m, n) => CanDispatch(s, t, m, n)
    case Respond(t, _) => InSrv(s, t)
    case Finish(t) => InSrv(s, t)
    case SendEvent(t, _) => t in s.thr && s.thr[t].pc == Running
    case DispatchEvent(t, m) => CanDispatchEvent(s, t, m)
    case FinishEvent(t) => Idle(s, t) && s.thr[t].inEvent
    case Arrive(m) => CanArrive(s, m)
    case Route(side) => CanRoute(s, side)
    case StopBegin(side) => s.gate.At(side).sweep.None?
    case Sweep(side) => CanSweep(s, side)
    case StopEnd(side) =>
      s.gate.At(side).sweep.Some? && Cid(side, s.gate.At(side).sweep.value) !in s.ctx
    case Resume(_) => true
  }

  /** The end of nrf_rpc_cmd_common: restore the handler and release the
      context; `x` is the context as wait_for_response left it. */
  function LeaveCmd(s: State, t: Tid, x: Ctx): State
    requires InCmd(s, t)
  {
    var th := s.thr[t];
    var y := Release(x.(handler := th.stack.top.saved));
    s.(ctx := s.ctx[Own(s, t) := y],
       thr := s.thr[t := Thread(if y.owner.None? then None else th.tls, th.stack.below, Running, th.inEvent)])
  }

  function Transmit(s: State, m: Msg): State {
    s.(net := s.net + {m}, next := s.next + 1)
  }

  function SentCmd(s: State, t: Tid): Msg
    requires CanSend(s, t)
  {
    Msg(s.next, Other(t.side), Cmd, Own(s, t).n, s.ctx[Own(s, t)].remote, s.thr[t].pc.arg)
  }

  function SentRsp(s: State, t: Tid, v: nat): Msg
    requires InSrv(s, t)
  {
    Msg(s.next, Other(t.side), Rsp, ID_UNKNOWN, s.ctx[Own(s, t)].remote, v)
  }

  function ApplyAdmit(s: State, t: Tid, sink: Sink, arg: nat, n: nat): State
    requires CanAdmit(s, t, n)
  {
    var c := Cid(t.side, n);
    var th := s.thr[t];
    var x := if th.tls.None? then Alloc(s.ctx[c], t) else Reserve(s.ctx[c]);
    s.(ctx := s.ctx[c := x.(handler := HandlerOf(sink))],
       thr := s.thr[t := Thread(Some(n), Push(th.stack, CmdFrame(sink, x.handler)), Sending(arg), th.inEvent)])
  }

  function ApplySend(s: State, t: Tid): State
    requires CanSend(s, t)
  {
    var r := Transmit(s, SentCmd(s, t));
    r.(ctx := s.ctx[Own(s, t) := s.ctx[Own(s, t)].(locked := false)],
       thr := s.thr[t := s.thr[t].(pc := Waiting)])
  }

  function ApplyTake(s: State, t: Tid): State
    requires CanTake(s, t)
  {
    var c := Own(s, t);
    var th := s.thr[t];
    var x := s.ctx[c].(slot := Empty, locked := true);
    match s.ctx[c].slot
    case Packet(m) =>
      if m.kind == Cmd then
        s.(ctx := s.ctx[c := x.(remote := m.src)],
           thr := s.thr[t := th.(stack := Push(th.stack, SrvFrame(false, false)), pc := Running)])
      else LeaveCmd(s, t, x)
    case _ => LeaveCmd(s, t, x)
  }

  function ApplyDispatch(s: State, t: Tid, m: Msg, n: nat): State
    requires CanDispatch(s, t, m, n)
  {
    var c := Cid(t.side, n);
    s.(pool := s.pool - {m},
       ctx := s.ctx[c := Alloc(s.ctx[c], t).(remote := m.src)],
       thr := s.thr[t := Thread(Some(n), Push(Nil, SrvFrame(true, false)), Running, false)])
  }

  function ApplyRespond(s: State, t: Tid, v: nat): State
    requires InSrv(s, t)
  {
    var th := s.thr[t];
    Transmit(s, SentRsp(s, t, v)).(
      thr := s.thr[t := th.(stack := Push(th.stack.below, th.stack.top.(responded := true)))])
  }

  function ApplyFinish(s: State, t: Tid): State
    requires InSrv(s, t)
  {
    var c := Own(s, t);
    var th := s.thr[t];
    if th.stack.top.alloc then
      s.(ctx := s.ctx[c := Free(s.ctx[c])],
         thr := s.thr[t := Thread(None, th.stack.below, Running, th.inEvent)])
    else
      s.(ctx := s.ctx[c := s.ctx[c].(locked := false)],
         thr := s.thr[t := th.(stack := th.stack.below, pc := Waiting)])
  }

  /** The head of receive_handler: while stopped the packet goes no further. */
  function ApplyArrive(s: State, m: Msg): State
    requires CanArrive(s, m)
  {
    var r := s.(net := s.net - {m});
    if s.gate.At(m.to).stopped then r else r.(rx := s.rx.With(m.to, Some(m)))
  }

  /** What the receive thread leaves in the mailbox of context x for packet m. */
  function Deposit(x: Ctx, m: Msg, auto: bool): Ctx {
    if x.uses == 0 then x
    else if x.handler.Some? && m.kind == Rsp && auto then x.(slot := Handled)
    else x.(slot := Packet(m))
  }

  /** The rest of receive_handler. A command of a new conversation goes to the
      pool, like an event. */
  function ApplyRoute(s: State, side: Side): State
    requires CanRoute(s, side)
  {
    var m := s.rx.At(side).value;
    var c := Cid(side, m.dst);
    var r := s.(rx := s.rx.With(side, None));
    if Addressed(m) then
      if c !in s.ctx then r
      else r.(ctx := s.ctx[c := Deposit(s.ctx[c], m, s.autoFree.At(side))])
    else if m.kind == Ack then r
    else r.(pool := s.pool + {m})
  }

  function Apply(s: State, e: Step): State
    requires Enabled(s, e)
  {
    match e
    case Admit(t, sink, arg, n) => ApplyAdmit(s, t, sink, arg, n)
    case Send(t) => ApplySend(s, t)
    case SendFail(t) => LeaveCmd(s, t, s.ctx[Own(s, t)])
    case Take(t) => ApplyTake(s, t)
    case Timeout(t) => LeaveCmd(s, t, s.ctx[Own(s, t)].(locked := true))
    case Dispatch(t, m, n) => ApplyDispatch(s, t, m, n)
    case Respond(t, v) => ApplyRespond(s, t, v)
    case Finish(t) => ApplyFinish(s, t)
    case SendEvent(t, arg) => Transmit(s, Msg(s.next, Other(t.side), Evt, ID_UNKNOWN, ID_UNKNOWN, arg))
    case DispatchEvent(t, m) =>
      s.(pool := s.pool - {m}, thr := s.thr[t := s.thr[t].(inEvent := true)])
    case FinishEvent(t) =>
      Transmit(s, Msg(s.next, Other(t.side), Ack, ID_UNKNOWN, ID_UNKNOWN, 0)).(
        thr := s.thr[t := s.thr[t].(inEvent := false)])
    case Arrive(m) => ApplyArrive(s, m)
    case Route(side) => ApplyRoute(s, side)
    case StopBegin(side) => s.(gate := s.gate.With(side, Gate(true, Some(0))))
    case Sweep(side) =>
      var i := s.gate.At(side).sweep.value;
      var c := Cid(side, i);
      s.(ctx := s.ctx[c := Swept(s.ctx[c])],
         gate := s.gate.With(side, s.gate.At(side).(sweep := Some(i + 1))))
    case StopEnd(side) => s.(gate := s.gate.With(side, s.gate.At(side).(sweep := None)))
    case Resume(side) => s.(gate := s.gate.With(side, s.gate.At(side).(stopped := false)))
  }

  /** Nesting fits the uint8 counter: no 256th activation on one context. */
  predicate Fits(s: State, e: Step)
    requires Enabled(s, e)
  {
    e.Admit? && s.thr[e.t].tls.Some? ==> s.ctx[Own(s, e.t)].uses < 255
  }

  predicate Next(s: State, e: Step, s': State) {
    Enabled(s, e) && Fits(s, e) && s' == Apply(s, e)
  }

  predicate Init(s: State) {
    && (forall c | c in s.ctx :: s.ctx[c] == Ctx(None, false, s.ctx[c].remote, 0, None, Empty) && c.n < 128)
    && (forall c: Cid, n: nat | c in s.ctx && n < c.n :: Cid(c.side, n) in s.ctx)
    && (forall t | t in s.thr :: s.thr[t] == Thread(None, Nil, Running, false))
    && s.net == {} && s.pool == {} && s.rx == PerSide(None, None)
    && s.gate == PerSide(Gate(false, None), Gate(false, None))
  }

  /** A run: `tr` are the states, `es` the steps between them. */
  ghost predicate IsRun(tr: seq<State>, es: seq<Step>) {
    && |tr| == |es| + 1 && Init(tr[0])
    && forall i | 0 <= i < |es| :: Next(tr[i], es[i], tr[i + 1])
  }

  /** Context pools of any sizes that fit the packed header byte, any threads, any
      disciplines and any old remote ids can start. */
  lemma AnyStart(sizes: PerSide<nat>, threads: set<Tid>, autoFree: PerSide<bool>, remote: nat) returns (s: State)
    requires sizes.At(Local) <= 128 && sizes.At(Remote) <= 128
    ensures Init(s) && s.thr.Keys == threads && s.autoFree == autoFree
    ensures forall c: Cid :: c in s.ctx <==> c.n < sizes.At(c.side)
  {
    var local := set n: nat | n < sizes.At(Local) :: Cid(Local, n);
    var other := set n: nat | n < sizes.At(Remote) :: Cid(Remote, n);
    s := State(map c | c in local + other :: Ctx(None, false, remote, 0, None, Empty),
               map t | t in threads :: Thread(None, Nil, Running, false), {}, PerSide(None, None), {},
               PerSide(Gate(false, None), Gate(false, None)), autoFree, 0);
    forall c: Cid ensures c in s.ctx <==> c.n < sizes.At(c.side) { assert c.side == Local || c.side == Remote; }
  }

  // ------------------------------------------------- context exclusivity and frames

  /** nrf_rpc_cmd_common activations, plus one for a context allocated to serve. */
  function Uses(st: Stack): nat {
    match st
    case Nil => 0
    case Push(b, CmdFrame(_, _)) => Uses(b) + 1
    case Push(b, SrvFrame(a, _)) => Uses(b) + (if a then 1 else 0)
  }

  /** The handler of the innermost command that is still outstanding. */
  function Shown(st: Stack): Option<Handler> {
    match st
    case Nil => None
    case Push(_, CmdFrame(sink, _)) => HandlerOf(sink)
    case Push(b, SrvFrame(_, _)) => Shown(b)
  }

  /** Commands and decoders alternate, only the bottom decoder sits on a context
      of its own, and each command saved what was shown below it. */
  predicate StackOk(st: Stack) {
    match st
    case Nil => true
    case Push(b, CmdFrame(_, saved)) =>
      StackOk(b) && saved == Shown(b) && (b.Push? ==> b.top.SrvFrame?)
    case Push(b, SrvFrame(a, _)) =>
      StackOk(b) && (a <==> b.Nil?) && (b.Push? ==> b.top.CmdFrame?)
  }

  predicate ThreadOk(s: State, t: Tid)
    requires t in s.thr
  {
    var th := s.thr[t];
    match th.tls
    case None => th.stack.Nil? && th.pc == Running
    case Some(n) =>
      && Cid(t.side, n) in s.ctx
      && th.stack.Push? && StackOk(th.stack)
      && (th.pc == Running <==> th.stack.top.SrvFrame?)
      && (var x := s.ctx[Cid(t.side, n)];
          && x.owner == Some(t)
          && (x.locked <==> th.pc != Waiting)
          && x.uses == Uses(th.stack) <= 255
          && x.handler == Shown(th.stack))
  }

  predicate CtxOk(s: State, c: Cid)
    requires c in s.ctx
  {
    var x := s.ctx[c];
    && c.n < 128 && x.uses <= 255
    && match x.owner
       case None => !x.locked
       case Some(t) => t.side == c.side && t in s.thr && s.thr[t].tls == Some(c.n)
  }

  ghost predicate Inv(s: State) {
    && (forall t | t in s.thr :: ThreadOk(s, t))
    && (forall c | c in s.ctx :: CtxOk(s, c))
  }

  lemma StackUses(st: Stack)
    requires StackOk(st) && st.Push?
    ensures Uses(st) >= 1
  {
  }

  /** A step that touches one thread and the context it has or gets. */
  lemma InvPatch(s: State, s': State, t: Tid, c: Cid)
    requires Inv(s) && t in s.thr && c in s.ctx && t.side == c.side
    requires s.thr[t].tls == Some(c.n) || (s.thr[t].tls.None? && s.ctx[c].owner.None?)
    requires t in s'.thr && s'.thr == s.thr[t := s'.thr[t]]
    requires c in s'.ctx && s'.ctx == s.ctx[c := s'.ctx[c]]
    requires ThreadOk(s', t) && CtxOk(s', c)
    ensures Inv(s')
  {
    forall u | u in s'.thr ensures ThreadOk(s', u) { assert ThreadOk(s, u); assert ThreadOk(s, t); }
    forall d | d in s'.ctx ensures CtxOk(s', d) { assert CtxOk(s, d); assert CtxOk(s, c); }
  }

  /** A step of the receive thread or of the sweep: at most one mailbox changes. */
  lemma InvSlot(s: State, s': State, c: Cid)
    requires Inv(s) && s'.thr == s.thr && c in s.ctx && c in s'.ctx
    requires s'.ctx == s.ctx[c := s.ctx[c].(slot := s'.ctx[c].slot)]
    ensures Inv(s')
  {
    forall u | u in s'.thr ensures ThreadOk(s', u) { assert ThreadOk(s, u); }
    forall d | d in s'.ctx ensures CtxOk(s', d) { assert CtxOk(s, d); }
  }

  lemma InvDeposit(s: State, side: Side)
    requires Inv(s) && CanRoute(s, side)
    requires Addressed(s.rx.At(side).value) && Cid(side, s.rx.At(side).value.dst) in s.ctx
    ensures Inv(ApplyRoute(s, side))
  {
    InvSlot(s, ApplyRoute(s, side), Cid(side, s.rx.At(side).value.dst));
  }

  lemma InvSame(s: State, s': State)
    requires Inv(s) && s'.ctx == s.ctx && s'.thr == s.thr
    ensures Inv(s')
  {
    forall u | u in s'.thr ensures ThreadOk(s', u) { assert ThreadOk(s, u); }
    forall d | d in s'.ctx ensures CtxOk(s', d) { assert CtxOk(s, d); }
  }

  /** Every exit of nrf_rpc_cmd_common (response, abort, timeout, failed send). */
  lemma InvLeave(s: State, t: Tid, x: Ctx)
    requires Inv(s) && InCmd(s, t) && s.thr[t].pc != Running
    requires x == s.ctx[Own(s, t)].(slot := x.slot, locked := true)
    ensures Inv(LeaveCmd(s, t, x))
  {
    assert ThreadOk(s, t) && CtxOk(s, Own(s, t));
    var b := s.thr[t].stack.below;
    if b.Push? { StackUses(b); }
    InvPatch(s, LeaveCmd(s, t, x), t, Own(s, t));
  }

  lemma InvSendFail(s: State, t: Tid)
    requires Inv(s) && CanSend(s, t)
    ensures Inv(LeaveCmd(s, t, s.ctx[Own(s, t)]))
  {
    assert ThreadOk(s, t);
    InvLeave(s, t, s.ctx[Own(s, t)]);
  }

  lemma InvCall(s: State, e: Step, s': State)
    requires Inv(s) && Next(s, e, s') && (e.Admit? || e.Dispatch?)
    ensures Inv(s')
  {
    assert ThreadOk(s, e.t) && CtxOk(s, Cid(e.t.side, e.n));
    InvPatch(s, s', e.t, Cid(e.t.side, e.n));
  }

  lemma InvOwn(s: State, e: Step, s': State)
    requires Inv(s) && Next(s, e, s') && (e.Send? || e.Take? || e.Respond? || e.Finish?)
    requires e.Take? ==> s.ctx[Own(s, e.t)].slot.Packet? && s.ctx[Own(s, e.t)].slot.m.kind == Cmd
    ensures Inv(s')
  {
    assert ThreadOk(s, e.t) && CtxOk(s, Own(s, e.t));
    InvPatch(s, s', e.t, Own(s, e.t));
  }

  lemma InvEvent(s: State, e: Step, s': State)
    requires Inv(s) && Next(s, e, s') && (e.DispatchEvent? || e.FinishEvent?)
    ensures Inv(s')
  {
    forall u | u in s'.thr ensures ThreadOk(s', u) { assert ThreadOk(s, u); }
    forall d | d in s'.ctx ensures CtxOk(s', d) { assert CtxOk(s, d); }
  }

  /** Every step, whatever interleaving it belongs to, keeps the contexts
      exclusive and the frames restorable. */
  lemma InvStep(s: State, e: Step, s': State)
    requires Inv(s) && Next(s, e, s')
    ensures Inv(s')
  {
    hide Inv, LeaveCmd, Deposit;
    match e
    case Admit(_, _, _, _) => InvCall(s, e, s');
    case Dispatch(_, _, _) => InvCall(s, e, s');
    case SendFail(t) => InvSendFail(s, t);
    case Timeout(t) => InvLeave(s, t, s.ctx[Own(s, t)].(locked := true));
    case Take(t) =>
      if s.ctx[Own(s, t)].slot.Packet? && s.ctx[Own(s, t)].slot.m.kind == Cmd {
        InvOwn(s, e, s');
      } else {
        InvLeave(s, t, s.ctx[Own(s, t)].(slot := Empty, locked := true));
      }
    case Send(_) => InvOwn(s, e, s');
    case Respond(_, _) => InvOwn(s, e, s');
    case Finish(_) => InvOwn(s, e, s');
    case DispatchEvent(_, _) => InvEvent(s, e, s');
    case FinishEvent(_) => InvEvent(s, e, s');
    case Route(side) =>
      var m := s.rx.At(side).value;
      if Addressed(m) && Cid(side, m.dst) in s.ctx { InvDeposit(s, side); } else { InvSame(s, s'); }
    case Sweep(side) => InvSlot(s, s', Cid(side, s.gate.At(side).sweep.value));
    case _ => InvSame(s, s');
  }

  lemma {:induction false} InvRun(tr: seq<State>, es: seq<Step>, i: nat)
    requires IsRun(tr, es) && i < |tr|
    ensures Inv(tr[i])
  {
    if i > 0 {
      InvRun(tr, es, i - 1);
      InvStep(tr[i - 1], es[i - 1], tr[i]);
    }
  }

  /** Context exclusivity, in every state of every run: a reserved context is in
      the TLS of exactly one thread, a thread holds at most one, a thread between
      work items holds none, and the use count is the number of activations. */
  lemma ContextExclusivity(tr: seq<State>, es: seq<Step>, i: nat)
    requires IsRun(tr, es) && i < |tr|
    ensures forall c | c in tr[i].ctx :: (tr[i].ctx[c].owner.Some? <==> exists t :: Holds(tr[i], t, c.n) && t.side == c.side)
    ensures forall t, u, n | Holds(tr[i], t, n) && Holds(tr[i], u, n) && t.side == u.side :: t == u
    ensures forall t | t in tr[i].thr :: tr[i].thr[t].stack.Nil? <==> tr[i].thr[t].tls.None?
    ensures forall t, n | Holds(tr[i], t, n) ::
              tr[i].ctx[Cid(t.side, n)].uses == Uses(tr[i].thr[t].stack) && Uses(tr[i].thr[t].stack) >= 1
  {
    InvRun(tr, es, i);
    var s := tr[i];
    forall c | c in s.ctx
      ensures s.ctx[c].owner.Some? <==> exists t :: Holds(s, t, c.n) && t.side == c.side
    {
      assert CtxOk(s, c);
      if s.ctx[c].owner.Some? {
        assert Holds(s, s.ctx[c].owner.value, c.n);
      }
    }
    forall t, n | Holds(s, t, n)
      ensures s.ctx[Cid(t.side, n)].owner == Some(t)
      ensures s.ctx[Cid(t.side, n)].uses == Uses(s.thr[t].stack) && Uses(s.thr[t].stack) >= 1
    {
      assert ThreadOk(s, t);
      StackUses(s.thr[t].stack);
    }
    forall t | t in s.thr ensures s.thr[t].stack.Nil? <==> s.thr[t].tls.None? { assert ThreadOk(s, t); }
  }

  /** Frame restoration, in every state of every run: a context on which a thread
      waits is unlocked and shows the handler of the innermost outstanding
      command, and every command frame holds exactly the handler that the frames
      below it show. */
  lemma WaitingShowsInnermost(tr: seq<State>, es: seq<Step>, i: nat, t: Tid, n: nat)
    requires IsRun(tr, es) && i < |tr| && Holds(tr[i], t, n) && tr[i].thr[t].pc == Waiting
    ensures tr[i].thr[t].stack.Push? && tr[i].thr[t].stack.top.CmdFrame?
    ensures tr[i].ctx[Cid(t.side, n)].handler == HandlerOf(tr[i].thr[t].stack.top.sink)
    ensures tr[i].thr[t].stack.top.saved == Shown(tr[i].thr[t].stack.below)
    ensures !tr[i].ctx[Cid(t.side, n)].locked && tr[i].ctx[Cid(t.side, n)].owner == Some(t)
  {
    InvRun(tr, es, i);
    assert ThreadOk(tr[i], t);
  }

  /** The steps by which nrf_rpc_cmd_common returns. */
  predicate Leaves(s: State, e: Step) {
    || e.SendFail? || e.Timeout?
    || (e.Take? && Enabled(s, e) && !(s.ctx[Own(s, e.t)].slot.Packet? && s.ctx[Own(s, e.t)].slot.m.kind == Cmd))
  }

  /** The activation `f` on top of `base` is still on the stack. */
  predicate Active(st: Stack, base: Stack, f: Frame) {
    st.Push? && (st == Push(base, f) || Active(st.below, base, f))
  }

  /** What the caller of nrf_rpc_cmd_common finds restored: its frames, the
      handler it had shown, the use count of its frames, and its context (or
      none, when it had none). */
  predicate Restored(s: State, t: Tid, before: Stack) {
    && t in s.thr && s.thr[t].stack == before && s.thr[t].pc == Running
    && (before.Nil? <==> s.thr[t].tls.None?)
    && (before.Push? ==>
          && Owns(s, t)
          && s.ctx[Own(s, t)].owner == Some(t) && s.ctx[Own(s, t)].locked
          && s.ctx[Own(s, t)].handler == Shown(before) && s.ctx[Own(s, t)].uses == Uses(before))
  }

  /** Every exit, at any depth and in any interleaving, restores the frame. */
  lemma LeaveRestores(s: State, e: Step, s': State)
    requires Inv(s) && Next(s, e, s') && Leaves(s, e)
    ensures s.thr[e.t].stack.Push? && Restored(s', e.t, s.thr[e.t].stack.below)
  {
    InvStep(s, e, s');
    assert ThreadOk(s, e.t) && ThreadOk(s', e.t);
  }

  /** A thread keeps its context for as long as it has any frame. */
  lemma TlsStable(s: State, e: Step, s': State, t: Tid)
    requires t in s.thr && ThreadOk(s, t) && Next(s, e, s') && s.thr[t].stack.Push?
    ensures t in s'.thr && (s'.thr[t].stack.Push? ==> s'.thr[t].tls == s.thr[t].tls)
  {
    match e
    case SendFail(u) => TlsLeave(s, u, s.ctx[Own(s, u)], t);
    case Timeout(u) => TlsLeave(s, u, s.ctx[Own(s, u)].(locked := true), t);
    case Take(u) => TlsLeave(s, u, s.ctx[Own(s, u)].(slot := Empty, locked := true), t);
    case _ =>
  }

  lemma TlsLeave(s: State, u: Tid, x: Ctx, t: Tid)
    requires t in s.thr && ThreadOk(s, t) && s.thr[t].stack.Push? && InCmd(s, u)
    requires x == s.ctx[Own(s, u)].(slot := x.slot, locked := true) || x == s.ctx[Own(s, u)]
    ensures t in LeaveCmd(s, u, x).thr
    ensures LeaveCmd(s, u, x).thr[t].stack.Push? ==> LeaveCmd(s, u, x).thr[t].tls == s.thr[t].tls
  {
    var b := s.thr[t].stack.below;
    if b.Push? { StackUses(b); }
  }

  /** Thread t has some frame in every state from i to j. */
  ghost predicate Busy(tr: seq<State>, i: nat, j: nat, t: Tid)
    requires i <= j < |tr|
  {
    forall k | i <= k <= j :: t in tr[k].thr && tr[k].thr[t].stack.Push?
  }

  lemma {:induction false} TlsKept(tr: seq<State>, es: seq<Step>, i: nat, j: nat, t: Tid)
    requires IsRun(tr, es) && i <= j < |tr| && Busy(tr, i, j, t)
    ensures tr[j].thr[t].tls == tr[i].thr[t].tls
  {
    if i < j {
      TlsKept(tr, es, i, j - 1, t);
      InvRun(tr, es, j - 1);
      assert ThreadOk(tr[j - 1], t);
      TlsStable(tr[j - 1], es[j - 1], tr[j], t);
    }
  }

  /** The whole call: thread t enters nrf_rpc_cmd_common at step i and leaves that
      same activation at step j, with any nesting and interleaving in between and
      by any exit. Its context, the handler on it and its use count are what they
      were; a thread that had no context has none again. */
  lemma CallRestores(tr: seq<State>, es: seq<Step>, i: nat, j: nat, t: Tid)
    requires IsRun(tr, es) && i < j < |es| && es[i].Admit? && es[i].t == t
    requires Leaves(tr[j], es[j]) && es[j].t == t && t in tr[i].thr && t in tr[j].thr
    requires forall k | i < k <= j ::
               t in tr[k].thr && Active(tr[k].thr[t].stack, tr[i].thr[t].stack, tr[i + 1].thr[t].stack.top)
    requires tr[j].thr[t].stack.Push? && tr[j].thr[t].stack.below == tr[i].thr[t].stack
    ensures t in tr[j + 1].thr && tr[j + 1].thr[t].stack == tr[i].thr[t].stack
    ensures tr[j + 1].thr[t].tls == tr[i].thr[t].tls && tr[j + 1].thr[t].pc == Running
    ensures Owns(tr[i], t) ==>
              && Owns(tr[j + 1], t) && Own(tr[j + 1], t) == Own(tr[i], t)
              && tr[j + 1].ctx[Own(tr[i], t)].handler == tr[i].ctx[Own(tr[i], t)].handler
              && tr[j + 1].ctx[Own(tr[i], t)].uses == tr[i].ctx[Own(tr[i], t)].uses
              && tr[j + 1].ctx[Own(tr[i], t)].owner == Some(t)
  {
    hide Next, Leaves, StackOk, Inv;
    assert Next(tr[j], es[j], tr[j + 1]);
    InvRun(tr, es, j);
    LeaveRestores(tr[j], es[j], tr[j + 1]);
    ThreadAt(tr, es, i, t);
    ThreadAt(tr, es, j + 1, t);
    if tr[i].thr[t].stack.Push? {
      assert Busy(tr, i, j + 1, t);
      TlsKept(tr, es, i, j + 1, t);
    }
  }

  /** When nrf_rpc_cmd_common gets through, in every state of every run: the thread
      runs, its side is neither stopped nor being stopped, and the thread gets a
      free context if it has none, or nests on its own below the 256th activation. */
  lemma AdmitIff(tr: seq<State>, es: seq<Step>, i: nat, t: Tid, sink: Sink, arg: nat, n: nat)
    requires IsRun(tr, es) && i < |tr|
    ensures var s := tr[i];
            (exists s' :: Next(s, Admit(t, sink, arg, n), s')) <==>
              && t in s.thr && s.thr[t].pc == Running
              && s.gate.At(t.side) == Gate(false, None)
              && (if s.thr[t].stack.Nil? then Cid(t.side, n) in s.ctx && s.ctx[Cid(t.side, n)].owner.None?
                  else s.thr[t].tls == Some(n) && Uses(s.thr[t].stack) < 255)
  {
    InvRun(tr, es, i);
    var s, e := tr[i], Admit(t, sink, arg, n);
    if t in s.thr { assert ThreadOk(s, t); }
    if Cid(t.side, n) in s.ctx { assert CtxOk(s, Cid(t.side, n)); }
    if Enabled(s, e) && Fits(s, e) { assert Next(s, e, Apply(s, e)); }
  }

  /** Nobody keeps the mutex of context c: it is free, or its owner waits in a call. */
  predicate Accessible(s: State, c: Cid) {
    c in s.ctx && (s.ctx[c].owner.None? || (s.ctx[c].owner.value in s.thr && s.thr[s.ctx[c].owner.value].pc == Waiting))
  }

  predicate MailboxOf(s: State, t: Tid, empty: bool) {
    && t in s.thr && s.thr[t].tls.Some? && Cid(t.side, s.thr[t].tls.value) in s.ctx
    && (s.ctx[Cid(t.side, s.thr[t].tls.value)].slot == Empty <==> empty)
  }

  /** When a step can happen, from what the threads do and without any mutex. */
  predicate Possible(s: State, e: Step) {
    match e
    case Admit(t, _, _, n) =>
      && t in s.thr && s.thr[t].pc == Running && s.gate.At(t.side) == Gate(false, None)
      && (if s.thr[t].stack.Nil? then Cid(t.side, n) in s.ctx && s.ctx[Cid(t.side, n)].owner.None?
          else s.thr[t].tls == Some(n) && Uses(s.thr[t].stack) < 255)
    case Send(t) => t in s.thr && s.thr[t].pc.Sending?
    case SendFail(t) => t in s.thr && s.thr[t].pc.Sending?
    case Take(t) => t in s.thr && s.thr[t].pc == Waiting && MailboxOf(s, t, false)
    case Timeout(t) => t in s.thr && s.thr[t].pc == Waiting && MailboxOf(s, t, true)
    case Dispatch(t, m, n) =>
      && t in s.thr && s.thr[t].stack.Nil? && !s.thr[t].inEvent && m in s.pool && m.to == t.side && m.kind == Cmd
      && Cid(t.side, n) in s.ctx && s.ctx[Cid(t.side, n)].owner.None?
    case Respond(t, _) => t in s.thr && s.thr[t].stack.Push? && s.thr[t].stack.top.SrvFrame?
    case Finish(t) => t in s.thr && s.thr[t].stack.Push? && s.thr[t].stack.top.SrvFrame?
    case SendEvent(t, _) => t in s.thr && s.thr[t].pc == Running
    case DispatchEvent(t, m) =>
      t in s.thr && s.thr[t].stack.Nil? && !s.thr[t].inEvent && m in s.pool && m.to == t.side && m.kind == Evt
    case FinishEvent(t) => t in s.thr && s.thr[t].stack.Nil? && s.thr[t].inEvent
    case Arrive(m) => m in s.net && s.rx.At(m.to) == None
    case Route(side) =>
      && s.rx.At(side).Some?
      && var m := s.rx.At(side).value;
         (m.kind == Rsp || (m.kind == Cmd && m.dst != 0xFF)) && Cid(side, m.dst) in s.ctx ==> Accessible(s, Cid(side, m.dst))
    case StopBegin(side) => s.gate.At(side).sweep == None
    case Sweep(side) => s.gate.At(side).sweep.Some? && Accessible(s, Cid(side, s.gate.At(side).sweep.value))
    case StopEnd(side) => s.gate.At(side).sweep.Some? && Cid(side, s.gate.At(side).sweep.value) !in s.ctx
    case Resume(_) => true
  }

  /** Every step of the code is possible exactly then, in every state of every run. */
  lemma PossibleIff(tr: seq<State>, es: seq<Step>, i: nat, e: Step)
    requires IsRun(tr, es) && i < |tr|
    ensures (exists s' :: Next(tr[i], e, s')) <==> Possible(tr[i], e)
  {
    var s := tr[i];
    InvRun(tr, es, i);
    if Enabled(s, e) && Fits(s, e) { assert Next(s, e, Apply(s, e)); }
    match e
    case Admit(t, sink, arg, n) => AdmitIff(tr, es, i, t, sink, arg, n);
    case Route(side) =>
      if s.rx.At(side).Some? { MutexIff(s, Cid(side, s.rx.At(side).value.dst)); }
    case Sweep(side) =>
      if s.gate.At(side).sweep.Some? { MutexIff(s, Cid(side, s.gate.At(side).sweep.value)); }
    case Dispatch(t, _, n) =>
      MutexIff(s, Cid(t.side, n));
      if t in s.thr { assert ThreadOk(s, t); }
    case _ => StepThread(s, e);
  }

  lemma MutexIff(s: State, c: Cid)
    requires Inv(s)
    ensures c in s.ctx ==> (Accessible(s, c) <==> !s.ctx[c].locked) && (s.ctx[c].owner.None? ==> !s.ctx[c].locked)
  {
    if c in s.ctx {
      assert CtxOk(s, c);
      if s.ctx[c].owner.Some? { assert ThreadOk(s, s.ctx[c].owner.value); }
    }
  }

  /** A step of one thread. */
  lemma StepThread(s: State, e: Step)
    requires Inv(s) && !e.Admit? && !e.Route? && !e.Sweep? && !e.Dispatch?
    ensures Enabled(s, e) && Fits(s, e) <==> Possible(s, e)
  {
    if (e.Send? || e.SendFail? || e.Take? || e.Timeout? || e.Respond? || e.Finish? || e.DispatchEvent? || e.FinishEvent?)
       && e.t in s.thr {
      assert ThreadOk(s, e.t);
    }
  }

  lemma ThreadAt(tr: seq<State>, es: seq<Step>, i: nat, t: Tid)
    requires IsRun(tr, es) && i < |tr| && t in tr[i].thr
    ensures ThreadOk(tr[i], t)
  {
    InvRun(tr, es, i);
  }

  /** The context with `frames` activations on it: one allocation and
      frames - 1 nested reservations. */
  function Nested(x: Ctx, t: Tid, frames: nat): Ctx
    requires frames >= 1
    decreases frames
  {
    if frames == 1 then Alloc(x, t) else Reserve(Nested(x, t, frames - 1))
  }

  lemma Wraps(n: nat)
    requires n >= 1
    ensures Inc8((n - 1) % 256) == n % 256 && Dec8(n % 256) == (n - 1) % 256
  {
  }

  lemma {:induction false} NestedUses(x: Ctx, t: Tid, frames: nat)
    requires frames >= 1
    ensures Nested(x, t, frames) == Alloc(x, t).(uses := frames % 256)
  {
    hide Inc8, Dec8;
    if frames > 1 {
      NestedUses(x, t, frames - 1);
      Wraps(frames);
    }
  }

  /** Where the uint8 counter ends. A packet for the context is taken exactly when
      the number of activations is no multiple of 256, and the end of the
      innermost activation gives the context away exactly when the number of
      those that remain is a multiple of 256: rightly when none remains, and for
      instance wrongly under 256 live ones. */
  lemma NestingLimit(x: Ctx, t: Tid, frames: nat, m: Msg)
    requires frames >= 1 && x.slot == Empty
    ensures Nested(x, t, frames).uses == frames % 256 && Nested(x, t, frames).slot == Empty
    ensures Deposit(Nested(x, t, frames), m, false).slot == Packet(m) <==> frames % 256 != 0
    ensures Nested(x, t, frames).owner == Some(t)
    ensures Release(Nested(x, t, frames)).owner == None <==> (frames - 1) % 256 == 0
  {
    hide Inc8, Dec8, Nested;
    NestedUses(x, t, frames);
    Wraps(frames);
  }
}
