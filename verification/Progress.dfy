/** What can keep a polite run from going on. The receive thread of a side takes
    no packet while it waits for a decode_done_event or, in thread_pool_send, for
    a pool thread. */
module Progress {
  import opened Common
  import opened Contexts
  import opened Engine
  import opened Packets
  import opened Refinement
  import opened Buffers
  import CallStacks

  // ------------------------------------------------ where packets and holders are

  /** A packet in a mailbox, or with a reader, is on the side it was sent to. */
  ghost predicate SidesOk(b: Buf) {
    && (forall c | c in b.s.ctx && b.s.ctx[c].slot.Packet? :: b.s.ctx[c].slot.m.to == c.side)
    && (forall m | m in b.held :: b.held[m] in b.s.thr && b.held[m].side == m.to)
  }

  lemma SidesEngine(s: State, e: Step, s': State)
    requires Unique(s) && Next(s, e, s')
    requires forall c | c in s.ctx && s.ctx[c].slot.Packet? :: s.ctx[c].slot.m.to == c.side
    ensures forall c | c in s'.ctx && s'.ctx[c].slot.Packet? :: s'.ctx[c].slot.m.to == c.side
    ensures s'.thr.Keys == s.thr.Keys
  {
  }

  lemma SidesStep(b: Buf, a: Act)
    requires Unique(b.s) && SidesOk(b) && Can(b, a)
    ensures SidesOk(After(b, a))
  {
    hide Unique;
    match a
    case Run(e) =>
      SidesEngine(b.s, e, Apply(b.s, e));
      AfterRuns(b, e);
      SidesHeld(b, e);
    case _ =>
  }

  lemma SidesHeld(b: Buf, e: Step)
    requires SidesOk(b) && Can(b, Run(e))
    ensures forall m | m in After(b, Run(e)).held ::
              After(b, Run(e)).held[m] in b.s.thr && After(b, Run(e)).held[m].side == m.to
  {
    hide ApplyArrive, ApplyRoute, ApplyTake, ApplyAdmit, ApplyDispatch, ApplySend, LeaveCmd;
  }

  lemma {:induction false} SidesRun(tr: seq<Buf>, acts: seq<Act>, i: nat)
    requires IsBufRun(tr, acts) && i < |tr|
    ensures SidesOk(tr[i])
  {
    if i > 0 {
      hide After, Can, SidesOk, Inv, Unique, Books;
      SidesRun(tr, acts, i - 1);
      BufRun(tr, acts, i - 1);
      SidesStep(tr[i - 1], acts[i - 1]);
    }
  }

  // ------------------------------------------------ what can go on

  /** The receive thread of a side is inside thread_pool_send: a packet for the pool
      has no thread yet. */
  ghost predicate InPoolSend(b: Buf, side: Side) {
    exists m :: m in b.s.pool && m.to == side
  }

  /** The step of the core by which something goes on at a side; pool threads are
      among `workers`. */
  ghost predicate CoreStep(b: Buf, workers: set<Tid>, side: Side, a: Act) {
    && Can(b, a)
    && match a
       case Run(Send(t)) => t.side == side
       case Run(Take(t)) => t.side == side
       case Run(Route(x)) => x == side
       case Run(Arrive(m)) => m.to == side && !InPoolSend(b, side)
       case Run(Dispatch(t, _, _)) => t.side == side && t in workers
       case Run(DispatchEvent(t, _)) => t.side == side && t in workers
       case WakeReceiver(x) => x == side
       case _ => false
  }

  /** Application code runs in thread t: a decoder, an event handler, or the code
      after a call that still has the response. */
  ghost predicate AppRuns(b: Buf, t: Tid) {
    && t in b.s.thr && b.s.thr[t].pc == Running
    && (InSrv(b.s, t) || b.s.thr[t].inEvent || exists m :: m in b.held && b.held[m] == t)
  }

  /** Every pool thread of the side waits inside a call, or a command needs a context
      and every context of the side is held by a thread that does. */
  ghost predicate Starved(b: Buf, workers: set<Tid>, m: Msg) {
    && m in b.s.pool
    && (|| (forall u | u in workers && u in b.s.thr && u.side == m.to :: b.s.thr[u].pc == Waiting)
        || (m.kind == Cmd && forall c | c in b.s.ctx && c.side == m.to ::
              && b.s.ctx[c].owner.Some? && b.s.ctx[c].owner.value in b.s.thr
              && b.s.thr[b.s.ctx[c].owner.value].pc == Waiting))
  }

  ghost predicate GoesOn(b: Buf, workers: set<Tid>, side: Side) {
    || (exists a :: CoreStep(b, workers, side, a))
    || (exists t :: AppRuns(b, t) && t.side == side)
    || (exists m :: Starved(b, workers, m) && m.to == side)
  }

  /** A thread inside a call with an empty mailbox. */
  predicate CallsOn(s: State, t: Tid) {
    Owns(s, t) && s.thr[t].pc != Running && s.ctx[Own(s, t)].slot == Empty
  }

  /** Thread t waits inside a call for a packet that cannot come: the receive thread
      of its side waits until t is done with packet m. */
  ghost predicate SelfBlocked(b: Buf, t: Tid, m: Msg) {
    && m in b.held && b.held[m] == t && t.side == m.to
    && b.busy.At(m.to) == Some(m) && !b.done.At(m.to)
    && CallsOn(b.s, t)
  }

  ghost predicate Blocked(b: Buf, t: Tid) {
    exists m :: SelfBlocked(b, t, m)
  }

  /** Something is under way on a side. */
  ghost predicate Pending(b: Buf, side: Side) {
    || b.s.rx.At(side).Some? || b.busy.At(side).Some?
    || (exists m :: m in b.s.net && m.to == side) || InPoolSend(b, side)
    || exists t: Tid :: t.side == side && Ready(b.s, t)
  }

  // ------------------------------------------------ the cases

  ghost predicate Good(b: Buf) {
    BufInv(b) && SidesOk(b) && Complete(b) && Related(b.s)
  }

  lemma ReadyGoesOn(b: Buf, workers: set<Tid>, t: Tid)
    requires Ready(b.s, t)
    ensures GoesOn(b, workers, t.side)
  {
    if CanSend(b.s, t) {
      assert CoreStep(b, workers, t.side, Run(Send(t)));
    } else if CanTake(b.s, t) {
      assert CoreStep(b, workers, t.side, Run(Take(t)));
    } else {
      assert AppRuns(b, t);
    }
  }

  /** A thread that is not waiting is ready, handles an event, or is idle. */
  lemma NotWaiting(s: State, t: Tid)
    requires t in s.thr && ThreadOk(s, t) && s.thr[t].pc != Waiting
    ensures Ready(s, t) || Idle(s, t)
  {
  }

  lemma RxGoesOn(b: Buf, workers: set<Tid>, side: Side)
    requires Good(b) && b.s.rx.At(side).Some?
    ensures GoesOn(b, workers, side)
  {
    var m := b.s.rx.At(side).value;
    hide Books, Inv, Unique, Complete, SidesOk;
    var g :| Rel(b.s, g);
    if CanRoute(b.s, side) {
      assert CoreStep(b, workers, side, Run(Route(side)));
    } else {
      assert Carried(g, InRx(m)) && m.to == side;
      var p :| Carries(g, p, InRx(m));
      hide Rel;
      RxDecoder(b.s, g, p, m);
      var t :| InSrv(b.s, t) && t.side == side;
      ReadyGoesOn(b, workers, t);
    }
  }

  lemma PoolGoesOn(b: Buf, workers: set<Tid>, m: Msg)
    requires Good(b) && m in b.s.pool
    ensures GoesOn(b, workers, m.to)
  {
    hide Books, Unique, Complete, SidesOk, Related;
    if !Starved(b, workers, m) {
      var u :| u in workers && u in b.s.thr && u.side == m.to && b.s.thr[u].pc != Waiting;
      NotWaiting(b.s, u);
      if Ready(b.s, u) {
        ReadyGoesOn(b, workers, u);
      } else if b.s.thr[u].inEvent {
        assert AppRuns(b, u);
      } else {
        IdleWorker(b, workers, m, u);
      }
    }
  }

  lemma PooledKind(s: State, g: Talks, m: Msg)
    requires Rel(s, g) && m in s.pool
    ensures m.kind == Evt || m.kind == Cmd
  {
    if m.kind != Evt {
      assert Carried(g, InPool(m));
      var p :| Carries(g, p, InPool(m));
      assert TalkOk(s, p, g[p]);
    }
  }

  lemma IdleWorker(b: Buf, workers: set<Tid>, m: Msg, u: Tid)
    requires Good(b) && m in b.s.pool && !Starved(b, workers, m)
    requires u in workers && u.side == m.to && Idle(b.s, u) && !b.s.thr[u].inEvent
    ensures GoesOn(b, workers, m.to)
  {
    hide Books, Unique, Complete, SidesOk, Rel;
    var g :| Rel(b.s, g);
    PooledKind(b.s, g, m);
    if m.kind == Evt {
      assert CoreStep(b, workers, m.to, Run(DispatchEvent(u, m)));
    } else {
      var c :| c in b.s.ctx && c.side == m.to && !(b.s.ctx[c].owner.Some? && b.s.ctx[c].owner.value in b.s.thr
                                                   && b.s.thr[b.s.ctx[c].owner.value].pc == Waiting);
      assert CtxOk(b.s, c);
      if b.s.ctx[c].owner.None? {
        assert CoreStep(b, workers, m.to, Run(Dispatch(u, m, c.n)));
      } else {
        var t := b.s.ctx[c].owner.value;
        assert ThreadOk(b.s, t);
        NotWaiting(b.s, t);
        ReadyGoesOn(b, workers, t);
      }
    }
  }

  lemma CallerReady(s: State, t: Tid)
    requires t in s.thr && ThreadOk(s, t) && s.thr[t].pc != Running
    ensures Ready(s, t) || CallsOn(s, t)
  {
  }

  /** The reader for whom the receive thread waits. */
  lemma HolderGoesOn(b: Buf, workers: set<Tid>, m: Msg)
    requires Good(b) && m in b.held && b.busy.At(m.to) == Some(m) && !b.done.At(m.to)
    ensures GoesOn(b, workers, m.to) || (SelfBlocked(b, b.held[m], m) && b.held[m].side == m.to)
  {
    var t := b.held[m];
    assert t in b.s.thr && t.side == m.to && ThreadOk(b.s, t);
    hide Good, Ready, ThreadOk, InSrv;
    if b.s.thr[t].pc == Running {
      assert AppRuns(b, t);
    } else {
      CallerReady(b.s, t);
      if Ready(b.s, t) { ReadyGoesOn(b, workers, t); }
    }
  }

  /** A mailbox that is not empty belongs to a thread that is ready. */
  lemma BoxOwner(s: State, g: Talks, c: Cid) returns (t: Tid)
    requires Inv(s) && Rel(s, g) && c in s.ctx && s.ctx[c].slot != Empty
    ensures Ready(s, t) && t.side == c.side
  {
    hide Rel;
    assert CtxOk(s, c);
    var p := SlotToken(s, g, c);
    t := s.ctx[c].owner.value;
    assert ThreadOk(s, t);
  }

  lemma BoxGoesOn(b: Buf, workers: set<Tid>, m: Msg, c: Cid)
    requires Good(b) && At(b.s, m, Box(c))
    ensures GoesOn(b, workers, m.to)
  {
    assert m.to == c.side;
    hide Books, Unique, Complete, SidesOk, Inv, Rel, Ready, GoesOn;
    var g :| Rel(b.s, g);
    var t := BoxOwner(b.s, g, c);
    ReadyGoesOn(b, workers, t);
  }

  /** The receive thread waits for the decoding of a packet. */
  lemma BusyGoesOn(b: Buf, workers: set<Tid>, side: Side)
    requires Good(b) && b.busy.At(side).Some?
    ensures GoesOn(b, workers, side) || exists t: Tid :: Blocked(b, t) && t.side == side
  {
    var m := b.busy.At(side).value;
    assert m.to == side && m in b.received && m !in b.freed && Somewhere(b, m) && b.s.rx.At(side).None?;
    hide Books, Inv, Unique, Complete, SidesOk, Related, SelfBlocked;
    if b.done.At(side) {
      assert CoreStep(b, workers, side, WakeReceiver(side));
    } else if m in b.held {
      HolderGoesOn(b, workers, m);
    } else if m in b.s.pool {
      PoolGoesOn(b, workers, m);
    } else {
      var c :| At(b.s, m, Box(c));
      BoxGoesOn(b, workers, m, c);
    }
  }

  /** Whatever is under way on a side goes on, or a thread of the side blocks it. */
  lemma SideGoesOn(b: Buf, workers: set<Tid>, side: Side)
    requires Good(b) && Pending(b, side)
    ensures GoesOn(b, workers, side) || exists t: Tid :: Blocked(b, t) && t.side == side
  {
    hide Good, GoesOn, Blocked;
    if t: Tid :| t.side == side && Ready(b.s, t) {
      ReadyGoesOn(b, workers, t);
    } else if b.busy.At(side).Some? {
      BusyGoesOn(b, workers, side);
    } else if b.s.rx.At(side).Some? {
      RxGoesOn(b, workers, side);
    } else if m :| m in b.s.pool && m.to == side {
      PoolGoesOn(b, workers, m);
    } else {
      var m :| m in b.s.net && m.to == side;
      NetGoesOn(b, workers, m);
    }
  }

  lemma NetGoesOn(b: Buf, workers: set<Tid>, m: Msg)
    requires m in b.s.net && b.s.rx.At(m.to).None? && b.busy.At(m.to).None? && !InPoolSend(b, m.to)
    ensures GoesOn(b, workers, m.to)
  {
    assert CoreStep(b, workers, m.to, Run(Arrive(m)));
  }

  /** A conversation is under way on one of the sides. */
  lemma TalkPending(b: Buf, p: Tid, v: Talk)
    requires Inv(b.s) && TalkOk(b.s, p, v)
    ensures Pending(b, Local) || Pending(b, Remote)
  {
    hide Inv, TalkOk, Ready;
    if v.tok.InNet? || v.tok.InRx? || v.tok.InPool? {
      TokenPlaced(b.s, p, v);
      assert v.tok.m.to == Local || v.tok.m.to == Remote;
    } else {
      var u := RestingReady(b.s, p, v);
      SidePending(b, u);
    }
  }

  /** Outside of any conversation only the end of a decoder is left. */
  lemma AloneReady(s: State, g: Talks, t: Tid)
    requires Inv(s) && Rel(s, g) && t in s.thr && s.thr[t].stack.Push? && !Talking(g, t)
    ensures Ready(s, t)
  {
    hide TalkOk;
    assert ThreadOk(s, t);
  }

  /** A thread inside a call or a decoder is part of a conversation that is under way
      on one of the sides. */
  lemma FramePending(b: Buf, t: Tid)
    requires Good(b) && t in b.s.thr && b.s.thr[t].stack.Push?
    ensures Pending(b, Local) || Pending(b, Remote)
  {
    assert Inv(b.s) && Related(b.s);
    hide Good, Inv, TalkOk, Ready, Pending;
    var g :| Rel(b.s, g);
    if Talking(g, t) {
      var p :| InTalk(g, p, t);
      assert TalkOk(b.s, p, g[p]);
      TalkPending(b, p, g[p]);
    } else {
      AloneReady(b.s, g, t);
      SidePending(b, t);
    }
  }

  lemma SidePending(b: Buf, t: Tid)
    requires Ready(b.s, t)
    ensures Pending(b, Local) || Pending(b, Remote)
  {
    assert t.side == Local || t.side == Remote;
    assert Pending(b, t.side);
  }

  lemma GoodRun(tr: seq<Buf>, acts: seq<Act>, i: nat)
    requires PoliteBufRun(tr, acts) && i < |tr|
    ensures Good(tr[i])
  {
    hide BufInv, SidesOk, Complete, Related, Can, After, PoliteAct;
    BufRun(tr, acts, i);
    SidesRun(tr, acts, i);
    CompleteRun(tr, acts, i);
  }

  /** No deadlock, in every state of a polite run and whichever threads form the pool:
      while any thread is inside a call or decoder something is under way, and
      whatever is under way on a side goes on there, unless a thread of the side
      waits in a call with a packet that the receive thread waits for. */
  lemma NoDeadlock(tr: seq<Buf>, acts: seq<Act>, i: nat, workers: set<Tid>)
    requires PoliteBufRun(tr, acts) && i < |tr|
    ensures (exists t :: t in tr[i].s.thr && tr[i].s.thr[t].stack.Push?) ==>
              Pending(tr[i], Local) || Pending(tr[i], Remote)
    ensures forall side: Side | Pending(tr[i], side) ::
              GoesOn(tr[i], workers, side) || exists t: Tid :: Blocked(tr[i], t) && t.side == side
  {
    hide Good, Pending, GoesOn, Blocked, PoliteBufRun;
    GoodRun(tr, acts, i);
    if t :| t in tr[i].s.thr && tr[i].s.thr[t].stack.Push? { FramePending(tr[i], t); }
    forall side: Side | Pending(tr[i], side)
      ensures GoesOn(tr[i], workers, side) || exists t: Tid :: Blocked(tr[i], t) && t.side == side
    {
      SideGoesOn(tr[i], workers, side);
    }
  }

  // ------------------------------------------------ a thread that blocks itself

  /** Thread t is still decoding a packet that its receive thread must get back. */
  ghost predicate Holding(b: Buf, t: Tid) {
    exists m :: m in b.held && b.held[m] == t && b.s.autoFree.At(m.to)
  }

  /** nrf_rpc_decoding_done is called by code of the thread that has the packet, so
      not while that thread is inside a call. */
  predicate ByOwnCode(b: Buf, a: Act) {
    a.DecodingDone? ==> a.t in b.s.thr && b.s.thr[a.t].pc == Running
  }

  /** A step of another thread on the context it has. */
  lemma CallsOnOther(s: State, e: Step, s': State, t: Tid)
    requires Next(s, e, s') && CallsOn(s, t) && (e.Take? || e.Finish? || e.Respond? || e.Send?)
    requires e.t != t && Owns(s, e.t) && Own(s, e.t) != Own(s, t)
    ensures CallsOn(s', t) && s'.thr[t].stack == s.thr[t].stack
  {
  }

  /** A step that gives another thread a context, or nests on its own. */
  lemma CallsOnReserve(s: State, e: Step, s': State, t: Tid)
    requires Next(s, e, s') && CallsOn(s, t) && (e.Admit? || e.Dispatch?)
    requires e.t != t && Cid(e.t.side, e.n) != Own(s, t)
    ensures CallsOn(s', t) && s'.thr[t].stack == s.thr[t].stack
  {
  }

  lemma CallsOnRest(s: State, e: Step, s': State, t: Tid)
    requires Next(s, e, s') && Polite(s, e) && CallsOn(s, t) && e != Route(t.side)
    requires !(e.Take? || e.Finish? || e.Respond? || e.Send? || e.Admit? || e.Dispatch?) || e == Send(t)
    ensures CallsOn(s', t) && s'.thr[t].stack == s.thr[t].stack
  {
  }

  lemma CallsOnStep(s: State, e: Step, s': State, t: Tid)
    requires Inv(s) && Next(s, e, s') && Polite(s, e) && CallsOn(s, t) && e != Route(t.side)
    ensures CallsOn(s', t) && s'.thr[t].stack == s.thr[t].stack
  {
    assert forall u | u in s.thr :: ThreadOk(s, u);
    hide StackOk, Uses, Shown, Apply, Inv, Polite;
    assert ThreadOk(s, t);
    if e.Take? || e.Finish? || e.Respond? || e.Send? {
      assert ThreadOk(s, e.t);
      if e.t == t { CallsOnRest(s, e, s', t); } else { CallsOnOther(s, e, s', t); }
    } else if e.Admit? || e.Dispatch? {
      CallsOnReserve(s, e, s', t);
    } else {
      CallsOnRest(s, e, s', t);
    }
  }

  lemma BlockedEngine(b: Buf, e: Step, t: Tid, m: Msg)
    requires Can(b, Run(e)) && SelfBlocked(b, t, m) && Away(b, m) && b.s.rx.At(m.to).None?
    ensures e != Route(t.side)
    ensures var b' := After(b, Run(e));
            m in b'.held && b'.held[m] == t && b'.busy.At(m.to) == Some(m) && !b'.done.At(m.to)
  {
    hide ApplyArrive, ApplyRoute, ApplyTake, ApplyAdmit, ApplyDispatch, ApplySend, LeaveCmd;
    match e
    case Route(side) => assert side == m.to || side == Other(m.to);
    case Take(u) => assert !At(b.s, m, Box(Own(b.s, u)));
    case Dispatch(_, n, _) => assert !At(b.s, m, Pool);
    case DispatchEvent(_, n) => assert !At(b.s, m, Pool);
    case _ =>
  }

  lemma BlockedBooks(b: Buf, a: Act, t: Tid, m: Msg)
    requires HeldOk(b) && AutoOk(b) && Can(b, a) && SelfBlocked(b, t, m) && ByOwnCode(b, a)
    ensures a != Run(Route(t.side))
    ensures var b' := After(b, a);
            m in b'.held && b'.held[m] == t && b'.busy.At(m.to) == Some(m) && !b'.done.At(m.to)
  {
    assert Away(b, m) && b.s.rx.At(m.to).None?;
    match a
    case Run(e) => hide HeldOk, AutoOk; BlockedEngine(b, e, t, m);
    case DecodingDone(u, n) =>
      assert Live(b, n);
      assert n.to == m.to || n.to == Other(m.to);
    case WakeReceiver(side) => assert side == m.to || side == Other(m.to);
  }

  lemma BlockedStep(b: Buf, a: Act, t: Tid, m: Msg)
    requires BufInv(b) && Can(b, a) && PoliteAct(b, a) && ByOwnCode(b, a) && SelfBlocked(b, t, m)
    ensures SelfBlocked(After(b, a), t, m) && After(b, a).s.thr[t].stack == b.s.thr[t].stack
  {
    BlockedBooks(b, a, t, m);
    hide Books, Unique, Inv, After, Apply, Enabled, Polite;
    if a.Run? {
      AfterRuns(b, a.e);
      CallsOnStep(b.s, a.e, Apply(b.s, a.e), t);
    } else {
      AfterRests(b, a);
    }
  }

  lemma AfterRests(b: Buf, a: Act)
    requires Can(b, a) && !a.Run?
    ensures After(b, a).s == b.s
  {
  }

  ghost predicate OwnRun(tr: seq<Buf>, acts: seq<Act>) {
    PoliteBufRun(tr, acts) && forall k | 0 <= k < |acts| :: ByOwnCode(tr[k], acts[k])
  }

  /** Once blocked, a thread stays inside that very call for good, and its side
      receives no packet any more. */
  lemma {:induction false} SelfBlockedForever(tr: seq<Buf>, acts: seq<Act>, i: nat, j: nat, t: Tid, m: Msg)
    requires OwnRun(tr, acts) && i <= j < |tr| && SelfBlocked(tr[i], t, m)
    ensures SelfBlocked(tr[j], t, m) && tr[j].s.thr[t].stack == tr[i].s.thr[t].stack
    ensures j < |acts| && acts[j].Run? && acts[j].e.Arrive? ==> acts[j].e.m.to != t.side
  {
    hide BufInv, PoliteAct, After, Start, Enabled, Engine.Fits, ByOwnCode;
    if j < |acts| { assert Can(tr[j], acts[j]); }
    if i < j {
      hide SelfBlocked, Can;
      SelfBlockedForever(tr, acts, i, j - 1, t, m);
      BufRun(tr, acts, j - 1);
      assert Can(tr[j - 1], acts[j - 1]) && PoliteAct(tr[j - 1], acts[j - 1]);
      BlockedStep(tr[j - 1], acts[j - 1], t, m);
    }
  }

  /** The mailbox of a context on which a polite thread starts a call is empty. */
  lemma AdmitSlot(s: State, g: Talks, t: Tid, n: nat)
    requires Inv(s) && Rel(s, g) && CanAdmit(s, t, n) && MayCall(s, t)
    ensures Cid(t.side, n) in s.ctx && s.ctx[Cid(t.side, n)].slot == Empty
  {
    assert ThreadOk(s, t);
    if s.thr[t].tls.Some? {
      var p :| InTalk(g, p, t);
      assert TalkOk(s, p, g[p]);
      assert PartyOk(s, t, g[p], t == p);
    }
  }

  /** A command blocks its own thread exactly when the thread issues it before it is
      done with a packet received under auto free. */
  lemma CallBlocksIff(tr: seq<Buf>, acts: seq<Act>, i: nat)
    requires PoliteBufRun(tr, acts) && i < |acts| && acts[i].Run? && acts[i].e.Admit?
    ensures Blocked(tr[i + 1], acts[i].e.t) <==> Holding(tr[i], acts[i].e.t)
  {
    var b, e := tr[i], acts[i].e;
    var b' := tr[i + 1];
    GoodRun(tr, acts, i);
    assert Can(b, acts[i]) && PoliteAct(b, acts[i]) && b' == After(b, acts[i]);
    AdmitBuf(b, e);
  }

  lemma AdmitCallsOn(b: Buf, e: Step)
    requires Inv(b.s) && Related(b.s) && Can(b, Run(e)) && Polite(b.s, e) && e.Admit?
    ensures CallsOn(Apply(b.s, e), e.t)
  {
    hide Inv, Rel;
    var g :| Rel(b.s, g);
    AdmitSlot(b.s, g, e.t, e.n);
  }

  lemma AdmitBuf(b: Buf, e: Step)
    requires Good(b) && Can(b, Run(e)) && Polite(b.s, e) && e.Admit?
    ensures Blocked(After(b, Run(e)), e.t) <==> Holding(b, e.t)
  {
    var b' := After(b, Run(e));
    AdmitCallsOn(b, e);
    assert b' == b.(s := Apply(b.s, e));
    assert AutoOk(b) && SidesOk(b);
    hide Good, BufInv, Inv, Unique, Complete, Rel, HistoryOk, HeldOk, Apply, Enabled, Polite;
    if m :| m in b.held && b.held[m] == e.t && b.s.autoFree.At(m.to) {
      assert Live(b, m);
      assert SelfBlocked(b', e.t, m);
    }
  }

  // ------------------------------------------------ tidy decoders

  /** No call, and no return of a decoder, while the thread still holds a packet
      received under auto free. */
  ghost predicate Tidy(b: Buf, a: Act) {
    a.Run? && (a.e.Admit? || a.e.Finish?) ==> !Holding(b, a.e.t)
  }

  ghost predicate HoldersRun(b: Buf) {
    forall m | m in b.held && b.s.autoFree.At(m.to) :: b.held[m] in b.s.thr && b.s.thr[b.held[m]].pc == Running
  }

  lemma RunningStep(s: State, e: Step, s': State, t: Tid)
    requires Next(s, e, s') && t in s.thr && s.thr[t].pc == Running
    requires !((e.Admit? || e.Finish?) && e.t == t)
    ensures t in s'.thr && s'.thr[t].pc == Running
  {
  }

  lemma NewHolder(b: Buf, e: Step, m: Msg)
    requires Can(b, Run(e)) && m in After(b, Run(e)).held
    ensures var b' := After(b, Run(e));
            || (m in b.held && b.held[m] == b'.held[m])
            || (b'.held[m] in b'.s.thr && b'.s.thr[b'.held[m]].pc == Running)
    ensures After(b, Run(e)).s.autoFree == b.s.autoFree
  {
  }

  lemma HoldersStep(b: Buf, a: Act)
    requires HoldersRun(b) && Can(b, a) && Tidy(b, a)
    ensures HoldersRun(After(b, a))
  {
    var b' := After(b, a);
    if a.Run? {
      hide After, Apply, Enabled;
      AfterRuns(b, a.e);
      forall m | m in b'.held && b'.s.autoFree.At(m.to)
        ensures b'.held[m] in b'.s.thr && b'.s.thr[b'.held[m]].pc == Running
      {
        NewHolder(b, a.e, m);
        if m in b.held && b.held[m] == b'.held[m] { RunningStep(b.s, a.e, b'.s, b.held[m]); }
      }
    }
  }

  ghost predicate TidyRun(tr: seq<Buf>, acts: seq<Act>) {
    PoliteBufRun(tr, acts) && forall k | 0 <= k < |acts| :: Tidy(tr[k], acts[k])
  }

  lemma {:induction false} HoldersAlways(tr: seq<Buf>, acts: seq<Act>, i: nat)
    requires TidyRun(tr, acts) && i < |tr|
    ensures HoldersRun(tr[i])
  {
    if i > 0 {
      hide HoldersRun, Can, After, PoliteAct, Tidy;
      HoldersAlways(tr, acts, i - 1);
      assert Can(tr[i - 1], acts[i - 1]) && Tidy(tr[i - 1], acts[i - 1]);
      HoldersStep(tr[i - 1], acts[i - 1]);
    }
  }

  /** With tidy decoders and callers whatever is under way on a side goes on there: a
      step of the core is possible, application code runs, or the pool of the side
      is used up by threads that wait inside calls. */
  lemma TidyGoesOn(tr: seq<Buf>, acts: seq<Act>, i: nat, workers: set<Tid>)
    requires TidyRun(tr, acts) && i < |tr|
    ensures (exists t :: t in tr[i].s.thr && tr[i].s.thr[t].stack.Push?) ==>
              Pending(tr[i], Local) || Pending(tr[i], Remote)
    ensures forall side: Side | Pending(tr[i], side) :: GoesOn(tr[i], workers, side)
  {
    NoDeadlock(tr, acts, i, workers);
    HoldersAlways(tr, acts, i);
    BufRun(tr, acts, i);
    hide GoesOn, Pending;
    forall t ensures !Blocked(tr[i], t) {}
  }
}
