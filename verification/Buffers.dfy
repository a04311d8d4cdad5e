/** Receive buffers under both transport disciplines: explicit free, where the
    core calls rx_buf_free, and auto free, where a buffer is valid only until
    receive_handler returns. The engine runs underneath; this module follows who
    may still read each buffer. */
module Buffers {
  import opened Common
  import opened Contexts
  import opened Engine
  import opened Packets
  import opened Refinement
  import CallStacks

  /** `held`: packets that a decoder or a caller is still decoding. `freed`: what
      the transport got back, and how often. `busy`: the packet for whose
      decode_done_event the receive thread of a side waits; `done`: that event.
      `received` and `decoded` are history. */
  datatype Buf = Buf(
    s: State,
    held: map<Msg, Tid>,
    freed: multiset<Msg>,
    busy: PerSide<Option<Msg>>,
    done: PerSide<bool>,
    received: set<Msg>,
    decoded: set<Msg>)

  datatype Act =
    | Run(e: Step)
    | DecodingDone(t: Tid, m: Msg)
    | WakeReceiver(side: Side)

  /** A thread blocked in receive_handler takes no further packet. */
  predicate Can(b: Buf, a: Act) {
    match a
    case Run(e) => Enabled(b.s, e) && Fits(b.s, e) && (e.Arrive? ==> b.busy.At(e.m.to).None?)
    case DecodingDone(t, m) => m in b.held && b.held[m] == t
    case WakeReceiver(side) => b.busy.At(side).Some? && b.done.At(side)
  }

  /** Routing passes the packet to another thread (pool or mailbox) instead of
      finishing with it. */
  predicate HandsOff(s: State, side: Side)
    requires CanRoute(s, side)
  {
    var m := s.rx.At(side).value;
    var c := Cid(side, m.dst);
    if Addressed(m) then c in s.ctx && Deposit(s.ctx[c], m, s.autoFree.At(side)).slot == Packet(m) && s.ctx[c].uses != 0
    else m.kind != Ack
  }

  function AfterRoute(b: Buf, side: Side): Buf
    requires CanRoute(b.s, side)
  {
    var m := b.s.rx.At(side).value;
    var r := b.(s := ApplyRoute(b.s, side));
    if !HandsOff(b.s, side) then r.(freed := b.freed + multiset{m})
    else if b.s.autoFree.At(side) then r.(busy := b.busy.With(side, Some(m)), done := b.done.With(side, false))
    else r
  }

  /** A command is decoded by the thread that takes it. A response goes to the
      caller that asked for the packet; else, under explicit free, the handler is
      called and the buffer freed right away. */
  function AfterTake(b: Buf, t: Tid): Buf
    requires CanTake(b.s, t)
  {
    var r := b.(s := ApplyTake(b.s, t));
    var x := b.s.ctx[Own(b.s, t)];
    match x.slot
    case Packet(m) =>
      if m.kind == Cmd || b.s.thr[t].stack.top.sink.ToCaller? then r.(held := b.held[m := t])
      else if !b.s.autoFree.At(m.to) && x.handler.Some? then r.(freed := b.freed + multiset{m})
      else r
    case _ => r
  }

  /** While stopped, receive_handler is done with the packet at once. */
  function AfterArrive(b: Buf, m: Msg): Buf
    requires CanArrive(b.s, m)
  {
    var r := b.(s := ApplyArrive(b.s, m), received := b.received + {m});
    if b.s.gate.At(m.to).stopped then r.(freed := b.freed + multiset{m}) else r
  }

  /** nrf_rpc_decoding_done. */
  function AfterDone(b: Buf, m: Msg): Buf {
    var r := b.(held := b.held - {m}, decoded := b.decoded + {m});
    if b.s.autoFree.At(m.to) then r.(done := b.done.With(m.to, true))
    else r.(freed := b.freed + multiset{m})
  }

  function After(b: Buf, a: Act): Buf
    requires Can(b, a)
  {
    match a
    case Run(e) =>
      var r := b.(s := Apply(b.s, e));
      (match e
       case Arrive(m) => AfterArrive(b, m)
       case Route(side) => AfterRoute(b, side)
       case Take(t) => AfterTake(b, t)
       case Dispatch(t, m, _) => r.(held := b.held[m := t])
       case DispatchEvent(t, m) => r.(held := b.held[m := t])
       case _ => r)
    case DecodingDone(t, m) => AfterDone(b, m)
    case WakeReceiver(side) =>
      b.(busy := b.busy.With(side, None), done := b.done.With(side, false),
         freed := b.freed + multiset{b.busy.At(side).value})
  }

  predicate Start(b: Buf) {
    Init(b.s) && b == Buf(b.s, map[], multiset{}, PerSide(None, None), PerSide(false, false), {}, {})
  }

  ghost predicate IsBufRun(tr: seq<Buf>, acts: seq<Act>) {
    && |tr| == |acts| + 1 && Start(tr[0])
    && forall i | 0 <= i < |acts| :: Can(tr[i], acts[i]) && tr[i + 1] == After(tr[i], acts[i])
  }

  // ---------------------------------------------------- what every run keeps

  /** Some thread other than the receive thread may read the packet. */
  ghost predicate Live(b: Buf, m: Msg) {
    m in b.held || At(b.s, m, Pool) || exists c :: At(b.s, m, Box(c))
  }

  /** The buffer is in none of the engine's hands. */
  ghost predicate Away(b: Buf, m: Msg) {
    m.id < b.s.next && forall pl :: !At(b.s, m, pl)
  }

  ghost predicate HeldOk(b: Buf) {
    && (forall m | m in b.held :: Away(b, m) && m !in b.freed)
    && (forall m | m in b.freed :: Away(b, m) && b.freed[m] == 1)
  }

  /** Under auto free only the packet the receive thread waits for is live, and
      only until its own decoding is done. */
  ghost predicate AutoOk(b: Buf) {
    && (forall m | Live(b, m) && b.s.autoFree.At(m.to) :: b.busy.At(m.to) == Some(m) && !b.done.At(m.to))
    && (forall side: Side | b.busy.At(side).Some? ::
          && b.s.rx.At(side).None? && b.s.autoFree.At(side)
          && b.busy.At(side).value.to == side && b.busy.At(side).value.id < b.s.next
          && b.busy.At(side).value !in b.freed && b.busy.At(side).value !in b.s.net
          && (b.done.At(side) ==> b.busy.At(side).value in b.decoded))
  }

  ghost predicate HistoryOk(b: Buf) {
    && (forall m | m in b.received :: m.id < b.s.next && m !in b.s.net)
    && (forall m | Live(b, m) || At(b.s, m, Rx) || m in b.freed :: m in b.received)
    && (forall side: Side | b.busy.At(side).Some? :: b.busy.At(side).value in b.received)
  }

  ghost predicate Books(b: Buf) {
    HeldOk(b) && AutoOk(b) && HistoryOk(b)
  }

  ghost predicate BufInv(b: Buf) {
    Inv(b.s) && Unique(b.s) && Books(b)
  }

  /** The engine keeps or drops its packets, or creates new ones in the transport. */
  ghost predicate NoNewReader(s: State, s': State) {
    && s'.next >= s.next && s'.rx == s.rx && s'.autoFree == s.autoFree
    && forall m, pl | At(s', m, pl) :: At(s, m, pl) || (m.id >= s.next && pl == Net)
  }

  lemma CalmKeeps(b: Buf, s': State)
    requires Books(b) && NoNewReader(b.s, s')
    ensures Books(b.(s := s'))
  {
    var b' := b.(s := s');
    forall m | Live(b', m) ensures Live(b, m) {
      if c :| At(s', m, Box(c)) { assert At(b.s, m, Box(c)); }
    }
    forall m | Away(b, m) ensures Away(b', m) {}
    assert forall m | m in s'.net :: At(s', m, Net);
    assert forall m | At(s', m, Rx) :: At(b.s, m, Rx);
  }

  predicate Calm(e: Step) {
    !e.Arrive? && !e.Route? && !e.Take? && !e.Dispatch? && !e.DispatchEvent?
  }

  lemma CalmStep(s: State, e: Step, s': State)
    requires Unique(s) && Next(s, e, s') && Calm(e)
    ensures NoNewReader(s, s')
  {
    if !Creates(e) {
      UniqueRest(s, e, s');
    } else {
      CreateStep(s, e, s');
    }
    assert s'.rx == s.rx;
  }

  lemma CreateStep(s: State, e: Step, s': State)
    requires Next(s, e, s') && Creates(e)
    ensures s'.rx == s.rx && s'.next >= s.next && s'.autoFree == s.autoFree
    ensures forall m, pl | At(s', m, pl) :: At(s, m, pl) || (m.id >= s.next && pl == Net)
  {
    forall m, pl | At(s', m, pl) && !At(s, m, pl) ensures m.id >= s.next && pl == Net {}
  }

  /** What the books need to know of a packet that is taken. */
  ghost predicate TakenBooks(b: Buf, b': Buf, m: Msg) {
    && b'.busy == b.busy && b'.done == b.done && b'.received == b.received && b'.decoded == b.decoded
    && (|| (m in b'.held && b'.held == b.held[m := b'.held[m]] && b'.freed == b.freed)
        || (b'.held == b.held && b'.freed == b.freed + multiset{m} && !b.s.autoFree.At(m.to))
        || (b'.held == b.held && b'.freed == b.freed))
  }

  /** Packet m leaves the pool or a mailbox: it becomes held, is freed, or is
      forgotten. */
  ghost predicate Taken(b: Buf, b': Buf, m: Msg, from: Place) {
    && (from.Pool? || from.Box?) && At(b.s, m, from) && NoNewReader(b.s, b'.s) && !At(b'.s, m, from)
    && TakenBooks(b, b', m)
  }

  lemma TakenFrame(b: Buf, b': Buf, m: Msg, from: Place)
    requires Unique(b.s) && HeldOk(b) && Taken(b, b', m, from)
    ensures Live(b, m) && !Away(b, m) && Away(b', m) && m !in b.held
    ensures forall n | Live(b', n) :: Live(b, n)
    ensures forall n | Away(b, n) :: Away(b', n)
    ensures b'.s.autoFree == b.s.autoFree && b'.s.rx == b.s.rx && b'.s.next >= b.s.next
    ensures forall n | n in b'.s.net :: n in b.s.net || n.id >= b.s.next
  {
    forall n | Live(b', n) ensures Live(b, n) {
      if c :| At(b'.s, n, Box(c)) { assert At(b.s, n, Box(c)); }
    }
    forall n | n in b'.s.net ensures n in b.s.net || n.id >= b.s.next { assert At(b'.s, n, Net); }
  }

  lemma TakenKeeps(b: Buf, b': Buf, m: Msg, from: Place)
    requires Unique(b.s) && Books(b) && Taken(b, b', m, from)
    ensures Books(b')
  {
    TakenFrame(b, b', m, from);
    assert TakenBooks(b, b', m);
    hide Unique, Taken, Away, Live, NoNewReader;
    assert forall n | At(b'.s, n, Rx) :: At(b.s, n, Rx);
  }

  /** What arrives is read by nobody yet, and the others are where they were. */
  lemma ArriveFrame(b: Buf, m: Msg)
    requires Unique(b.s) && HeldOk(b) && CanArrive(b.s, m)
    ensures forall n | Live(AfterArrive(b, m), n) :: Live(b, n) && n != m
    ensures forall n | Away(b, n) :: Away(AfterArrive(b, m), n) && n != m
    ensures forall n, pl | At(AfterArrive(b, m).s, n, pl) && !(n == m && pl == Rx) :: n != m && At(b.s, n, pl)
  {
    var b' := AfterArrive(b, m);
    assert At(b.s, m, Net);
    ArrivePlaces(b.s, m);
    forall n | Live(b', n) ensures Live(b, n) && n != m {
      if c :| At(b'.s, n, Box(c)) { assert At(b.s, n, Box(c)); }
      assert n in b.held ==> Away(b, n);
    }
  }

  lemma ArriveHeld(b: Buf, m: Msg)
    requires Unique(b.s) && HeldOk(b) && CanArrive(b.s, m)
    ensures HeldOk(AfterArrive(b, m))
  {
    ArriveFrame(b, m);
    if b.s.gate.At(m.to).stopped { DroppedAway(b, m); }
    hide Unique, Away, Live, ApplyArrive;
  }

  lemma ArriveAuto(b: Buf, m: Msg)
    requires Unique(b.s) && HeldOk(b) && AutoOk(b) && CanArrive(b.s, m) && b.busy.At(m.to).None?
    ensures AutoOk(AfterArrive(b, m))
  {
    var b' := AfterArrive(b, m);
    ArriveFrame(b, m);
    hide Unique, HeldOk, Away, Live;
    forall side: Side | b'.busy.At(side).Some? ensures b'.s.rx.At(side).None? {
      assert side == m.to || side == Other(m.to);
    }
  }

  lemma ArriveHistory(b: Buf, m: Msg)
    requires Unique(b.s) && HeldOk(b) && HistoryOk(b) && CanArrive(b.s, m)
    ensures HistoryOk(AfterArrive(b, m))
  {
    var b' := AfterArrive(b, m);
    assert At(b.s, m, Net);
    assert m.id < b.s.next;
    ArriveFrame(b, m);
    hide Unique, HeldOk, Away, Live;
  }

  lemma ArriveKeeps(b: Buf, m: Msg)
    requires Unique(b.s) && Books(b) && CanArrive(b.s, m) && b.busy.At(m.to).None?
    ensures Books(AfterArrive(b, m))
  {
    hide Unique, HeldOk, AutoOk, HistoryOk;
    ArriveHeld(b, m);
    ArriveAuto(b, m);
    ArriveHistory(b, m);
  }

  lemma DroppedAway(b: Buf, m: Msg)
    requires Unique(b.s) && CanArrive(b.s, m) && b.s.gate.At(m.to).stopped
    ensures Away(AfterArrive(b, m), m)
  {
    assert At(b.s, m, Net);
    ArrivePlaces(b.s, m);
  }

  lemma DoneKeeps(b: Buf, m: Msg)
    requires Books(b) && m in b.held
    ensures Books(AfterDone(b, m))
  {
    var b' := AfterDone(b, m);
    assert Live(b, m) && Away(b, m);
    forall n | Live(b', n) ensures Live(b, n) && n != m {
      if c :| At(b'.s, n, Box(c)) { assert At(b.s, n, Box(c)); }
    }
    forall n ensures Away(b', n) <==> Away(b, n) {}
    forall n | Live(b', n) && b.s.autoFree.At(n.to) ensures b'.busy.At(n.to) == Some(n) && !b'.done.At(n.to) {
      assert n.to == m.to || n.to == Other(m.to);
    }
    forall side: Side | b'.busy.At(side).Some? && b'.done.At(side) ensures b'.busy.At(side).value in b'.decoded {
      assert side == m.to || side == Other(m.to);
    }
  }

  lemma WakeKeeps(b: Buf, side: Side)
    requires Books(b) && Can(b, WakeReceiver(side))
    ensures var b' := After(b, WakeReceiver(side)); Books(b')
    ensures !Live(b, b.busy.At(side).value) && b.busy.At(side).value in b.decoded
  {
    var b' := After(b, WakeReceiver(side));
    var m := b.busy.At(side).value;
    assert !Live(b, m) && !At(b.s, m, Rx);
    forall pl ensures !At(b.s, m, pl) {
      if pl.Box? { assert !At(b.s, m, pl); }
    }
    forall n ensures Away(b', n) <==> Away(b, n) {}
    forall n ensures Live(b', n) <==> Live(b, n) {
      if c :| At(b.s, n, Box(c)) { assert At(b'.s, n, Box(c)); }
      if c :| At(b'.s, n, Box(c)) { assert At(b.s, n, Box(c)); }
    }
    forall n | Live(b', n) && b.s.autoFree.At(n.to) ensures b'.busy.At(n.to) == Some(n) && !b'.done.At(n.to) {
      assert n.to == side || n.to == Other(side);
    }
    forall x: Side | b'.busy.At(x).Some? ensures x == Other(side) && b'.busy.At(x) == b.busy.At(x) {
      assert x == side || x == Other(side);
    }
  }

  lemma RoutedKeeps(b: Buf, side: Side)
    requires Unique(b.s) && Books(b) && CanRoute(b.s, side) && !HandsOff(b.s, side)
    ensures Books(AfterRoute(b, side))
  {
    var b' := AfterRoute(b, side);
    var m := b.s.rx.At(side).value;
    assert At(b.s, m, Rx);
    RoutePlaces(b.s, side);
    forall pl ensures !At(b'.s, m, pl) { assert !At(b.s, m, RouteTo(b.s, side)); }
    assert Away(b', m) && !Away(b, m);
    forall n | Away(b, n) ensures Away(b', n) {}
    forall n | Live(b', n) ensures Live(b, n) {
      if c :| At(b'.s, n, Box(c)) { assert At(b.s, n, Box(c)); }
    }
    assert forall n | n in b'.s.net :: At(b'.s, n, Net);
    forall x: Side | b'.busy.At(x).Some? ensures x == Other(side) {}
  }

  /** The books after a hand-off of m, by either discipline. */
  ghost predicate Handed(b: Buf, b': Buf, side: Side, m: Msg) {
    && At(b.s, m, Rx) && m.to == side && b'.s.rx == b.s.rx.With(side, None)
    && b'.s.net == b.s.net && b'.s.next == b.s.next && b'.s.autoFree == b.s.autoFree
    && (forall n, pl | At(b'.s, n, pl) :: n == m || At(b.s, n, pl))
    && b'.held == b.held && b'.freed == b.freed && b'.received == b.received && b'.decoded == b.decoded
    && (if b.s.autoFree.At(side)
        then b'.busy == b.busy.With(side, Some(m)) && b'.done == b.done.With(side, false)
        else b'.busy == b.busy && b'.done == b.done)
  }

  lemma HandedBooks(b: Buf, b': Buf, side: Side, m: Msg)
    requires Books(b) && Handed(b, b', side, m) && m !in b.s.net && m.id < b.s.next
    ensures Books(b')
  {
    assert !Away(b, m) && b.busy.At(side).None?;
    forall n | Away(b, n) ensures Away(b', n) {}
    forall n | Live(b', n) ensures n == m || Live(b, n) {
      if c :| At(b'.s, n, Box(c)) { assert n == m || At(b.s, n, Box(c)); }
    }
    forall n | Live(b', n) && b.s.autoFree.At(n.to) ensures b'.busy.At(n.to) == Some(n) && !b'.done.At(n.to) {
      assert n.to == side || n.to == Other(side);
    }
    forall x: Side | b'.busy.At(x).Some? ensures b'.s.rx.At(x).None? {
      assert x == side || x == Other(side);
    }
  }

  lemma HandedKeeps(b: Buf, side: Side)
    requires Unique(b.s) && Books(b) && CanRoute(b.s, side) && HandsOff(b.s, side)
    ensures Books(AfterRoute(b, side))
  {
    hide Books;
    var m := b.s.rx.At(side).value;
    assert At(b.s, m, Rx) && (m in b.s.net ==> At(b.s, m, Net));
    RoutePlaces(b.s, side);
    HandedBooks(b, AfterRoute(b, side), side, m);
  }

  // Every action, every run.

  lemma TakeKeeps(b: Buf, t: Tid)
    requires Unique(b.s) && Books(b) && Can(b, Run(Take(t)))
    ensures Books(AfterTake(b, t))
  {
    hide Books;
    var b' := AfterTake(b, t);
    var c := Own(b.s, t);
    UniqueRest(b.s, Take(t), b'.s);
    if b.s.ctx[c].slot.Packet? {
      var m := b.s.ctx[c].slot.m;
      assert At(b.s, m, Box(c));
      TakenKeeps(b, b', m, Box(c));
    } else {
      CalmKeeps(b, b'.s);
    }
  }

  lemma DispatchKeeps(b: Buf, e: Step)
    requires Unique(b.s) && Books(b) && Can(b, Run(e)) && (e.Dispatch? || e.DispatchEvent?)
    ensures Books(After(b, Run(e)))
  {
    hide Books;
    UniqueRest(b.s, e, Apply(b.s, e));
    assert At(b.s, e.m, Pool);
    TakenKeeps(b, After(b, Run(e)), e.m, Pool);
  }

  lemma BufStep(b: Buf, a: Act)
    requires BufInv(b) && Can(b, a)
    ensures BufInv(After(b, a))
  {
    hide Books, Unique, Inv, ApplyArrive, ApplyRoute, ApplyTake, ApplyAdmit, ApplyDispatch, ApplySend, LeaveCmd;
    match a
    case Run(e) =>
      var s' := Apply(b.s, e);
      InvStep(b.s, e, s');
      UniqueStep(b.s, e, s');
      match e {
        case Arrive(m) => ArriveKeeps(b, m);
        case Route(side) => if HandsOff(b.s, side) { HandedKeeps(b, side); } else { RoutedKeeps(b, side); }
        case Take(t) => TakeKeeps(b, t);
        case Dispatch(_, _, _) => DispatchKeeps(b, e);
        case DispatchEvent(_, _) => DispatchKeeps(b, e);
        case _ =>
          CalmStep(b.s, e, s');
          CalmKeeps(b, s');
      }
    case DecodingDone(t, m) => DoneKeeps(b, m);
    case WakeReceiver(side) => WakeKeeps(b, side);
  }

  lemma {:induction false} BufRun(tr: seq<Buf>, acts: seq<Act>, i: nat)
    requires IsBufRun(tr, acts) && i < |tr|
    ensures BufInv(tr[i])
  {
    if i == 0 {
      assert forall m, pl :: !At(tr[0].s, m, pl);
    } else {
      hide BufInv, After, Can;
      BufRun(tr, acts, i - 1);
      BufStep(tr[i - 1], acts[i - 1]);
    }
  }

  lemma DecodedStep(b: Buf, a: Act)
    requires Can(b, a)
    ensures After(b, a).decoded == if a.DecodingDone? then b.decoded + {a.m} else b.decoded
  {
  }

  lemma {:induction false} DecodedByOwn(tr: seq<Buf>, acts: seq<Act>, i: nat, m: Msg) returns (k: nat)
    requires IsBufRun(tr, acts) && i < |tr| && m in tr[i].decoded
    ensures k < i && acts[k].DecodingDone? && acts[k].m == m
  {
    hide After, Can;
    if i > 0 {
      k := i - 1;
      DecodedStep(tr[i - 1], acts[i - 1]);
      if m in tr[i - 1].decoded {
        k := DecodedByOwn(tr, acts, i - 1, m);
      }
    }
  }

  /** Auto-free lifetime, in every run with one receive thread per side (timeouts
      and stop included): what another thread can still read has not been given
      back, and the receive thread waits for exactly that packet. */
  lemma AutoFreeLifetime(tr: seq<Buf>, acts: seq<Act>, i: nat)
    requires IsBufRun(tr, acts) && i < |tr|
    ensures forall m | Live(tr[i], m) && tr[i].s.autoFree.At(m.to) ::
              m !in tr[i].freed && tr[i].busy.At(m.to) == Some(m)
  {
    BufRun(tr, acts, i);
    forall m | Live(tr[i], m) && tr[i].s.autoFree.At(m.to)
      ensures m !in tr[i].freed && tr[i].busy.At(m.to) == Some(m)
    {
    }
  }

  /** The step by which receive_handler returns for a packet it handed off comes
      after the decoding_done of that same packet. */
  lemma ReturnsAfterOwnDecoding(tr: seq<Buf>, acts: seq<Act>, i: nat)
    requires IsBufRun(tr, acts) && i < |acts| && acts[i].WakeReceiver?
    ensures tr[i].busy.At(acts[i].side).Some? && !Live(tr[i], tr[i].busy.At(acts[i].side).value)
    ensures exists k :: 0 <= k < i && acts[k].DecodingDone? && acts[k].m == tr[i].busy.At(acts[i].side).value
  {
    BufRun(tr, acts, i);
    WakeKeeps(tr[i], acts[i].side);
    var k := DecodedByOwn(tr, acts, i, tr[i].busy.At(acts[i].side).value);
  }

  /** Action a gives packet m to thread t to decode: a decoder is called with it, or
      the command that waits has asked for the response. */
  predicate Gives(b: Buf, a: Act, t: Tid, m: Msg) {
    && a.Run?
    && match a.e
       case Dispatch(u, n, _) => u == t && n == m
       case DispatchEvent(u, n) => u == t && n == m
       case Take(u) =>
         && u == t && CanTake(b.s, u) && b.s.ctx[Own(b.s, u)].slot == Packet(m)
         && (m.kind == Cmd || b.s.thr[u].stack.top.sink.ToCaller?)
       case _ => false
  }

  lemma HeldStays(b: Buf, a: Act, t: Tid, m: Msg)
    requires HeldOk(b) && Can(b, a) && m in b.held && b.held[m] == t && a != DecodingDone(t, m)
    ensures m in After(b, a).held && After(b, a).held[m] == t
  {
    assert Away(b, m);
    hide ApplyArrive, ApplyRoute, ApplyTake, ApplyAdmit, ApplyDispatch, ApplySend, LeaveCmd;
    if a.Run? {
      match a.e {
        case Take(u) => assert !At(b.s, m, Box(Own(b.s, u)));
        case Dispatch(_, n, _) => assert !At(b.s, m, Pool);
        case DispatchEvent(_, n) => assert !At(b.s, m, Pool);
        case _ =>
      }
    }
  }

  /** In all runs, under either discipline: a packet given to a thread to decode is
      with this thread, and not given back to the transport, until this thread is
      done with it. */
  lemma {:induction false} HeldUntilDone(tr: seq<Buf>, acts: seq<Act>, i: nat, j: nat, t: Tid, m: Msg)
    requires IsBufRun(tr, acts) && i < j < |tr| && Gives(tr[i], acts[i], t, m)
    requires forall k | i < k < j :: acts[k] != DecodingDone(t, m)
    ensures m in tr[j].held && tr[j].held[m] == t && m !in tr[j].freed
  {
    hide Can, After, Start, Gives, BufInv;
    assert Can(tr[j - 1], acts[j - 1]) && tr[j] == After(tr[j - 1], acts[j - 1]);
    HeldBooks(tr, acts, j - 1);
    HeldBooks(tr, acts, j);
    if j > i + 1 {
      HeldUntilDone(tr, acts, i, j - 1, t, m);
      HeldStays(tr[j - 1], acts[j - 1], t, m);
    } else {
      GivenHeld(tr[i], acts[i], t, m);
    }
  }

  lemma HeldBooks(tr: seq<Buf>, acts: seq<Act>, i: nat)
    requires IsBufRun(tr, acts) && i < |tr|
    ensures HeldOk(tr[i])
  {
    hide Can, After, Start;
    BufRun(tr, acts, i);
  }

  lemma GivenHeld(b: Buf, a: Act, t: Tid, m: Msg)
    requires Can(b, a) && Gives(b, a, t, m)
    ensures m in After(b, a).held && After(b, a).held[m] == t
  {
    hide ApplyArrive, ApplyRoute, ApplyTake, ApplyAdmit, ApplyDispatch, ApplySend, LeaveCmd;
  }

  // ---------------------------------------------------- no packet gets lost

  /** Decoded under auto free, with the receive thread about to return. */
  predicate Decoded(b: Buf, m: Msg) {
    b.busy.At(m.to) == Some(m) && b.done.At(m.to)
  }

  ghost predicate Somewhere(b: Buf, m: Msg) {
    At(b.s, m, Rx) || Live(b, m) || Decoded(b, m) || m in b.freed
  }

  ghost predicate Complete(b: Buf) {
    forall m | m in b.received :: Somewhere(b, m)
  }

  ghost predicate Related(s: State) {
    exists g :: Rel(s, g)
  }

  ghost predicate PoliteAct(b: Buf, a: Act)
    requires Can(b, a)
  {
    a.Run? ==> Polite(b.s, a.e)
  }

  /** Apart from the packet x that is being moved, what the engine has, it keeps. */
  ghost predicate KeepsBut(b: Buf, b': Buf, x: Msg) {
    && b'.received <= b.received + {x}
    && (forall m, pl | m != x && At(b.s, m, pl) && pl != Net :: At(b'.s, m, pl))
    && (forall m | m in b.held && m != x :: m in b'.held)
    && (forall m | m in b.freed && m != x :: m in b'.freed)
    && (forall m | Decoded(b, m) && m != x :: Decoded(b', m))
    && (Somewhere(b', x) || x !in b'.received)
  }

  lemma CompleteKept(b: Buf, b': Buf, x: Msg)
    requires Complete(b) && KeepsBut(b, b', x)
    ensures Complete(b')
  {
    forall m | m in b'.received && m != x ensures Somewhere(b', m) {
      assert m in b.received && Somewhere(b, m);
      if c :| At(b.s, m, Box(c)) { assert At(b'.s, m, Box(c)); }
    }
  }

  lemma CalmPlaces(s: State, e: Step, s': State)
    requires Next(s, e, s') && Calm(e) && Polite(s, e)
    ensures forall m, pl | At(s, m, pl) && pl != Net :: At(s', m, pl)
  {
  }

  lemma CompleteCalm(b: Buf, e: Step)
    requires Complete(b) && Can(b, Run(e)) && Calm(e) && Polite(b.s, e)
    ensures Complete(After(b, Run(e)))
  {
    var b' := After(b, Run(e));
    CalmPlaces(b.s, e, b'.s);
    forall m | m in b'.received ensures Somewhere(b', m) {
      assert m in b.received && Somewhere(b, m);
      if c :| At(b.s, m, Box(c)) { assert At(b'.s, m, Box(c)); }
    }
  }

  lemma CompleteArrive(b: Buf, m: Msg)
    requires Unique(b.s) && Complete(b) && CanArrive(b.s, m)
    ensures Complete(AfterArrive(b, m))
  {
    var b' := AfterArrive(b, m);
    assert At(b.s, m, Net);
    forall n, pl | n != m && At(b.s, n, pl) && pl != Net ensures At(b'.s, n, pl) {
      assert n.to == m.to || n.to == Other(m.to);
    }
    CompleteKept(b, b', m);
  }

  /** The mailbox that the receive thread fills is empty, so nothing is lost. */
  lemma CompleteRoute(b: Buf, side: Side)
    requires Inv(b.s) && Unique(b.s) && AutoOk(b) && Related(b.s) && Complete(b) && CanRoute(b.s, side)
    ensures Complete(AfterRoute(b, side))
  {
    assert b.busy.At(side).None?;
    hide Inv, Rel, AutoOk, Unique, Complete;
    var m := b.s.rx.At(side).value;
    var g :| Rel(b.s, g);
    if Addressed(m) { ReceiverReady(b.s, g, side); }
    RouteKeepsOthers(b, side);
    CompleteKept(b, AfterRoute(b, side), m);
  }

  lemma RouteKeepsOthers(b: Buf, side: Side)
    requires CanRoute(b.s, side) && b.busy.At(side).None?
    requires var m := b.s.rx.At(side).value;
             Addressed(m) ==> Cid(side, m.dst) in b.s.ctx && b.s.ctx[Cid(side, m.dst)].slot == Empty
    ensures KeepsBut(b, AfterRoute(b, side), b.s.rx.At(side).value)
  {
    var b' := AfterRoute(b, side);
    var m := b.s.rx.At(side).value;
    var c := Cid(side, m.dst);
    forall n, pl | n != m && At(b.s, n, pl) && pl != Net ensures At(b'.s, n, pl) {
      assert n.to == side || n.to == Other(side);
    }
    if HandsOff(b.s, side) {
      assert At(b'.s, m, if Addressed(m) then Box(c) else Pool);
    }
    forall n | Decoded(b, n) && n != m ensures Decoded(b', n) {
      assert n.to == side || n.to == Other(side);
    }
  }

  /** Under auto free a mailbox has no response for a handler. */
  lemma AnswerForCaller(s: State, t: Tid, p: Tid, v: Talk)
    requires TakesAnswer(s, t) && ThreadOk(s, t) && s.ctx[Own(s, t)].slot.Packet?
    requires TalkOk(s, p, v) && CallStacks.Party(p, v.server, t) && PartyOk(s, t, v, t == p)
    ensures s.thr[t].stack.top.sink.ToCaller? || !s.autoFree.At(s.ctx[Own(s, t)].slot.m.to)
  {
    TalkAnswer(s, t, p, v);
  }

  /** A response in a mailbox is handed to the caller, or handled and freed under
      explicit free. */
  lemma ResponseHandled(s: State, t: Tid, g: Talks)
    requires Inv(s) && Rel(s, g) && TakesAnswer(s, t) && s.ctx[Own(s, t)].slot.Packet?
    ensures s.thr[t].stack.top.sink.ToCaller? ||
              (s.ctx[Own(s, t)].handler.Some? && !s.autoFree.At(s.ctx[Own(s, t)].slot.m.to))
  {
    hide Rel, TalkOk, PartyOk;
    assert ThreadOk(s, t);
    var p := TalkOf(s, g, t);
    TalkAnswer(s, t, p, g[p]);
    AnswerForCaller(s, t, p, g[p]);
  }

  lemma CompleteTake(b: Buf, t: Tid)
    requires Inv(b.s) && Unique(b.s) && Related(b.s) && Complete(b) && CanTake(b.s, t)
    ensures Complete(AfterTake(b, t))
  {
    hide Inv, Rel;
    var b' := AfterTake(b, t);
    var c := Own(b.s, t);
    var g :| Rel(b.s, g);
    if b.s.ctx[c].slot.Packet? {
      var m := b.s.ctx[c].slot.m;
      if TakesAnswer(b.s, t) { ResponseHandled(b.s, t, g); }
      CompleteKept(b, b', m);
    } else {
      forall m | m in b'.received ensures Somewhere(b', m) {
        assert Somewhere(b, m);
        if d :| At(b.s, m, Box(d)) { assert At(b'.s, m, Box(d)); }
      }
    }
  }

  lemma CompleteDispatch(b: Buf, e: Step)
    requires Complete(b) && Can(b, Run(e)) && (e.Dispatch? || e.DispatchEvent?)
    ensures Complete(After(b, Run(e)))
  {
    CompleteKept(b, After(b, Run(e)), e.m);
  }

  lemma CompleteDone(b: Buf, m: Msg)
    requires Complete(b) && AutoOk(b) && m in b.held
    ensures Complete(AfterDone(b, m))
  {
    assert Live(b, m);
    forall n | Decoded(b, n) && n != m ensures Decoded(AfterDone(b, m), n) {
      assert n.to == m.to || n.to == Other(m.to);
    }
    CompleteKept(b, AfterDone(b, m), m);
  }

  lemma CompleteEngine(b: Buf, e: Step)
    requires Inv(b.s) && Unique(b.s) && AutoOk(b) && Related(b.s) && Complete(b) && Can(b, Run(e)) && Polite(b.s, e)
    ensures Complete(After(b, Run(e)))
  {
    hide Complete, Inv, Unique, AutoOk, Related;
    hide ApplyArrive, ApplyRoute, ApplyTake, ApplyAdmit, ApplyDispatch, ApplySend, LeaveCmd;
    match e
    case Arrive(m) => CompleteArrive(b, m);
    case Route(side) => CompleteRoute(b, side);
    case Take(t) => CompleteTake(b, t);
    case Dispatch(_, _, _) => CompleteDispatch(b, e);
    case DispatchEvent(_, _) => CompleteDispatch(b, e);
    case _ => CompleteCalm(b, e);
  }

  lemma RelatedStep(b: Buf, e: Step)
    requires Inv(b.s) && Related(b.s) && Can(b, Run(e)) && Polite(b.s, e)
    ensures Related(After(b, Run(e)).s)
  {
    hide Rel, Inv, Enabled, Apply, Polite;
    var g :| Rel(b.s, g);
    var g' := Simulate(b.s, e, Apply(b.s, e), g);
    AfterRuns(b, e);
  }

  lemma AfterRuns(b: Buf, e: Step)
    requires Can(b, Run(e))
    ensures After(b, Run(e)).s == Apply(b.s, e)
  {
  }

  lemma CompleteStep(b: Buf, a: Act)
    requires BufInv(b) && Related(b.s) && Complete(b) && Can(b, a) && PoliteAct(b, a)
    ensures Complete(After(b, a)) && Related(After(b, a).s)
  {
    hide Complete, Rel, Inv, Unique, HeldOk, AutoOk, HistoryOk, Apply, Enabled;
    match a
    case Run(e) =>
      CompleteEngine(b, e);
      RelatedStep(b, e);
    case DecodingDone(t, m) => CompleteDone(b, m);
    case WakeReceiver(side) => CompleteWake(b, side);
  }

  lemma CompleteWake(b: Buf, side: Side)
    requires Complete(b) && Can(b, WakeReceiver(side))
    ensures Complete(After(b, WakeReceiver(side)))
  {
    var x := b.busy.At(side).value;
    forall n | Decoded(b, n) && n != x ensures Decoded(After(b, WakeReceiver(side)), n) {
      assert n.to == side || n.to == Other(side);
    }
    CompleteKept(b, After(b, WakeReceiver(side)), x);
  }

  ghost predicate PoliteBufRun(tr: seq<Buf>, acts: seq<Act>) {
    IsBufRun(tr, acts) && forall i | 0 <= i < |acts| :: Can(tr[i], acts[i]) && PoliteAct(tr[i], acts[i])
  }

  lemma {:induction false} CompleteRun(tr: seq<Buf>, acts: seq<Act>, i: nat)
    requires PoliteBufRun(tr, acts) && i < |tr|
    ensures Complete(tr[i]) && Related(tr[i].s)
  {
    hide BufInv, After, Can, PoliteAct, Rel;
    if i == 0 {
      InitRel(tr[0].s);
    } else {
      CompleteRun(tr, acts, i - 1);
      BufRun(tr, acts, i - 1);
      CompleteStep(tr[i - 1], acts[i - 1]);
    }
  }

  /** The places of a received packet, the transport's own aside. */
  datatype Spot = InEngine(pl: Place) | WithReader | DoneWith | Returned

  predicate AtSpot(b: Buf, m: Msg, sp: Spot) {
    match sp
    case InEngine(pl) => At(b.s, m, pl)
    case WithReader => m in b.held
    case DoneWith => Decoded(b, m)
    case Returned => m in b.freed
  }

  /** Conservation, under either discipline: in every state of a polite run a
      received packet is in exactly one place (receive thread, pool queue, one
      mailbox, one decoder or caller, decoded under auto free, or returned) and is
      returned at most once. */
  lemma BufferConservation(tr: seq<Buf>, acts: seq<Act>, i: nat, m: Msg)
    requires PoliteBufRun(tr, acts) && i < |tr| && m in tr[i].received
    ensures exists sp :: AtSpot(tr[i], m, sp) && sp != InEngine(Net) && forall sq | AtSpot(tr[i], m, sq) :: sq == sp
    ensures tr[i].freed[m] <= 1
  {
    CompleteRun(tr, acts, i);
    BufRun(tr, acts, i);
    OneSpot(tr[i], m);
  }

  lemma OneSpot(b: Buf, m: Msg)
    requires Unique(b.s) && Books(b) && Complete(b) && m in b.received
    ensures exists sp :: AtSpot(b, m, sp) && sp != InEngine(Net) && forall sq | AtSpot(b, m, sq) :: sq == sp
    ensures b.freed[m] <= 1
  {
    var sp: Spot;
    assert Somewhere(b, m);
    if m in b.freed {
      sp := Returned;
    } else if Decoded(b, m) {
      sp := DoneWith;
    } else if m in b.held {
      sp := WithReader;
    } else if c :| At(b.s, m, Box(c)) {
      sp := InEngine(Box(c));
    } else {
      sp := InEngine(if At(b.s, m, Rx) then Rx else Pool);
    }
    assert AtSpot(b, m, sp) && sp != InEngine(Net);
    forall sq | AtSpot(b, m, sq) ensures sq == sp {
      assert sq.InEngine? ==> At(b.s, m, sq.pl);
      assert sp.InEngine? ==> At(b.s, m, sp.pl);
      assert m in b.held || m in b.freed ==> Away(b, m);
      assert Decoded(b, m) ==> !Live(b, m) && !At(b.s, m, Rx) && !At(b.s, m, Net) && m !in b.freed;
      assert sq.InEngine? && sq.pl.Box? ==> Live(b, m);
    }
  }

  /** Nothing is under way on a side. */
  ghost predicate Drained(b: Buf, side: Side) {
    && b.s.rx.At(side).None? && b.busy.At(side).None?
    && (forall m: Msg | m.to == side :: m !in b.held && m !in b.s.pool && forall c :: !At(b.s, m, Box(c)))
  }

  /** Once a side is drained, every packet it received has been freed exactly once. */
  lemma DrainedMeansFreedOnce(tr: seq<Buf>, acts: seq<Act>, i: nat, side: Side)
    requires PoliteBufRun(tr, acts) && i < |tr| && Drained(tr[i], side)
    ensures forall m | m in tr[i].received && m.to == side :: tr[i].freed[m] == 1
  {
    forall m | m in tr[i].received && m.to == side ensures tr[i].freed[m] == 1 {
      BufferConservation(tr, acts, i, m);
      var sp :| AtSpot(tr[i], m, sp) && sp != InEngine(Net);
      assert sp == Returned;
    }
  }
}
