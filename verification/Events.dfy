/** Events: each is handled at most once, on the other side, with the value it was
    sent with, and each that is handled is acknowledged exactly once. */
module Events {
  import opened Common
  import opened Contexts
  import opened Engine
  import opened Packets

  // ------------------------------------------------ where an event comes from

  /** Step k is the nrf_rpc_evt that created event m. */
  predicate SentAt(tr: seq<State>, es: seq<Step>, k: nat, m: Msg) {
    && k < |es| < |tr| && es[k].SendEvent? && es[k].arg == m.data && es[k].t.side != m.to && m.id == tr[k].next
  }

  /** A packet that is somewhere after a step was somewhere before it, or is new. */
  lemma ComesFrom(s: State, e: Step, s': State, m: Msg, pl: Place)
    requires Unique(s) && Next(s, e, s') && At(s', m, pl) && m.kind == Evt
    ensures (exists from :: At(s, m, from)) || (e.SendEvent? && e.arg == m.data && e.t.side != m.to && m.id == s.next)
  {
    if e.Arrive? {
      assert At(s, e.m, Net);
      ArrivePlaces(s, e.m);
    } else if e.Route? {
      assert At(s, s.rx.At(e.side).value, Rx);
      RoutePlaces(s, e.side);
    } else if Creates(e) {
      NewPacket(s, e, s', m, pl);
    } else {
      UniqueRest(s, e, s');
    }
  }

  lemma NewPacket(s: State, e: Step, s': State, m: Msg, pl: Place)
    requires Next(s, e, s') && Creates(e) && At(s', m, pl) && m.kind == Evt
    ensures At(s, m, pl) || (e.SendEvent? && e.arg == m.data && e.t.side != m.to && m.id == s.next)
  {
  }

  lemma {:induction false} EventOrigin(tr: seq<State>, es: seq<Step>, i: nat, m: Msg, pl: Place)
    requires IsRun(tr, es) && i < |tr| && m.kind == Evt && At(tr[i], m, pl)
    ensures exists k: nat :: SentAt(tr, es, k, m) && k < i
  {
    if i > 0 {
      var s := tr[i - 1];
      UniqueRun(tr, es, i - 1);
      ComesFrom(s, es[i - 1], tr[i], m, pl);
      if from :| At(s, m, from) {
        EventOrigin(tr, es, i - 1, m, from);
      } else {
        assert SentAt(tr, es, i - 1, m);
      }
    }
  }

  /** In all runs an event that is handled was sent before, by a thread of the other
      side and with the value that is handled, and it is not handled again. */
  lemma EventHandledOnce(tr: seq<State>, es: seq<Step>, i: nat)
    requires IsRun(tr, es) && i < |es| && es[i].DispatchEvent?
    ensures es[i].m.kind == Evt && es[i].m.to == es[i].t.side
    ensures exists k: nat :: SentAt(tr, es, k, es[i].m) && k < i
    ensures forall j | i < j < |es| && es[j].DispatchEvent? :: es[j].m != es[i].m
  {
    var m := es[i].m;
    assert Next(tr[i], es[i], tr[i + 1]);
    assert At(tr[i], m, Pool);
    EventOrigin(tr, es, i, m, Pool);
    UniqueRun(tr, es, i);
    DispatchedGone(tr[i], es[i], tr[i + 1]);
    forall j | i < j < |es| && es[j].DispatchEvent? ensures es[j].m != m {
      GoneForever(tr, es, i + 1, j, m);
      assert Next(tr[j], es[j], tr[j + 1]);
      assert !At(tr[j], m, Pool);
    }
  }

  lemma DispatchedGone(s: State, e: Step, s': State)
    requires Unique(s) && Next(s, e, s') && e.DispatchEvent?
    ensures Gone(s', e.m)
  {
    UniqueRest(s, e, s');
    assert At(s, e.m, Pool);
    forall pl ensures !At(s', e.m, pl) { assert At(s, e.m, pl) ==> pl == Pool; }
  }

  // ------------------------------------------------ acknowledgements

  /** Step k sends an acknowledgement from this side. */
  ghost predicate AckAt(tr: seq<State>, k: nat, side: Side)
    requires k + 1 < |tr|
  {
    exists m :: m in tr[k + 1].net && m !in tr[k].net && m.kind == Ack && m.to != side
  }

  function One(b: bool): nat { if b then 1 else 0 }

  /** How many of the first i steps send an acknowledgement from this side. */
  ghost function Acks(tr: seq<State>, i: nat, side: Side): nat
    requires i < |tr|
  {
    if i == 0 then 0 else Acks(tr, i - 1, side) + One(AckAt(tr, i - 1, side))
  }

  /** How many of the first i steps start to handle an event on this side. */
  function Handled(es: seq<Step>, i: nat, side: Side): nat
    requires i <= |es|
  {
    if i == 0 then 0 else Handled(es, i - 1, side) + One(es[i - 1].DispatchEvent? && es[i - 1].t.side == side)
  }

  function InHandlers(s: State, side: Side): set<Tid> {
    set t | t in s.thr && t.side == side && s.thr[t].inEvent
  }

  /** What one step does: a handler starts, ends with one acknowledgement to the
      other side, or nothing of the kind happens. */
  lemma AckStep(s: State, e: Step, s': State, side: Side)
    requires Unique(s) && Next(s, e, s')
    ensures (exists m :: m in s'.net && m !in s.net && m.kind == Ack && m.to != side) <==>
              e.FinishEvent? && e.t.side == side
  {
    if e.FinishEvent? {
      var m := Msg(s.next, Other(e.t.side), Ack, ID_UNKNOWN, ID_UNKNOWN, 0);
      assert m in s'.net;
      assert forall n | n in s.net :: At(s, n, Net);
    }
  }

  lemma HandlerStep(s: State, e: Step, s': State)
    requires Next(s, e, s')
    ensures s'.thr.Keys == s.thr.Keys
    ensures forall t | t in s.thr ::
              s'.thr[t].inEvent == (if e.DispatchEvent? && e.t == t then true
                                    else if e.FinishEvent? && e.t == t then false else s.thr[t].inEvent)
    ensures e.DispatchEvent? ==> e.t in s.thr && !s.thr[e.t].inEvent
    ensures e.FinishEvent? ==> e.t in s.thr && s.thr[e.t].inEvent
  {
    hide LeaveCmd, Deposit;
    match e
    case SendFail(t) => LeaveHandlers(s, t, s.ctx[Own(s, t)]);
    case Timeout(t) => LeaveHandlers(s, t, s.ctx[Own(s, t)].(locked := true));
    case Take(t) => LeaveHandlers(s, t, s.ctx[Own(s, t)].(slot := Empty, locked := true));
    case _ =>
  }

  lemma LeaveHandlers(s: State, t: Tid, x: Ctx)
    requires InCmd(s, t)
    ensures LeaveCmd(s, t, x).thr.Keys == s.thr.Keys
    ensures forall u | u in s.thr :: LeaveCmd(s, t, x).thr[u].inEvent == s.thr[u].inEvent
  {
  }

  lemma HandlersStep(s: State, e: Step, s': State, side: Side)
    requires Next(s, e, s')
    ensures |InHandlers(s', side)| + One(e.FinishEvent? && e.t.side == side)
            == |InHandlers(s, side)| + One(e.DispatchEvent? && e.t.side == side)
  {
    hide Next;
    HandlerStep(s, e, s');
    var before, after := InHandlers(s, side), InHandlers(s', side);
    if e.DispatchEvent? && e.t.side == side {
      assert after == before + {e.t};
    } else if e.FinishEvent? && e.t.side == side {
      assert after == before - {e.t};
    } else {
      assert after == before;
    }
  }

  /** In all runs every event that was handled has been acknowledged by exactly one
      packet to the other side, unless its handler still runs. */
  lemma {:induction false} EventsAcknowledged(tr: seq<State>, es: seq<Step>, i: nat, side: Side)
    requires IsRun(tr, es) && i < |tr|
    ensures Acks(tr, i, side) + |InHandlers(tr[i], side)| == Handled(es, i, side)
  {
    hide Next, AckAt, Unique;
    if i == 0 {
      assert InHandlers(tr[0], side) == {};
    } else {
      hide Init, InHandlers;
      EventsAcknowledged(tr, es, i - 1, side);
      UniqueRun(tr, es, i - 1);
      assert Next(tr[i - 1], es[i - 1], tr[i]);
      HandlersStep(tr[i - 1], es[i - 1], tr[i], side);
      AckStep(tr[i - 1], es[i - 1], tr[i], side);
      AckAtIff(tr, i - 1, side);
    }
  }

  lemma AckAtIff(tr: seq<State>, k: nat, side: Side)
    requires k + 1 < |tr|
    ensures AckAt(tr, k, side) <==>
              exists m :: m in tr[k + 1].net && m !in tr[k].net && m.kind == Ack && m.to != side
  {
  }
}
