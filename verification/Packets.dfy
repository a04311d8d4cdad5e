/** Where the packets of the engine are, in every run (timeouts, failed sends
    and stop included): never in two places at once. */
module Packets {
  import opened Common
  import opened Contexts
  import opened Engine

  datatype Place = Net | Rx | Pool | Box(c: Cid)

  predicate At(s: State, m: Msg, pl: Place) {
    match pl
    case Net => m in s.net
    case Rx => s.rx.At(m.to) == Some(m)
    case Pool => m in s.pool
    case Box(c) => c in s.ctx && s.ctx[c].slot == Packet(m)
  }

  ghost predicate Unique(s: State) {
    && (forall side: Side | s.rx.At(side).Some? :: s.rx.At(side).value.to == side)
    && (forall m, pl | At(s, m, pl) :: m.id < s.next)
    && (forall m, n, p, q | At(s, m, p) && At(s, n, q) && m.id == n.id :: m == n && p == q)
  }

  /** A step that, at most, moves or creates packet x at place `to`. */
  ghost predicate Shift(s: State, s': State, x: Msg, to: Place) {
    && s'.next >= s.next && x.id < s'.next
    && (x.id >= s.next || exists from :: At(s, x, from))
    && (forall m, pl | At(s', m, pl) :: (m == x && pl == to) || (m != x && At(s, m, pl)))
  }

  lemma UniqueShift(s: State, s': State, x: Msg, to: Place)
    requires Unique(s) && Shift(s, s', x, to)
    requires forall side: Side | s'.rx.At(side).Some? :: s'.rx.At(side).value.to == side
    ensures Unique(s')
  {
  }

  /** A step that only takes packets away. */
  lemma UniqueLess(s: State, s': State)
    requires Unique(s) && s'.next >= s.next
    requires forall side: Side | s'.rx.At(side).Some? :: s'.rx.At(side).value.to == side
    requires forall m, pl | At(s', m, pl) :: At(s, m, pl)
    ensures Unique(s')
  {
  }

  lemma UniqueTransmit(s: State, s': State, x: Msg)
    requires Unique(s) && x.id == s.next && s'.next == s.next + 1 && s'.net == s.net + {x}
    requires s'.pool == s.pool && s'.rx == s.rx && forall c | c in s'.ctx :: c in s.ctx && s'.ctx[c].slot == s.ctx[c].slot
    ensures Unique(s')
  {
    forall m, pl | At(s', m, pl) ensures (m == x && pl == Net) || (m != x && At(s, m, pl)) {
      if m == x { assert !At(s, m, pl); }
    }
    UniqueShift(s, s', x, Net);
  }

  lemma ArrivePlaces(s: State, m: Msg)
    requires Unique(s) && CanArrive(s, m)
    ensures forall n, pl | At(ApplyArrive(s, m), n, pl) && !(n == m && pl == Rx) :: n != m && At(s, n, pl)
  {
    assert At(s, m, Net);
    forall n, pl | At(ApplyArrive(s, m), n, pl) && !(n == m && pl == Rx) ensures n != m && At(s, n, pl) {
      assert n.to == m.to || n.to == Other(m.to);
      assert At(s, n, pl);
      assert n == m ==> pl == Net;
    }
  }

  lemma UniqueArrive(s: State, m: Msg)
    requires Unique(s) && CanArrive(s, m)
    ensures Unique(ApplyArrive(s, m))
  {
    assert At(s, m, Net);
    ArrivePlaces(s, m);
    UniqueShift(s, ApplyArrive(s, m), m, Rx);
  }

  function RouteTo(s: State, side: Side): Place
    requires CanRoute(s, side)
  {
    if Addressed(s.rx.At(side).value) then Box(Cid(side, s.rx.At(side).value.dst)) else Pool
  }

  lemma RoutePlaces(s: State, side: Side)
    requires Unique(s) && CanRoute(s, side)
    ensures forall n, pl | At(ApplyRoute(s, side), n, pl) && !(n == s.rx.At(side).value && pl == RouteTo(s, side)) ::
              n != s.rx.At(side).value && At(s, n, pl)
  {
    var s' := ApplyRoute(s, side);
    var m := s.rx.At(side).value;
    assert At(s, m, Rx);
    forall n, pl | At(s', n, pl) && !(n == m && pl == RouteTo(s, side)) ensures n != m && At(s, n, pl) {
      assert n.to == side || n.to == Other(side);
      assert At(s, n, pl);
      assert n == m ==> pl == Rx;
    }
  }

  lemma UniqueRoute(s: State, side: Side)
    requires Unique(s) && CanRoute(s, side)
    ensures Unique(ApplyRoute(s, side))
  {
    assert At(s, s.rx.At(side).value, Rx);
    RoutePlaces(s, side);
    UniqueShift(s, ApplyRoute(s, side), s.rx.At(side).value, RouteTo(s, side));
  }

  /** Only Send, Respond and the event steps create a packet. */
  predicate Creates(e: Step) {
    e.Send? || e.Respond? || e.SendEvent? || e.FinishEvent?
  }

  lemma UniqueCreate(s: State, e: Step, s': State)
    requires Unique(s) && Next(s, e, s') && Creates(e)
    ensures Unique(s')
  {
    match e
    case Send(t) => UniqueTransmit(s, s', SentCmd(s, t));
    case Respond(t, v) => UniqueTransmit(s, s', SentRsp(s, t, v));
    case SendEvent(t, arg) => UniqueTransmit(s, s', Msg(s.next, Other(t.side), Evt, ID_UNKNOWN, ID_UNKNOWN, arg));
    case FinishEvent(t) => UniqueTransmit(s, s', Msg(s.next, Other(t.side), Ack, ID_UNKNOWN, ID_UNKNOWN, 0));
  }

  /** The remaining steps move no packet except out of a mailbox or the pool. */
  lemma UniqueRest(s: State, e: Step, s': State)
    requires Unique(s) && Next(s, e, s') && !Creates(e) && !e.Arrive? && !e.Route?
    ensures Unique(s') && forall m, pl | At(s', m, pl) :: At(s, m, pl)
  {
    forall m, pl | At(s', m, pl) ensures At(s, m, pl) {}
    UniqueLess(s, s');
  }

  lemma UniqueStep(s: State, e: Step, s': State)
    requires Unique(s) && Next(s, e, s')
    ensures Unique(s')
  {
    hide Unique;
    if Creates(e) {
      UniqueCreate(s, e, s');
    } else {
      match e
      case Arrive(m) => UniqueArrive(s, m);
      case Route(side) => UniqueRoute(s, side);
      case _ => UniqueRest(s, e, s');
    }
  }

  lemma {:induction false} UniqueRun(tr: seq<State>, es: seq<Step>, i: nat)
    requires IsRun(tr, es) && i < |tr|
    ensures Unique(tr[i])
  {
    if i > 0 {
      UniqueRun(tr, es, i - 1);
      UniqueStep(tr[i - 1], es[i - 1], tr[i]);
    }
  }

  /** Packet m is nowhere any more, and its identity is used up. */
  ghost predicate Gone(s: State, m: Msg) {
    m.id < s.next && forall pl :: !At(s, m, pl)
  }

  lemma GoneReceive(s: State, e: Step, s': State, m: Msg)
    requires Unique(s) && Next(s, e, s') && Gone(s, m) && (e.Arrive? || e.Route?)
    ensures Gone(s', m)
  {
    assert !At(s, m, Net) && !At(s, m, Rx);
    forall pl ensures !At(s', m, pl) {
      assert !At(s, m, pl);
      match e
      case Arrive(n) => assert m.to == n.to || m.to == Other(n.to);
      case Route(side) => assert m.to == side || m.to == Other(side);
    }
  }

  lemma GoneStep(s: State, e: Step, s': State, m: Msg)
    requires Unique(s) && Next(s, e, s') && Gone(s, m)
    ensures Gone(s', m)
  {
    hide Unique;
    if Creates(e) {
      forall pl ensures !At(s', m, pl) { assert !At(s, m, pl); }
    } else if e.Arrive? || e.Route? {
      GoneReceive(s, e, s', m);
    } else {
      UniqueRest(s, e, s');
    }
  }

  lemma {:induction false} GoneForever(tr: seq<State>, es: seq<Step>, i: nat, j: nat, m: Msg)
    requires IsRun(tr, es) && i <= j < |tr| && Gone(tr[i], m)
    ensures Gone(tr[j], m)
  {
    hide Gone, Unique;
    if i < j {
      GoneForever(tr, es, i, j - 1, m);
      UniqueRun(tr, es, j - 1);
      GoneStep(tr[j - 1], es[j - 1], tr[j], m);
    }
  }
}
