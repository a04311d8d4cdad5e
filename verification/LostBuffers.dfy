/** What a sweep of nrf_rpc_stop does to a packet it finds in a mailbox: the NULL
    takes its place, and nobody is left to be done with it. */
module LostBuffers {
  import opened Common
  import opened Contexts
  import opened Engine
  import opened Packets
  import opened Buffers
  import opened Progress
  import opened Aborts

  /** Nobody has packet m any more, and it was not given back; a receive thread that
      waits for its decoding has not been told. */
  ghost predicate Forgotten(b: Buf, m: Msg) {
    Away(b, m) && m !in b.held && m !in b.freed && !Decoded(b, m)
  }

  /** The receive thread of the side waits for the decoding of a packet that nobody has. */
  ghost predicate Deaf(b: Buf, m: Msg) {
    Forgotten(b, m) && b.busy.At(m.to) == Some(m)
  }

  lemma ForgottenRun(b: Buf, e: Step, m: Msg)
    requires Unique(b.s) && Can(b, Run(e)) && Forgotten(b, m)
    ensures Forgotten(After(b, Run(e)), m)
  {
    assert forall side: Side | b.s.rx.At(side).Some? :: b.s.rx.At(side).value.to == side;
    hide Unique, Apply, Enabled, After;
    AfterRuns(b, e);
    GoneStep(b.s, e, Apply(b.s, e), m);
    ForgottenBooks(b, e, m);
  }

  lemma ForgottenBooks(b: Buf, e: Step, m: Msg)
    requires Can(b, Run(e)) && Forgotten(b, m)
    requires forall side: Side | b.s.rx.At(side).Some? :: b.s.rx.At(side).value.to == side
    ensures var b' := After(b, Run(e)); m !in b'.held && m !in b'.freed && !Decoded(b', m)
  {
    assert !At(b.s, m, Net) && !At(b.s, m, Rx) && !At(b.s, m, Pool);
    hide HandsOff, Addressed, ApplyArrive, ApplyRoute, ApplyTake, ApplyAdmit, ApplyDispatch, ApplySend, LeaveCmd;
    match e
    case Route(side) => assert side == m.to || side == Other(m.to);
    case Take(u) => assert !At(b.s, m, Box(Own(b.s, u)));
    case _ =>
  }

  lemma ForgottenRest(b: Buf, a: Act, m: Msg)
    requires AutoOk(b) && Can(b, a) && !a.Run? && Forgotten(b, m)
    ensures Forgotten(After(b, a), m)
  {
    match a
    case DecodingDone(t, n) =>
      assert Live(b, n);
      assert n.to == m.to || n.to == Other(m.to);
    case WakeReceiver(side) => assert side == m.to || side == Other(m.to);
  }

  /** A packet that is forgotten stays forgotten, and so does a receive thread that
      waits for it. */
  lemma ForgottenStep(b: Buf, a: Act, m: Msg)
    requires BufInv(b) && Can(b, a) && Forgotten(b, m)
    ensures Forgotten(After(b, a), m) && (Deaf(b, m) ==> Deaf(After(b, a), m))
  {
    assert AutoOk(b) && Unique(b.s);
    if Deaf(b, m) { StillWaits(b, a, m); }
    hide BufInv, AutoOk, Unique, Forgotten, After, Can;
    if a.Run? { ForgottenRun(b, a.e, m); } else { ForgottenRest(b, a, m); }
  }

  lemma StillWaits(b: Buf, a: Act, m: Msg)
    requires AutoOk(b) && Can(b, a) && Deaf(b, m)
    ensures After(b, a).busy.At(m.to) == Some(m)
  {
    assert b.s.rx.At(m.to).None?;
    match a
    case Run(e) =>
      hide AutoOk, Forgotten, ApplyArrive, ApplyRoute, ApplyTake, ApplyAdmit, ApplyDispatch, ApplySend, LeaveCmd;
      if e.Route? { assert e.side == m.to || e.side == Other(m.to); }
    case DecodingDone(_, _) =>
    case WakeReceiver(side) => assert side == m.to || side == Other(m.to);
  }

  lemma {:induction false} ForgottenForever(tr: seq<Buf>, acts: seq<Act>, i: nat, j: nat, m: Msg)
    requires IsBufRun(tr, acts) && i <= j < |tr| && Forgotten(tr[i], m)
    ensures Forgotten(tr[j], m) && (Deaf(tr[i], m) ==> Deaf(tr[j], m))
  {
    hide Forgotten, Deaf, BufInv, Can, After, Start;
    if i < j {
      ForgottenForever(tr, acts, i, j - 1, m);
      BufRun(tr, acts, j - 1);
      assert Can(tr[j - 1], acts[j - 1]);
      ForgottenStep(tr[j - 1], acts[j - 1], m);
    }
  }

  /** The visit of the sweep at step k to context c, in use by its count. */
  ghost predicate SweepAt(tr: seq<Buf>, acts: seq<Act>, k: nat, c: Cid) {
    IsBufRun(tr, acts) && k < |acts| && acts[k] == Run(Sweep(c.side)) && Posts(tr[k].s, Sweep(c.side), c)
  }

  /** A visit of the sweep forgets exactly the packet it finds in the mailbox. */
  lemma SweepForgetsIff(tr: seq<Buf>, acts: seq<Act>, k: nat, c: Cid, m: Msg)
    requires SweepAt(tr, acts, k, c)
    ensures Forgotten(tr[k + 1], m) && !Forgotten(tr[k], m) <==> tr[k].s.ctx[c].slot == Packet(m)
    ensures tr[k].s.ctx[c].slot == Packet(m) && tr[k].s.autoFree.At(c.side) ==> Deaf(tr[k + 1], m) && m.to == c.side
  {
    BufRun(tr, acts, k);
    SidesRun(tr, acts, k);
    assert Can(tr[k], acts[k]) && tr[k + 1] == After(tr[k], acts[k]);
    SweepForgets(tr[k], c, m);
  }

  lemma SweepForgets(b: Buf, c: Cid, m: Msg)
    requires BufInv(b) && SidesOk(b) && Can(b, Run(Sweep(c.side))) && Posts(b.s, Sweep(c.side), c)
    ensures var b' := After(b, Run(Sweep(c.side)));
            && (Forgotten(b', m) && !Forgotten(b, m) <==> b.s.ctx[c].slot == Packet(m))
            && (b.s.ctx[c].slot == Packet(m) && b.s.autoFree.At(c.side) ==> Deaf(b', m) && m.to == c.side)
  {
    var b' := After(b, Run(Sweep(c.side)));
    assert b'.s.ctx == b.s.ctx[c := b.s.ctx[c].(slot := Abort)];
    forall pl | pl != Box(c) ensures At(b'.s, m, pl) <==> At(b.s, m, pl) {}
    assert !At(b'.s, m, Box(c));
    if b.s.ctx[c].slot == Packet(m) {
      assert At(b.s, m, Box(c)) && Live(b, m);
      assert !Away(b, m) && m.to == c.side;
      assert forall pl | At(b.s, m, pl) :: pl == Box(c);
      assert m.id < b.s.next;
    } else {
      assert !At(b.s, m, Box(c));
      assert Away(b', m) <==> Away(b, m);
    }
  }

  /** A sweep that finds packet m in a mailbox: from then on m is read by nobody and
      never given back, and under auto free its side receives no packet any more,
      after resume neither. */
  lemma SweptPacketLost(tr: seq<Buf>, acts: seq<Act>, k: nat, j: nat, c: Cid, m: Msg)
    requires SweepAt(tr, acts, k, c) && k < j < |tr| && tr[k].s.ctx[c].slot == Packet(m)
    ensures m !in tr[j].freed && !Live(tr[j], m)
    ensures tr[j].s.autoFree.At(c.side) ==>
              && tr[j].busy.At(c.side) == Some(m) && tr[j].s.rx.At(c.side).None?
              && (j < |acts| && acts[j].Run? && acts[j].e.Arrive? ==> acts[j].e.m.to != c.side)
  {
    SweepForgetsIff(tr, acts, k, c, m);
    ForgottenForever(tr, acts, k + 1, j, m);
    DisciplineFixed(tr, acts, k, j);
    BufRun(tr, acts, j);
    assert !At(tr[j].s, m, Pool) && forall d :: !At(tr[j].s, m, Box(d));
    assert j < |acts| ==> Can(tr[j], acts[j]);
  }

  lemma {:induction false} DisciplineFixed(tr: seq<Buf>, acts: seq<Act>, i: nat, j: nat)
    requires IsBufRun(tr, acts) && i <= j < |tr|
    ensures tr[j].s.autoFree == tr[i].s.autoFree
  {
    hide Can, After, Start;
    if i < j {
      DisciplineFixed(tr, acts, i, j - 1);
      assert Can(tr[j - 1], acts[j - 1]);
      DisciplineStep(tr[j - 1], acts[j - 1]);
    }
  }

  lemma DisciplineStep(b: Buf, a: Act)
    requires Can(b, a)
    ensures After(b, a).s.autoFree == b.s.autoFree
  {
    hide After, Enabled, Apply;
    if a.Run? {
      AfterRuns(b, a.e);
      DisciplineKept(b.s, a.e);
    } else {
      AfterRests(b, a);
    }
  }

  lemma DisciplineKept(s: State, e: Step)
    requires Enabled(s, e)
    ensures Apply(s, e).autoFree == s.autoFree
  {
  }
}
