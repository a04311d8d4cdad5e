/** nrf_rpc_stop: the admission gate and the sweep that aborts pending commands,
    over every run of the engine. */
module Stop {
  import opened Common
  import opened Contexts
  import opened Engine
  import opened Packets

  lemma KeysStep(s: State, e: Step, s': State)
    requires Next(s, e, s')
    ensures s'.ctx.Keys == s.ctx.Keys
  {
  }

  predicate GateMove(e: Step) {
    e.StopBegin? || e.Sweep? || e.StopEnd? || e.Resume?
  }

  lemma GateKept(s: State, e: Step, s': State)
    requires Next(s, e, s') && !GateMove(e)
    ensures s'.gate == s.gate
  {
  }

  /** What one step does to the gate of a side. */
  lemma GateStep(s: State, e: Step, s': State, side: Side)
    requires Next(s, e, s')
    ensures s.gate.At(side).stopped && e != Resume(side) ==> s'.gate.At(side).stopped
    ensures s.gate.At(side).sweep.Some? && e != StopEnd(side) ==>
              s'.gate.At(side).sweep == (if e == Sweep(side) then Some(s.gate.At(side).sweep.value + 1) else s.gate.At(side).sweep)
    ensures e == StopBegin(side) ==> s'.gate.At(side) == Gate(true, Some(0))
  {
    if GateMove(e) {
      assert side == e.side || side == Other(e.side);
    } else {
      GateKept(s, e, s');
    }
  }

  lemma {:induction false} PoolFixed(tr: seq<State>, es: seq<Step>, i: nat)
    requires IsRun(tr, es) && i < |tr|
    ensures tr[i].ctx.Keys == tr[0].ctx.Keys
  {
    if i > 0 {
      PoolFixed(tr, es, i - 1);
      KeysStep(tr[i - 1], es[i - 1], tr[i]);
    }
  }

  /** Step i takes the cleanup mutex and sets is_stopped; up to state j the same
      nrf_rpc_stop has not returned. */
  ghost predicate Stopping(tr: seq<State>, es: seq<Step>, side: Side, i: nat, j: nat) {
    && IsRun(tr, es) && i < j < |tr| && es[i] == StopBegin(side)
    && forall k | i < k < j :: es[k] != StopEnd(side)
  }

  /** Step k is the visit of the sweep to context c. */
  predicate VisitAt(tr: seq<State>, es: seq<Step>, k: nat, c: Cid) {
    k < |es| && |tr| == |es| + 1 && es[k] == Sweep(c.side) && tr[k].gate.At(c.side).sweep == Some(c.n)
  }

  ghost predicate Visited(tr: seq<State>, es: seq<Step>, i: nat, j: nat, c: Cid) {
    exists k :: i < k < j && VisitAt(tr, es, k, c)
  }

  /** The sweep has visited every index below its counter. */
  lemma {:induction false} SweepProgress(tr: seq<State>, es: seq<Step>, side: Side, i: nat, j: nat)
    requires Stopping(tr, es, side, i, j)
    ensures tr[j].gate.At(side).sweep.Some?
    ensures forall n: nat | n < tr[j].gate.At(side).sweep.value :: Visited(tr, es, i, j, Cid(side, n))
  {
    hide Next, Init;
    assert Next(tr[i], es[i], tr[i + 1]);
    if j == i + 1 {
      GateStep(tr[i], es[i], tr[j], side);
    } else {
      SweepProgress(tr, es, side, i, j - 1);
      assert Next(tr[j - 1], es[j - 1], tr[j]);
      GateStep(tr[j - 1], es[j - 1], tr[j], side);
      forall n: nat | n < tr[j].gate.At(side).sweep.value
        ensures Visited(tr, es, i, j, Cid(side, n))
      {
        if n < tr[j - 1].gate.At(side).sweep.value {
          assert Visited(tr, es, i, j - 1, Cid(side, n));
          var k :| i < k < j - 1 && VisitAt(tr, es, k, Cid(side, n));
          assert VisitAt(tr, es, k, Cid(side, n));
        } else {
          assert VisitAt(tr, es, j - 1, Cid(side, n));
        }
      }
    }
  }

  /** The sweep finds a context unlocked; a thread that holds it is then in its
      innermost wait, and that wait is aborted. */
  lemma VisitAborts(tr: seq<State>, es: seq<Step>, k: nat, c: Cid, t: Tid)
    requires IsRun(tr, es) && VisitAt(tr, es, k, c) && Holds(tr[k], t, c.n) && t.side == c.side
    ensures InWait(tr[k], t) && c in tr[k + 1].ctx && tr[k + 1].ctx[c].slot == Abort && Enabled(tr[k + 1], Take(t))
  {
    InvRun(tr, es, k);
    assert Next(tr[k], es[k], tr[k + 1]);
    assert ThreadOk(tr[k], t);
    StackUses(tr[k].thr[t].stack);
  }

  /** Stop gate, pending commands: thread t is inside a call on context c when the
      flag is set (step i), and stop returns at step j. The sweep visits c in
      between; by then t has finished all its calls, or it is in its innermost wait
      and the visit puts the abort into its mailbox. (Aborts: what it is worth.) */
  lemma StopAbortsPending(tr: seq<State>, es: seq<Step>, side: Side, i: nat, j: nat, t: Tid, c: Cid)
    requires Stopping(tr, es, side, i, j) && j < |es| && es[j] == StopEnd(side)
    requires c.side == side && t.side == side && Holds(tr[i], t, c.n)
    ensures exists k ::
              && i < k < j && VisitAt(tr, es, k, c)
              && (|| (InWait(tr[k], t) && c in tr[k + 1].ctx && tr[k + 1].ctx[c].slot == Abort)
                  || exists r :: i <= r <= k && t in tr[r].thr && tr[r].thr[t].stack.Nil?)
  {
    SweepProgress(tr, es, side, i, j);
    assert Next(tr[j], es[j], tr[j + 1]);
    PoolFixed(tr, es, i);
    PoolFixed(tr, es, j);
    var top := tr[j].gate.At(side).sweep.value;
    assert Cid(side, top) !in tr[0].ctx && c in tr[0].ctx;
    assert c.n < top;
    assert Visited(tr, es, i, j, Cid(side, c.n));
    var k :| i < k < j && VisitAt(tr, es, k, c);
    ThreadsFixed(tr, es, i, k);
    if Busy(tr, i, k, t) {
      TlsKept(tr, es, i, k, t);
      PoolFixed(tr, es, k);
      VisitAborts(tr, es, k, c, t);
    } else {
      var r :| i <= r <= k && !(t in tr[r].thr && tr[r].thr[t].stack.Push?);
      ThreadsFixed(tr, es, i, r);
    }
  }

  lemma {:induction false} ThreadsFixed(tr: seq<State>, es: seq<Step>, i: nat, j: nat)
    requires IsRun(tr, es) && i <= j < |tr|
    ensures tr[j].thr.Keys == tr[i].thr.Keys
  {
    hide Next;
    if i < j {
      assert Next(tr[j - 1], es[j - 1], tr[j]);
      ThreadsFixed(tr, es, i, j - 1);
      ThreadsStep(tr[j - 1], es[j - 1], tr[j]);
    }
  }

  lemma ThreadsStep(s: State, e: Step, s': State)
    requires Next(s, e, s')
    ensures s'.thr.Keys == s.thr.Keys
  {
  }

  lemma {:induction false} StaysStopped(tr: seq<State>, es: seq<Step>, side: Side, i: nat, j: nat)
    requires IsRun(tr, es) && i < j < |tr| && es[i] == StopBegin(side) && forall k | i < k < j :: es[k] != Resume(side)
    ensures tr[j].gate.At(side).stopped
  {
    hide Next;
    assert Next(tr[i], es[i], tr[i + 1]);
    GateStep(tr[i], es[i], tr[i + 1], side);
    if j > i + 1 {
      StaysStopped(tr, es, side, i, j - 1);
      assert Next(tr[j - 1], es[j - 1], tr[j]);
      GateStep(tr[j - 1], es[j - 1], tr[j], side);
    }
  }

  lemma DropGone(s: State, m: Msg)
    requires Unique(s) && CanArrive(s, m) && s.gate.At(m.to).stopped
    ensures Gone(ApplyArrive(s, m), m)
  {
    assert At(s, m, Net);
    forall pl ensures !At(ApplyArrive(s, m), m, pl) {
      if At(ApplyArrive(s, m), m, pl) { assert At(s, m, pl); }
    }
  }

  /** Stop gate, new traffic: from the step that sets the flag until resume no
      command is admitted, and a packet whose handling starts then is dropped: it
      never reaches a mailbox, the pool or anything else in any later state. */
  lemma StopClosesGate(tr: seq<State>, es: seq<Step>, side: Side, i: nat, j: nat)
    requires IsRun(tr, es) && i < j < |es| && es[i] == StopBegin(side) && forall k | i < k < j :: es[k] != Resume(side)
    ensures es[j].Admit? ==> es[j].t.side != side
    ensures es[j].Arrive? && es[j].m.to == side ==>
              && tr[j + 1] == tr[j].(net := tr[j].net - {es[j].m})
              && forall k | j < k < |tr| :: Gone(tr[k], es[j].m)
  {
    StaysStopped(tr, es, side, i, j);
    assert Next(tr[j], es[j], tr[j + 1]);
    if es[j].Arrive? && es[j].m.to == side {
      var m := es[j].m;
      UniqueRun(tr, es, j);
      assert At(tr[j], m, Net);
      DropGone(tr[j], m);
      forall k | j < k < |tr| ensures Gone(tr[k], m) { GoneForever(tr, es, j + 1, k, m); }
    }
  }

  /** What stop does not promise: a context given back by the server path keeps
      its use count of 1, so a sweep leaves an abort in its mailbox. */
  lemma ServedContextKeepsCount(s: State, t: Tid)
    requires Inv(s) && InSrv(s, t) && s.thr[t].stack.top.alloc
    ensures ApplyFinish(s, t).ctx[Own(s, t)].owner.None? && ApplyFinish(s, t).ctx[Own(s, t)].uses == 1
  {
    assert ThreadOk(s, t) && Uses(Nil) == 0;
  }

  /** The first command issued later on such a context goes out and at once comes
      back as timed out, with the context free again. */
  lemma StaleAbortFailsNextCall(s: State, t: Tid, sink: Sink, arg: nat, n: nat)
    requires Inv(s) && CanAdmit(s, t, n) && s.thr[t].tls.None? && s.ctx[Cid(t.side, n)].slot == Abort
    ensures var a := ApplyAdmit(s, t, sink, arg, n);
            && CanSend(a, t)
            && var b := ApplySend(a, t);
               && CanTake(b, t) && b.ctx[Own(b, t)].slot == Abort && SentCmd(a, t) in b.net
               && Restored(ApplyTake(b, t), t, Nil)
  {
    var a := ApplyAdmit(s, t, sink, arg, n);
    InvCall(s, Admit(t, sink, arg, n), a);
    assert ThreadOk(s, t) && ThreadOk(a, t);
    var b := ApplySend(a, t);
    InvOwn(a, Send(t), b);
    LeaveRestores(b, Take(t), ApplyTake(b, t));
  }
}
