/** Two runs that show where the promises of nrf_rpc_stop end: an abort that a
    packet overwrites, and an abort that fails a command issued after resume. */
module StopExamples {
  import opened Common
  import opened Contexts
  import opened CallStacks
  import opened Engine
  import opened Refinement
  import opened Aborts
  import opened Example

  const OPEN := Gate(false, None)

  lemma Prefix(tr: seq<State>, es: seq<Step>, n: nat)
    requires IsRun(tr, es) && n <= |es|
    ensures IsRun(tr[..n + 1], es[..n])
  {
    hide Next, Init;
    var tr', es' := tr[..n + 1], es[..n];
    forall i | 0 <= i < |es'| ensures Next(tr'[i], es'[i], tr'[i + 1]) {
      assert Next(tr[i], es[i], tr[i + 1]);
    }
  }

  /** One more step of a run. */
  lemma Go(tr: seq<State>, es: seq<Step>, e: Step, s: State) returns (tr': seq<State>, es': seq<Step>)
    requires IsRun(tr, es) && Next(tr[|es|], e, s)
    ensures tr' == tr + [s] && es' == es + [e] && IsRun(tr', es') && |tr'| == |es'| + 1
  {
    hide Next, Init;
    ExtendRun(tr, es, e, s);
    tr', es' := tr + [s], es + [e];
  }

  // ------------------------------------------------ an abort that is overwritten

  // The receive thread of P's side holds the callback M1 when the flag is set.
  const A1 := S8.(gate := PerSide(Gate(true, Some(0)), OPEN))
  const A2 := World(W.(slot := Abort), D2, PW, QW, {}, PerSide(Some(M1), None), {}, 2).(
                gate := PerSide(Gate(true, Some(1)), OPEN))
  const A3 := S9.(gate := PerSide(Gate(true, Some(1)), OPEN))
  const A4 := S9.(gate := PerSide(Gate(true, None), OPEN))
  const A5 := S10.(gate := PerSide(Gate(true, None), OPEN))

  lemma StepA1() ensures Next(S8, StopBegin(Local), A1) && Holds(S8, P, 0) && RxFor(S8, C) {}
  lemma StepA2() ensures Next(A1, Sweep(Local), A2) && Posts(A1, Sweep(Local), C) && A2.ctx[C].slot == Abort {}
  lemma StepA3() ensures Next(A2, Route(Local), A3) {}
  lemma StepA4() ensures Next(A3, StopEnd(Local), A4) {}
  lemma StepA5() ensures Next(A4, Take(P), A5) && Enabled(A4, Take(P)) && Obs(A4, Take(P)) == StartBy(P, 8) {}

  /** The run up to the arrival of the callback. */
  lemma CallbackArrives() returns (tr: seq<State>, es: seq<Step>)
    ensures IsRun(tr, es) && |tr| == 9 && |es| == 8 && tr[8] == S8
  {
    hide Next, Polite;
    tr, es := [S0], [];
    assert PoliteRun(tr, es);
    hide Init;
    tr, es := CommandGoes(tr, es);
    tr, es := CallbackGoes(tr, es);
    Prefix(tr, es, 8);
    tr, es := tr[..9], es[..8];
  }

  /** Stop sets the flag (step 8), its sweep posts the abort to P, who waits (step
      9), and it returns (step 11); yet P then wakes up to the callback and serves
      it, neither finished nor aborted. */
  lemma OverwrittenAbortRun() returns (tr: seq<State>, es: seq<Step>)
    ensures IsRun(tr, es) && |es| == 13
    ensures es[8] == StopBegin(Local) && es[11] == StopEnd(Local) && es[12] == Take(P)
    ensures Posts(tr[9], es[9], C) && Holds(tr[8], P, 0) && RxFor(tr[8], C)
    ensures C in tr[10].ctx && tr[10].ctx[C].slot == Abort
    ensures Enabled(tr[12], es[12]) && Obs(tr[12], es[12]) == StartBy(P, 8)
  {
    tr, es := CallbackArrives();
    hide Init, IsRun, Next, Posts, Obs, Enabled, Holds, RxFor;
    StepA1(); tr, es := Go(tr, es, StopBegin(Local), A1);
    StepA2(); tr, es := Go(tr, es, Sweep(Local), A2);
    StepA3(); tr, es := Go(tr, es, Route(Local), A3);
    StepA4(); tr, es := Go(tr, es, StopEnd(Local), A4);
    StepA5(); tr, es := Go(tr, es, Take(P), A5);
    assert tr[8] == S8 && tr[9] == A1 && tr[10] == A2 && tr[12] == A4;
  }

  // ------------------------------------------------ an abort left behind

  const M4 := Msg(4, Local, Cmd, 0, ID_UNKNOWN, 11)
  const X0 := FREE.(remote := 0)
  const STALE := Free(D1).(slot := Abort)
  const B1 := S20.(gate := PerSide(OPEN, Gate(true, Some(0))))
  const B2 := World(X0, STALE, IDLE, IDLE, {}, NO_RX, {}, 4).(gate := PerSide(OPEN, Gate(true, Some(1))))
  const B3 := World(X0, STALE, IDLE, IDLE, {}, NO_RX, {}, 4).(gate := PerSide(OPEN, Gate(true, None)))
  const B4 := World(X0, STALE, IDLE, IDLE, {}, NO_RX, {}, 4)
  const B5 := World(X0, Ct(Q, true, ID_UNKNOWN, 1, Abort), IDLE, Pt(CALL, Sending(11)), {}, NO_RX, {}, 4)
  const B6 := World(X0, Ct(Q, false, ID_UNKNOWN, 1, Abort), IDLE, Pt(CALL, Waiting), {M4}, NO_RX, {}, 5)
  const B7 := World(X0, FREE, IDLE, IDLE, {M4}, NO_RX, {}, 5)

  lemma StepB1() ensures Next(S20, StopBegin(Remote), B1) {}
  lemma StepB2() ensures Next(B1, Sweep(Remote), B2) && Posts(B1, Sweep(Remote), D) && FreeCtx(B1, D) {}
  lemma StepB3() ensures Next(B2, StopEnd(Remote), B3) {}
  lemma StepB4() ensures Next(B3, Resume(Remote), B4) {}
  lemma StepB5() ensures Next(B4, Admit(Q, ToCaller, 11, 0), B5) {}
  lemma StepB6() ensures Next(B5, Send(Q), B6) {}
  lemma StepB7() ensures Next(B6, Take(Q), B7) && Leaves(B6, Take(Q)) && Restored(B7, Q, Nil) {}

  /** The whole run of the command and its callback. */
  lemma IdleAgain() returns (tr: seq<State>, es: seq<Step>)
    ensures IsRun(tr, es) && |tr| == 21 && |es| == 20 && tr[20] == S20
  {
    hide Next, Init, Obs;
    tr, es := CallbackRun();
  }

  /** Both sides idle, stop and resume on Q's side; the next command of Q is sent
      and comes back at once, with its packet still in the transport. */
  lemma StaleAbortRun() returns (tr: seq<State>, es: seq<Step>)
    ensures IsRun(tr, es) && |es| == 27
    ensures forall t | t in tr[20].thr :: Idle(tr[20], t)
    ensures Posts(tr[21], es[21], D) && FreeCtx(tr[21], D) && es[23] == Resume(Remote)
    ensures es[24] == Admit(Q, ToCaller, 11, 0) && es[25] == Send(Q) && es[26] == Take(Q)
    ensures D in tr[26].ctx && tr[26].ctx[D].slot == Abort && Leaves(tr[26], es[26])
    ensures Restored(tr[27], Q, Nil) && M4 in tr[27].net
  {
    tr, es := IdleAgain();
    hide Init, IsRun, Next, Posts, Leaves, Restored, FreeCtx;
    StepB1(); tr, es := Go(tr, es, StopBegin(Remote), B1);
    StepB2(); tr, es := Go(tr, es, Sweep(Remote), B2);
    StepB3(); tr, es := Go(tr, es, StopEnd(Remote), B3);
    StepB4(); tr, es := Go(tr, es, Resume(Remote), B4);
    StepB5(); tr, es := Go(tr, es, Admit(Q, ToCaller, 11, 0), B5);
    StepB6(); tr, es := Go(tr, es, Send(Q), B6);
    StepB7(); tr, es := Go(tr, es, Take(Q), B7);
    assert tr[20] == S20 && tr[21] == B1 && tr[26] == B6 && tr[27] == B7;
  }
}
