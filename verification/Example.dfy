/** The assumptions of the refinement are met by real runs: a command whose
    decoder calls back, from the idle state to the idle state. */
module Example {
  import opened Common
  import opened Contexts
  import opened CallStacks
  import opened Engine
  import opened Refinement

  const P := Tid(Local, 0)
  const Q := Tid(Remote, 0)
  const C := Cid(Local, 0)
  const D := Cid(Remote, 0)

  /** One thread and one context on each side, explicit free. */
  function World(c: Ctx, d: Ctx, p: Thread, q: Thread, net: set<Msg>, rx: PerSide<Option<Msg>>, pool: set<Msg>,
                 next: nat): State {
    State(map[C := c, D := d], map[P := p, Q := q], net, rx, pool, PerSide(Gate(false, None), Gate(false, None)),
          PerSide(false, false), next)
  }

  const IDLE := Thread(None, Nil, Running, false)
  const FREE := Ctx(None, false, ID_UNKNOWN, 0, None, Empty)
  const NO_RX: PerSide<Option<Msg>> := PerSide(None, None)

  const M0 := Msg(0, Remote, Cmd, 0, ID_UNKNOWN, 7)  // P calls Q
  const M1 := Msg(1, Local, Cmd, 0, 0, 8)            // Q calls back
  const M2 := Msg(2, Remote, Rsp, ID_UNKNOWN, 0, 9)  // P answers the callback
  const M3 := Msg(3, Local, Rsp, ID_UNKNOWN, 0, 10)  // Q answers the call

  const CALL := Push(Nil, CmdFrame(ToCaller, None))
  const SERVE := Push(Nil, SrvFrame(true, false))

  function Pt(st: Stack, pc: Pc): Thread { Thread(Some(0), st, pc, false) }

  function Ct(t: Tid, locked: bool, remote: nat, uses: nat, slot: Slot): Ctx {
    Ctx(Some(t), locked, remote, uses, None, slot)
  }

  const BACK := Push(SERVE, CmdFrame(ToCaller, None))
  const W := Ct(P, false, ID_UNKNOWN, 1, Empty)
  const X := Ct(P, false, 0, 1, Empty)
  const D1 := Ct(Q, true, 0, 1, Empty)
  const D2 := Ct(Q, false, 0, 2, Empty)
  const PW := Pt(CALL, Waiting)
  const QW := Pt(BACK, Waiting)

  // The states of the run.
  const S0 := World(FREE, FREE, IDLE, IDLE, {}, NO_RX, {}, 0)
  const S1 := World(W.(locked := true), FREE, Pt(CALL, Sending(7)), IDLE, {}, NO_RX, {}, 0)
  const S2 := World(W, FREE, PW, IDLE, {M0}, NO_RX, {}, 1)
  const S3 := World(W, FREE, PW, IDLE, {}, PerSide(None, Some(M0)), {}, 1)
  const S4 := World(W, FREE, PW, IDLE, {}, NO_RX, {M0}, 1)
  const S5 := World(W, D1, PW, Pt(SERVE, Running), {}, NO_RX, {}, 1)
  const S6 := World(W, D2.(locked := true), PW, Pt(BACK, Sending(8)), {}, NO_RX, {}, 1)
  const S7 := World(W, D2, PW, QW, {M1}, NO_RX, {}, 2)
  const S8 := World(W, D2, PW, QW, {}, PerSide(Some(M1), None), {}, 2)
  const S9 := World(W.(slot := Packet(M1)), D2, PW, QW, {}, NO_RX, {}, 2)
  const S10 := World(X.(locked := true), D2, Pt(Push(CALL, SrvFrame(false, false)), Running), QW, {}, NO_RX, {}, 2)
  const S11 := World(X.(locked := true), D2, Pt(Push(CALL, SrvFrame(false, true)), Running), QW, {M2}, NO_RX, {}, 3)
  const S12 := World(X, D2, PW, QW, {M2}, NO_RX, {}, 3)
  const S13 := World(X, D2, PW, QW, {}, PerSide(None, Some(M2)), {}, 3)
  const S14 := World(X, D2.(slot := Packet(M2)), PW, QW, {}, NO_RX, {}, 3)
  const S15 := World(X, D1, PW, Pt(SERVE, Running), {}, NO_RX, {}, 3)
  const S16 := World(X, D1, PW, Pt(Push(Nil, SrvFrame(true, true)), Running), {M3}, NO_RX, {}, 4)
  const S17 := World(X, Free(D1), PW, IDLE, {M3}, NO_RX, {}, 4)
  const S18 := World(X, Free(D1), PW, IDLE, {}, PerSide(Some(M3), None), {}, 4)
  const S19 := World(Ct(P, false, 0, 1, Packet(M3)), Free(D1), PW, IDLE, {}, NO_RX, {}, 4)
  const S20 := World(FREE.(remote := 0), Free(D1), IDLE, IDLE, {}, NO_RX, {}, 4)

  predicate Goes(s: State, e: Step, s': State) {
    Next(s, e, s') && Polite(s, e)
  }

  lemma Step0() ensures Goes(S0, Admit(P, ToCaller, 7, 0), S1) {}
  lemma Step1() ensures Goes(S1, Send(P), S2) {}
  lemma Step2() ensures Goes(S2, Arrive(M0), S3) {}
  lemma Step3() ensures Goes(S3, Route(Remote), S4) {}
  lemma Step4() ensures Goes(S4, Dispatch(Q, M0, 0), S5) {}
  lemma Step5() ensures Goes(S5, Admit(Q, ToCaller, 8, 0), S6) {}
  lemma Step6() ensures Goes(S6, Send(Q), S7) {}
  lemma Step7() ensures Goes(S7, Arrive(M1), S8) {}
  lemma Step8() ensures Goes(S8, Route(Local), S9) {}
  lemma Step9() ensures Goes(S9, Take(P), S10) {}
  lemma Step10() ensures Goes(S10, Respond(P, 9), S11) {}
  lemma Step11() ensures Goes(S11, Finish(P), S12) {}
  lemma Step12() ensures Goes(S12, Arrive(M2), S13) {}
  lemma Step13() ensures Goes(S13, Route(Remote), S14) {}
  lemma Step14() ensures Goes(S14, Take(Q), S15) && Obs(S14, Take(Q)) == ReturnTo(Q, ToCaller, 9) {}
  lemma Step15() ensures Goes(S15, Respond(Q, 10), S16) {}
  lemma Step16() ensures Goes(S16, Finish(Q), S17) {}
  lemma Step17() ensures Goes(S17, Arrive(M3), S18) {}
  lemma Step18() ensures Goes(S18, Route(Local), S19) {}
  lemma Step19() ensures Goes(S19, Take(P), S20) && Obs(S19, Take(P)) == ReturnTo(P, ToCaller, 10) {}

  /** A polite run goes on with a polite step. */
  lemma Extend(tr: seq<State>, es: seq<Step>, e: Step, s: State) returns (tr': seq<State>, es': seq<Step>)
    requires PoliteRun(tr, es) && Goes(tr[|es|], e, s)
    ensures tr' == tr + [s] && es' == es + [e] && PoliteRun(tr', es') && |tr'| == |es'| + 1
  {
    hide Enabled, Apply, Polite, Init;
    tr', es' := tr + [s], es + [e];
    forall i | 0 <= i < |es'| ensures Goes(tr'[i], es'[i], tr'[i + 1]) {
      assert i < |es| ==> Goes(tr[i], es[i], tr[i + 1]);
    }
  }

  /** P sends its command and Q starts to serve it. */
  lemma CommandGoes(tr: seq<State>, es: seq<Step>) returns (tr': seq<State>, es': seq<Step>)
    requires PoliteRun(tr, es) && tr[|es|] == S0
    ensures PoliteRun(tr', es') && |tr'| == |es'| + 1 && tr' == tr + [S1, S2, S3, S4, S5]
    ensures es' == es + [Admit(P, ToCaller, 7, 0), Send(P), Arrive(M0), Route(Remote), Dispatch(Q, M0, 0)]
  {
    hide Goes, Next, Polite, Init;
    tr', es' := tr, es;
    Step0(); tr', es' := Extend(tr', es', Admit(P, ToCaller, 7, 0), S1);
    Step1(); tr', es' := Extend(tr', es', Send(P), S2);
    Step2(); tr', es' := Extend(tr', es', Arrive(M0), S3);
    Step3(); tr', es' := Extend(tr', es', Route(Remote), S4);
    Step4(); tr', es' := Extend(tr', es', Dispatch(Q, M0, 0), S5);
  }

  /** Q calls back and P, while it waits, serves the callback. */
  lemma CallbackGoes(tr: seq<State>, es: seq<Step>) returns (tr': seq<State>, es': seq<Step>)
    requires PoliteRun(tr, es) && tr[|es|] == S5
    ensures PoliteRun(tr', es') && |tr'| == |es'| + 1 && tr' == tr + [S6, S7, S8, S9, S10]
    ensures es' == es + [Admit(Q, ToCaller, 8, 0), Send(Q), Arrive(M1), Route(Local), Take(P)]
  {
    hide Goes, Next, Polite, Init;
    tr', es' := tr, es;
    Step5(); tr', es' := Extend(tr', es', Admit(Q, ToCaller, 8, 0), S6);
    Step6(); tr', es' := Extend(tr', es', Send(Q), S7);
    Step7(); tr', es' := Extend(tr', es', Arrive(M1), S8);
    Step8(); tr', es' := Extend(tr', es', Route(Local), S9);
    Step9(); tr', es' := Extend(tr', es', Take(P), S10);
  }

  /** P answers 9, which returns to Q. */
  lemma CallbackReturns(tr: seq<State>, es: seq<Step>) returns (tr': seq<State>, es': seq<Step>)
    requires PoliteRun(tr, es) && tr[|es|] == S10
    ensures PoliteRun(tr', es') && |tr'| == |es'| + 1 && tr' == tr + [S11, S12, S13, S14, S15]
    ensures es' == es + [Respond(P, 9), Finish(P), Arrive(M2), Route(Remote), Take(Q)]
  {
    hide Goes, Next, Polite, Init;
    tr', es' := tr, es;
    Step10(); tr', es' := Extend(tr', es', Respond(P, 9), S11);
    Step11(); tr', es' := Extend(tr', es', Finish(P), S12);
    Step12(); tr', es' := Extend(tr', es', Arrive(M2), S13);
    Step13(); tr', es' := Extend(tr', es', Route(Remote), S14);
    Step14(); tr', es' := Extend(tr', es', Take(Q), S15);
  }

  /** Q answers 10, which returns to P. */
  lemma CommandReturns(tr: seq<State>, es: seq<Step>) returns (tr': seq<State>, es': seq<Step>)
    requires PoliteRun(tr, es) && tr[|es|] == S15
    ensures PoliteRun(tr', es') && |tr'| == |es'| + 1 && tr' == tr + [S16, S17, S18, S19, S20]
    ensures es' == es + [Respond(Q, 10), Finish(Q), Arrive(M3), Route(Local), Take(P)]
  {
    hide Goes, Next, Polite, Init;
    tr', es' := tr, es;
    Step15(); tr', es' := Extend(tr', es', Respond(Q, 10), S16);
    Step16(); tr', es' := Extend(tr', es', Finish(Q), S17);
    Step17(); tr', es' := Extend(tr', es', Arrive(M3), S18);
    Step18(); tr', es' := Extend(tr', es', Route(Local), S19);
    Step19(); tr', es' := Extend(tr', es', Take(P), S20);
  }

  /** The command, the callback and both responses make a polite run from idle
      to idle. The callback returns its own answer, 9, to Q before the command
      returns its own, 10, to P. */
  lemma CallbackRun() returns (tr: seq<State>, es: seq<Step>)
    ensures PoliteRun(tr, es) && |es| == 20 && tr[0] == S0 && tr[20] == S20
    ensures Obs(tr[14], es[14]) == ReturnTo(Q, ToCaller, 9) && Obs(tr[19], es[19]) == ReturnTo(P, ToCaller, 10)
  {
    hide Next, Polite, Obs;
    tr, es := [S0], [];
    assert PoliteRun(tr, es);
    hide Init, PoliteRun;
    tr, es := CommandGoes(tr, es);
    tr, es := CallbackGoes(tr, es);
    tr, es := CallbackReturns(tr, es);
    tr, es := CommandReturns(tr, es);
    assert tr[14] == S14 && es[14] == Take(Q);
    assert tr[19] == S19 && es[19] == Take(P);
    Step14();
    Step19();
  }
}
