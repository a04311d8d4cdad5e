/** Two polite runs that end with every thread waiting: a decoder that calls back
    before it is done with its packet, and an event for which no pool thread is
    left. */
module DeadlockExamples {
  import opened Common
  import opened Contexts
  import opened Engine
  import opened Refinement
  import opened Buffers
  import opened Progress
  import opened Example

  /** Q is the only pool thread of its side; P is an application thread. */
  const WORKERS := {Q}

  ghost predicate Goes(b: Buf, a: Act, b': Buf) {
    Can(b, a) && PoliteAct(b, a) && ByOwnCode(b, a) && b' == After(b, a)
  }

  lemma Go(tr: seq<Buf>, acts: seq<Act>, a: Act, b: Buf) returns (tr': seq<Buf>, acts': seq<Act>)
    requires OwnRun(tr, acts) && |tr| == |acts| + 1 && Goes(tr[|acts|], a, b)
    ensures tr' == tr + [b] && acts' == acts + [a] && OwnRun(tr', acts') && |tr'| == |acts'| + 1
  {
    hide Can, PoliteAct, ByOwnCode, After, Start;
    tr', acts' := tr + [b], acts + [a];
    forall i | 0 <= i < |acts'| ensures Goes(tr'[i], acts'[i], tr'[i + 1]) {
      assert i < |acts| ==> Goes(tr[i], acts[i], tr[i + 1]);
    }
  }

  /** No step of the core is possible and no application code runs. */
  ghost predicate Halted(b: Buf) {
    && (forall side, a :: !CoreStep(b, WORKERS, side, a))
    && (forall t :: !AppRuns(b, t))
  }

  // ------------------------------------------------ a callback before decoding is done

  /** The states of the callback run, with auto free on Q's side or not. */
  function On(auto: bool, s: State, held: map<Msg, Tid>, freed: multiset<Msg>, waits: bool, received: set<Msg>): Buf {
    Buf(s.(autoFree := PerSide(false, auto)), held, freed, PerSide(None, if auto && waits then Some(M0) else None),
        PerSide(false, false), received, if M1 in freed then {M1} else {})
  }

  const NONE: map<Msg, Tid> := map[]
  const BY_Q: map<Msg, Tid> := map[M0 := Q]

  function B0(auto: bool): Buf { On(auto, S0, NONE, multiset{}, false, {}) }
  function B1(auto: bool): Buf { On(auto, S1, NONE, multiset{}, false, {}) }
  function B2(auto: bool): Buf { On(auto, S2, NONE, multiset{}, false, {}) }
  function B3(auto: bool): Buf { On(auto, S3, NONE, multiset{}, false, {M0}) }
  function B4(auto: bool): Buf { On(auto, S4, NONE, multiset{}, true, {M0}) }
  function B5(auto: bool): Buf { On(auto, S5, BY_Q, multiset{}, true, {M0}) }
  function B6(auto: bool): Buf { On(auto, S6, BY_Q, multiset{}, true, {M0}) }
  function B7(auto: bool): Buf { On(auto, S7, BY_Q, multiset{}, true, {M0}) }
  function B8(auto: bool): Buf { On(auto, S8, BY_Q, multiset{}, true, {M0, M1}) }
  function B9(auto: bool): Buf { On(auto, S9, BY_Q, multiset{}, true, {M0, M1}) }
  function B10(auto: bool): Buf { On(auto, S10, BY_Q[M1 := P], multiset{}, true, {M0, M1}) }
  function B11(auto: bool): Buf { On(auto, S10, BY_Q, multiset{M1}, true, {M0, M1}) }
  function B12(auto: bool): Buf { On(auto, S11, BY_Q, multiset{M1}, true, {M0, M1}) }
  function B13(auto: bool): Buf { On(auto, S12, BY_Q, multiset{M1}, true, {M0, M1}) }

  lemma Step0(auto: bool) ensures Goes(B0(auto), Run(Admit(P, ToCaller, 7, 0)), B1(auto)) && Start(B0(auto)) {}
  lemma Step1(auto: bool) ensures Goes(B1(auto), Run(Send(P)), B2(auto)) {}
  lemma Step2(auto: bool) ensures Goes(B2(auto), Run(Arrive(M0)), B3(auto)) {}
  lemma Step3(auto: bool) ensures Goes(B3(auto), Run(Route(Remote)), B4(auto)) {}
  lemma Step4(auto: bool) ensures Goes(B4(auto), Run(Dispatch(Q, M0, 0)), B5(auto)) {}
  lemma Step5(auto: bool)
    ensures Goes(B5(auto), Run(Admit(Q, ToCaller, 8, 0)), B6(auto))
    ensures auto ==> Holding(B5(auto), Q)
  {
  }
  lemma Step6(auto: bool) ensures Goes(B6(auto), Run(Send(Q)), B7(auto)) {}
  lemma Step7(auto: bool) ensures Goes(B7(auto), Run(Arrive(M1)), B8(auto)) {}
  lemma Route8(auto: bool)
    ensures CanRoute(B8(auto).s, Local)
    ensures ApplyRoute(B8(auto).s, Local) == B9(auto).s && HandsOff(B8(auto).s, Local)
  {
  }
  lemma Step8(auto: bool)
    ensures Goes(B8(auto), Run(Route(Local)), B9(auto))
  {
    Route8(auto);
    hide ApplyRoute, HandsOff, CanRoute;
  }
  lemma Take9(auto: bool)
    ensures CanTake(B9(auto).s, P)
    ensures ApplyTake(B9(auto).s, P) == B10(auto).s && B9(auto).s.ctx[C].slot == Packet(M1)
  {
  }
  lemma Step9(auto: bool) ensures Goes(B9(auto), Run(Take(P)), B10(auto)) { Take9(auto); hide ApplyTake, CanTake; }
  lemma Step10(auto: bool)
    ensures Goes(B10(auto), DecodingDone(P, M1), B11(auto))
  {
    assert BY_Q[M1 := P] - {M1} == BY_Q;
  }
  lemma Step11(auto: bool) ensures Goes(B11(auto), Run(Respond(P, 9)), B12(auto)) {}
  lemma Finish12(auto: bool)
    ensures InSrv(B12(auto).s, P)
    ensures ApplyFinish(B12(auto).s, P) == B13(auto).s && B12(auto).s.thr[P].stack.top.responded
  {
  }
  lemma Step12(auto: bool)
    ensures Goes(B12(auto), Run(Finish(P)), B13(auto))
  {
    Finish12(auto);
    hide ApplyFinish, InSrv;
  }

  /** The run up to the decoding of the callback. */
  lemma Begin(auto: bool) returns (tr: seq<Buf>, acts: seq<Act>)
    ensures OwnRun(tr, acts) && |tr| == |acts| + 1 && |acts| == 6 && tr[5] == B5(auto) && tr[6] == B6(auto)
    ensures acts[5] == Run(Admit(Q, ToCaller, 8, 0))
  {
    hide Goes;
    Step0(auto);
    tr, acts := [B0(auto)], [];
    assert OwnRun(tr, acts);
    hide OwnRun, Start;
    tr, acts := Go(tr, acts, Run(Admit(P, ToCaller, 7, 0)), B1(auto));
    Step1(auto); tr, acts := Go(tr, acts, Run(Send(P)), B2(auto));
    Step2(auto); tr, acts := Go(tr, acts, Run(Arrive(M0)), B3(auto));
    Step3(auto); tr, acts := Go(tr, acts, Run(Route(Remote)), B4(auto));
    Step4(auto); tr, acts := Go(tr, acts, Run(Dispatch(Q, M0, 0)), B5(auto));
    Step5(auto); tr, acts := Go(tr, acts, Run(Admit(Q, ToCaller, 8, 0)), B6(auto));
  }

  lemma CallbackServed(auto: bool) returns (tr: seq<Buf>, acts: seq<Act>)
    ensures OwnRun(tr, acts) && |tr| == |acts| + 1 && |acts| == 11 && tr[5] == B5(auto) && tr[11] == B11(auto)
    ensures acts[5] == Run(Admit(Q, ToCaller, 8, 0))
  {
    tr, acts := Begin(auto);
    hide OwnRun, Goes;
    Step6(auto); tr, acts := Go(tr, acts, Run(Send(Q)), B7(auto));
    Step7(auto); tr, acts := Go(tr, acts, Run(Arrive(M1)), B8(auto));
    Step8(auto); tr, acts := Go(tr, acts, Run(Route(Local)), B9(auto));
    Step9(auto); tr, acts := Go(tr, acts, Run(Take(P)), B10(auto));
    Step10(auto); tr, acts := Go(tr, acts, DecodingDone(P, M1), B11(auto));
  }

  /** Nothing moves: Q waits for a response that is in the transport, and the receive
      thread waits for Q. */
  lemma HaltedSelf()
    ensures Halted(B13(true)) && SelfBlocked(B13(true), Q, M0) && M2 in B13(true).s.net
  {
    forall side, a ensures !CoreStep(B13(true), WORKERS, side, a) {
      if a.Run? {
        match a.e
        case _ =>
      }
    }
  }

  /** A polite run under auto free: Q's decoder calls back before it is done with its
      packet, the callback is served and answered, and then nothing moves. */
  lemma CallbackDeadlock() returns (tr: seq<Buf>, acts: seq<Act>)
    ensures OwnRun(tr, acts) && |tr| == |acts| + 1 && |acts| == 13
    ensures acts[5] == Run(Admit(Q, ToCaller, 8, 0)) && Holding(tr[5], Q)
    ensures Halted(tr[13]) && SelfBlocked(tr[13], Q, M0) && M2 in tr[13].s.net
  {
    tr, acts := CallbackServed(true);
    hide OwnRun, Goes, Halted, SelfBlocked, Holding;
    Step5(true);
    Step11(true); tr, acts := Go(tr, acts, Run(Respond(P, 9)), B12(true));
    Step12(true); tr, acts := Go(tr, acts, Run(Finish(P)), B13(true));
    HaltedSelf();
  }

  // ------------------------------------------------ an event without a pool thread

  const E := Msg(2, Remote, Evt, ID_UNKNOWN, ID_UNKNOWN, 5)
  const ANSWER := Msg(3, Remote, Rsp, ID_UNKNOWN, 0, 9)

  /** Under explicit free, P's decoder sends an event before it answers. */
  function Ev(s: State): Buf { B11(false).(s := s) }

  const E1 := Ev(S10.(net := {E}, next := 3))
  const E2 := Ev(S10.(next := 3, rx := PerSide(None, Some(E)))).(received := {M0, M1, E})
  const E3 := Ev(S10.(next := 3, pool := {E})).(received := {M0, M1, E})
  const E4 := Ev(S11.(next := 4, pool := {E}, net := {ANSWER})).(received := {M0, M1, E})
  const E5 := Ev(S12.(next := 4, pool := {E}, net := {ANSWER})).(received := {M0, M1, E})

  lemma StepE0() ensures Goes(B11(false), Run(SendEvent(P, 5)), E1) {}
  lemma StepE1() ensures Goes(E1, Run(Arrive(E)), E2) {}
  lemma StepE2() ensures Goes(E2, Run(Route(Remote)), E3) {}
  lemma StepE3() ensures Goes(E3, Run(Respond(P, 9)), E4) {}
  lemma FinishE4() ensures InSrv(E4.s, P) && ApplyFinish(E4.s, P) == E5.s && E4.s.thr[P].stack.top.responded {}
  lemma StepE4() ensures Goes(E4, Run(Finish(P)), E5) { FinishE4(); hide ApplyFinish, InSrv; }

  lemma HaltedStarved()
    ensures Halted(E5) && Starved(E5, WORKERS, E) && ANSWER in E5.s.net
  {
    assert InPoolSend(E5, Remote);
    forall side, a ensures !CoreStep(E5, WORKERS, side, a) {
      if a.Run? {
        match a.e
        case _ =>
      }
    }
  }

  /** A polite run without auto free: the only pool thread of a side waits inside a
      call, the receive thread waits in thread_pool_send with an event, and the
      response that would release the pool thread is behind it. */
  lemma EventDeadlock() returns (tr: seq<Buf>, acts: seq<Act>)
    ensures OwnRun(tr, acts) && |tr| == |acts| + 1 && |acts| == 16
    ensures Halted(tr[16]) && Starved(tr[16], WORKERS, E) && ANSWER in tr[16].s.net
  {
    tr, acts := CallbackServed(false);
    hide OwnRun, Goes, Halted, Starved;
    StepE0(); tr, acts := Go(tr, acts, Run(SendEvent(P, 5)), E1);
    StepE1(); tr, acts := Go(tr, acts, Run(Arrive(E)), E2);
    StepE2(); tr, acts := Go(tr, acts, Run(Route(Remote)), E3);
    StepE3(); tr, acts := Go(tr, acts, Run(Respond(P, 9)), E4);
    StepE4(); tr, acts := Go(tr, acts, Run(Finish(P)), E5);
    HaltedStarved();
  }
}
