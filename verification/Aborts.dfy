/** The life of the NULL that the sweep of nrf_rpc_stop posts: when it reaches the
    wait it is meant for, when a packet overwrites it, and when it stays behind in
    a free context and fails a later command. */
module Aborts {
  import opened Common
  import opened Contexts
  import opened Engine
  import opened Stop

  // ------------------------------------------------ what writes a mailbox

  /** The sweep visits context c and finds it in use by its count. */
  predicate Posts(s: State, e: Step, c: Cid) {
    e == Sweep(c.side) && s.gate.At(c.side).sweep == Some(c.n) && c in s.ctx && s.ctx[c].uses > 0
  }

  /** The receive thread of c's side holds a packet addressed to c. */
  predicate RxFor(s: State, c: Cid) {
    s.rx.At(c.side).Some? && Addressed(s.rx.At(c.side).value) && s.rx.At(c.side).value.dst == c.n
  }

  predicate Deposits(s: State, e: Step, c: Cid) {
    e == Route(c.side) && RxFor(s, c) && c in s.ctx && s.ctx[c].uses > 0
  }

  predicate Takes(s: State, e: Step, c: Cid) {
    e.Take? && e.t.side == c.side && Holds(s, e.t, c.n)
  }

  lemma SlotStep(s: State, e: Step, s': State, c: Cid)
    requires Next(s, e, s') && c in s.ctx
    ensures c in s'.ctx
    ensures s'.ctx[c].slot == Abort <==>
              Posts(s, e, c) || (s.ctx[c].slot == Abort && !Deposits(s, e, c) && !Takes(s, e, c))
  {
  }

  /** Step k posted to c, and up to state j nothing overwrote or took it. */
  ghost predicate PostedAt(tr: seq<State>, es: seq<Step>, k: nat, j: nat, c: Cid) {
    && k < j < |tr| == |es| + 1 && Posts(tr[k], es[k], c)
    && forall q | k < q < j :: !Deposits(tr[q], es[q], c) && !Takes(tr[q], es[q], c)
  }

  /** In all runs a mailbox holds an abort exactly when some visit of a sweep put it
      there and nothing was deposited or taken since. */
  lemma {:induction false} AbortIff(tr: seq<State>, es: seq<Step>, j: nat, c: Cid)
    requires IsRun(tr, es) && j < |tr| && c in tr[0].ctx
    ensures c in tr[j].ctx
    ensures tr[j].ctx[c].slot == Abort <==> exists k :: PostedAt(tr, es, k, j, c)
  {
    hide Next, Posts, Deposits, Takes;
    if j > 0 {
      var i := j - 1;
      AbortIff(tr, es, i, c);
      assert Next(tr[i], es[i], tr[j]);
      SlotStep(tr[i], es[i], tr[j], c);
      if k: nat :| PostedAt(tr, es, k, i, c) && tr[j].ctx[c].slot == Abort && !Posts(tr[i], es[i], c) {
        assert PostedAt(tr, es, k, j, c);
      }
      if Posts(tr[i], es[i], c) { assert PostedAt(tr, es, i, j, c); }
      if k: nat :| PostedAt(tr, es, k, j, c) && k < i { assert PostedAt(tr, es, k, i, c); }
    }
  }

  // ------------------------------------------------ the wait that is aborted

  /** A thread that waits on c with something in the mailbox leaves that state only
      by taking it. */
  predicate WaitsOn(s: State, t: Tid, c: Cid) {
    t.side == c.side && Holds(s, t, c.n) && InWait(s, t) && s.ctx[c].slot != Empty
  }

  lemma WaiterStep(s: State, e: Step, s': State, t: Tid, c: Cid)
    requires Inv(s) && Next(s, e, s') && WaitsOn(s, t, c) && e != Take(t)
    ensures WaitsOn(s', t, c)
  {
    assert ThreadOk(s, t) && CtxOk(s, c);
    InvStep(s, e, s');
    WaiterFrame(s, e, s', t, c);
    assert ThreadOk(s', t);
  }

  lemma WaiterFrame(s: State, e: Step, s': State, t: Tid, c: Cid)
    requires Next(s, e, s') && WaitsOn(s, t, c) && e != Take(t) && s.ctx[c].owner == Some(t)
    requires forall u | u in s.thr :: ThreadOk(s, u)
    ensures t in s'.thr && s'.thr[t] == s.thr[t] && c in s'.ctx && s'.ctx[c].slot != Empty
  {
    hide StackOk, Uses, Shown;
    if e.Admit? || e.Dispatch? || e.Take? || e.Timeout? || e.SendFail? || e.Finish? || e.Respond? || e.Send? {
      assert e.t in s.thr && ThreadOk(s, e.t);
    }
  }

  lemma {:induction false} WaiterRun(tr: seq<State>, es: seq<Step>, k: nat, j: nat, t: Tid, c: Cid)
    requires IsRun(tr, es) && k <= j < |tr| && WaitsOn(tr[k], t, c) && forall q | k <= q < j :: es[q] != Take(t)
    ensures WaitsOn(tr[j], t, c)
  {
    hide Next, WaitsOn, Inv;
    if k < j {
      WaiterRun(tr, es, k, j - 1, t, c);
      InvRun(tr, es, j - 1);
      assert Next(tr[j - 1], es[j - 1], tr[j]);
      WaiterStep(tr[j - 1], es[j - 1], tr[j], t, c);
    }
  }

  /** The visit of the sweep finds the thread that holds c in its innermost wait. */
  lemma PostWaits(tr: seq<State>, es: seq<Step>, k: nat, c: Cid, t: Tid)
    requires IsRun(tr, es) && k < |es| && Posts(tr[k], es[k], c) && Holds(tr[k], t, c.n) && t.side == c.side
    ensures WaitsOn(tr[k + 1], t, c) && tr[k + 1].ctx[c].slot == Abort && tr[k + 1].rx == tr[k].rx
  {
    assert Next(tr[k], es[k], tr[k + 1]);
    VisitAborts(tr, es, k, c, t);
  }

  /** While a side is stopped its receive thread gets nothing new. */
  lemma RxStep(s: State, e: Step, s': State, side: Side)
    requires Next(s, e, s') && s.gate.At(side).stopped && e != Resume(side)
    ensures s'.gate.At(side).stopped && s'.rx.At(side) == (if e == Route(side) then None else s.rx.At(side))
  {
    GateStep(s, e, s', side);
    match e
    case Arrive(m) => assert m.to == side || m.to == Other(side);
    case Route(x) => assert x == side || x == Other(side);
    case _ =>
  }

  lemma {:induction false} RxStays(tr: seq<State>, es: seq<Step>, side: Side, k: nat, j: nat)
    requires IsRun(tr, es) && k <= j < |tr| && tr[k].gate.At(side).stopped
    requires forall q | k <= q < j :: es[q] != Resume(side)
    ensures tr[j].gate.At(side).stopped && (tr[j].rx.At(side) == None || tr[j].rx.At(side) == tr[k].rx.At(side))
  {
    hide Next;
    if k < j {
      RxStays(tr, es, side, k, j - 1);
      assert Next(tr[j - 1], es[j - 1], tr[j]);
      RxStep(tr[j - 1], es[j - 1], tr[j], side);
    }
  }

  /** From state k to state j thread t takes nothing and its side is not resumed. */
  ghost predicate Undisturbed(tr: seq<State>, es: seq<Step>, k: nat, j: nat, t: Tid) {
    k <= j < |tr| == |es| + 1 && forall q | k <= q < j :: es[q] != Take(t) && es[q] != Resume(t.side)
  }

  /** Step k of a sweep posts to the wait of t on c, and from then on t does not
      take anything up to state j. The abort is still there exactly when no packet
      was deposited since this visit or a later one. While the side stays stopped
      only the packet that the receive thread already held can do that. */
  lemma AbortKept(tr: seq<State>, es: seq<Step>, k: nat, j: nat, t: Tid, c: Cid)
    requires IsRun(tr, es) && k < j && Undisturbed(tr, es, k, j, t) && tr[k].gate.At(c.side).stopped
    requires Posts(tr[k], es[k], c) && Holds(tr[k], t, c.n) && t.side == c.side
    ensures WaitsOn(tr[j], t, c)
    ensures tr[j].ctx[c].slot == Abort <==>
              exists p :: k <= p < j && Posts(tr[p], es[p], c) && forall q | p < q < j :: !Deposits(tr[q], es[q], c)
    ensures forall q | k < q < j && Deposits(tr[q], es[q], c) ::
              RxFor(tr[k], c) && tr[q].rx.At(c.side) == tr[k].rx.At(c.side)
    ensures !RxFor(tr[k], c) ==> tr[j].ctx[c].slot == Abort
  {
    hide Next, Init, Inv, Posts;
    PostWaits(tr, es, k, c, t);
    WaiterRun(tr, es, k + 1, j, t, c);
    PoolFixed(tr, es, j);
    AbortIff(tr, es, j, c);
    forall q | k < q < j ensures !Takes(tr[q], es[q], c) {
      WaiterRun(tr, es, k + 1, q, t, c);
      NotTaken(tr, es, q, t, c);
    }
    forall q | k < q < j && Deposits(tr[q], es[q], c)
      ensures RxFor(tr[k], c) && tr[q].rx.At(c.side) == tr[k].rx.At(c.side)
    {
      RxStays(tr, es, c.side, k, q);
    }
    if p: nat :| k <= p < j && Posts(tr[p], es[p], c) && forall q | p < q < j :: !Deposits(tr[q], es[q], c) {
      assert PostedAt(tr, es, p, j, c);
    }
    if p: nat :| PostedAt(tr, es, p, j, c) && p < k {
      assert PostedAt(tr, es, k, j, c);
    }
  }

  /** Only the thread that waits on c can take from it. */
  lemma NotTaken(tr: seq<State>, es: seq<Step>, q: nat, t: Tid, c: Cid)
    requires IsRun(tr, es) && q < |es| && WaitsOn(tr[q], t, c) && es[q] != Take(t)
    ensures !Takes(tr[q], es[q], c)
  {
    InvRun(tr, es, q);
    assert ThreadOk(tr[q], t);
    if es[q].Take? && es[q].t in tr[q].thr { assert ThreadOk(tr[q], es[q].t); }
  }

  // ------------------------------------------------ when the abort is certain

  predicate Extends(tr': seq<State>, es': seq<Step>, tr: seq<State>, es: seq<Step>) {
    |tr| <= |tr'| && |es| <= |es'| && tr'[..|tr|] == tr && es'[..|es|] == es
  }

  /** Step r is the first take of thread t after step k, before any resume. */
  ghost predicate FirstTake(tr: seq<State>, es: seq<Step>, k: nat, r: nat, t: Tid) {
    k < r < |es| && Undisturbed(tr, es, k, r, t) && es[r] == Take(t)
  }

  /** However the run goes on, t finds the abort that step k posted. */
  ghost predicate Certain(tr: seq<State>, es: seq<Step>, k: nat, t: Tid, c: Cid) {
    forall tr': seq<State>, es': seq<Step>, r: nat |
      IsRun(tr', es') && Extends(tr', es', tr, es) && FirstTake(tr', es', k, r, t) ::
      c in tr'[r].ctx && tr'[r].ctx[c].slot == Abort && Leaves(tr'[r], es'[r])
  }

  lemma AbortSeen(tr: seq<State>, es: seq<Step>, k: nat, r: nat, t: Tid, c: Cid)
    requires IsRun(tr, es) && FirstTake(tr, es, k, r, t) && tr[k].gate.At(c.side).stopped && !RxFor(tr[k], c)
    requires Posts(tr[k], es[k], c) && Holds(tr[k], t, c.n) && t.side == c.side
    ensures c in tr[r].ctx && tr[r].ctx[c].slot == Abort && Leaves(tr[r], es[r])
  {
    AbortKept(tr, es, k, r, t, c);
    assert Next(tr[r], es[r], tr[r + 1]);
  }

  /** Right after the visit the receive thread can overwrite the abort exactly when
      it holds a packet for c; t then wakes up to that packet. */
  lemma OverwriteAfter(s: State, t: Tid, c: Cid) returns (s': State, s'': State)
    requires Inv(s) && WaitsOn(s, t, c) && RxFor(s, c)
    ensures Next(s, Route(c.side), s') && c in s'.ctx && s'.ctx[c].slot != Abort && Next(s', Take(t), s'')
  {
    s' := ApplyRoute(s, c.side);
    s'' := ApplyTake(s', t);
    assert ThreadOk(s, t);
    StackUses(s.thr[t].stack);
  }

  lemma ExtendRun(tr: seq<State>, es: seq<Step>, e: Step, s: State)
    requires IsRun(tr, es) && Next(tr[|es|], e, s)
    ensures IsRun(tr + [s], es + [e])
  {
    hide Next, Init;
    var tr', es' := tr + [s], es + [e];
    forall i | 0 <= i < |es'| ensures Next(tr'[i], es'[i], tr'[i + 1]) {
      assert i < |es| ==> Next(tr[i], es[i], tr[i + 1]);
    }
  }

  /** A run whose last step is the visit of the sweep to a waiting thread, with the
      flag still set. The thread is sure to find the abort exactly when the
      receive thread holds no packet for its context. */
  lemma AbortCertainIff(tr: seq<State>, es: seq<Step>, t: Tid, c: Cid)
    requires IsRun(tr, es) && |es| > 0 && Posts(tr[|es| - 1], es[|es| - 1], c)
    requires Holds(tr[|es| - 1], t, c.n) && t.side == c.side && tr[|es| - 1].gate.At(c.side).stopped
    ensures Certain(tr, es, |es| - 1, t, c) <==> !RxFor(tr[|es| - 1], c)
  {
    hide Next, Init, Inv, Posts, Leaves, WaitsOn, RxFor;
    var k := |es| - 1;
    if !RxFor(tr[k], c) {
      forall tr': seq<State>, es': seq<Step>, r: nat |
        IsRun(tr', es') && Extends(tr', es', tr, es) && FirstTake(tr', es', k, r, t)
        ensures c in tr'[r].ctx && tr'[r].ctx[c].slot == Abort && Leaves(tr'[r], es'[r])
      {
        assert tr'[k] == tr'[..|tr|][k] && es'[k] == es'[..|es|][k];
        AbortSeen(tr', es', k, r, t, c);
      }
    } else {
      LosingRun(tr, es, t, c);
    }
  }

  /** Two more steps of a run. */
  lemma ExtendTwice(tr: seq<State>, es: seq<Step>, e: Step, s: State, f: Step, s': State)
    requires IsRun(tr, es) && Next(tr[|es|], e, s) && Next(s, f, s')
    ensures IsRun(tr + [s] + [s'], es + [e] + [f]) && Extends(tr + [s] + [s'], es + [e] + [f], tr, es)
  {
    hide Next, Init;
    ExtendRun(tr, es, e, s);
    ExtendRun(tr + [s], es + [e], f, s');
  }

  lemma OverwriteAtEnd(tr: seq<State>, es: seq<Step>, t: Tid, c: Cid)
    requires IsRun(tr, es) && |es| > 0 && Posts(tr[|es| - 1], es[|es| - 1], c)
    requires Holds(tr[|es| - 1], t, c.n) && t.side == c.side && RxFor(tr[|es| - 1], c)
    ensures RxFor(tr[|es|], c) && WaitsOn(tr[|es|], t, c) && Inv(tr[|es|])
  {
    hide Next, Init, Inv, Posts, WaitsOn, Holds;
    PostWaits(tr, es, |es| - 1, c, t);
    InvRun(tr, es, |es|);
  }

  lemma LosingRun(tr: seq<State>, es: seq<Step>, t: Tid, c: Cid)
    requires IsRun(tr, es) && |es| > 0 && Posts(tr[|es| - 1], es[|es| - 1], c)
    requires Holds(tr[|es| - 1], t, c.n) && t.side == c.side && RxFor(tr[|es| - 1], c)
    ensures !Certain(tr, es, |es| - 1, t, c)
  {
    var k := |es| - 1;
    assert es[k] != Take(t) && es[k] != Resume(t.side);
    hide Next, Init, Inv, Leaves, WaitsOn, Posts, RxFor, Holds;
    OverwriteAtEnd(tr, es, t, c);
    var s, s' := OverwriteAfter(tr[k + 1], t, c);
    hide IsRun;
    ExtendTwice(tr, es, Route(c.side), s, Take(t), s');
    var tr', es' := tr + [s] + [s'], es + [Route(c.side)] + [Take(t)];
    assert tr'[k + 2] == s;
    assert FirstTake(tr', es', k, k + 2, t);
  }

  // ------------------------------------------------ a whole stop

  /** From the step that sets the flag the receive thread has what it had then. */
  lemma RxSinceStop(tr: seq<State>, es: seq<Step>, i: nat, j: nat, c: Cid)
    requires IsRun(tr, es) && i < j < |tr| && es[i] == StopBegin(c.side)
    requires forall q | i < q < j :: es[q] != Resume(c.side)
    ensures tr[j].gate.At(c.side).stopped
    ensures RxFor(tr[j], c) ==> RxFor(tr[i], c) && tr[j].rx.At(c.side) == tr[i].rx.At(c.side)
  {
    assert Next(tr[i], es[i], tr[i + 1]);
    GateStep(tr[i], es[i], tr[i + 1], c.side);
    RxStays(tr, es, c.side, i + 1, j);
  }

  /** Thread t has returned from all its calls somewhere between states i and k. */
  ghost predicate Returned(tr: seq<State>, i: nat, k: nat, t: Tid) {
    exists r :: i <= r <= k < |tr| && t in tr[r].thr && tr[r].thr[t].stack.Nil?
  }

  /** Step k visits c; if t has not returned by then, its next take finds the abort
      and ends its innermost wait. */
  ghost predicate AbortedBy(tr: seq<State>, es: seq<Step>, i: nat, k: nat, t: Tid, c: Cid) {
    && VisitAt(tr, es, k, c)
    && (Returned(tr, i, k, t) ||
        forall r: nat | FirstTake(tr, es, k, r, t) ::
          c in tr[r].ctx && tr[r].ctx[c].slot == Abort && Leaves(tr[r], es[r]))
  }

  /** Thread t is inside a call on context c when a stop sets the flag (step i);
      stop returns at step j and the side is not resumed in between. If the receive
      thread held no packet for c at that time, then t returns from all its calls
      before the sweep visits c, or the innermost wait of t is aborted. */
  lemma StopAbortsWait(tr: seq<State>, es: seq<Step>, i: nat, j: nat, t: Tid, c: Cid)
    requires Stopping(tr, es, c.side, i, j) && j < |es| && es[j] == StopEnd(c.side)
    requires forall q | i < q < j :: es[q] != Resume(c.side)
    requires t.side == c.side && Holds(tr[i], t, c.n) && !RxFor(tr[i], c)
    ensures exists k :: i < k < j && AbortedBy(tr, es, i, k, t, c)
  {
    hide Next, Init, Inv, InWait, RxFor, Holds, AbortedBy;
    StopAbortsPending(tr, es, c.side, i, j, t, c);
    var k: nat :| && i < k < j && VisitAt(tr, es, k, c)
                  && (|| (InWait(tr[k], t) && c in tr[k + 1].ctx && tr[k + 1].ctx[c].slot == Abort)
                      || exists r :: i <= r <= k && t in tr[r].thr && tr[r].thr[t].stack.Nil?);
    VisitAbortedBy(tr, es, i, k, t, c);
  }

  lemma VisitAbortedBy(tr: seq<State>, es: seq<Step>, i: nat, k: nat, t: Tid, c: Cid)
    requires IsRun(tr, es) && i < k && VisitAt(tr, es, k, c) && es[i] == StopBegin(c.side)
    requires forall q | i < q < k :: es[q] != Resume(c.side)
    requires t.side == c.side && Holds(tr[i], t, c.n) && !RxFor(tr[i], c)
    ensures AbortedBy(tr, es, i, k, t, c)
  {
    hide Next, Init, Inv, Leaves, Posts, RxFor;
    if !Returned(tr, i, k, t) {
      HeldSince(tr, es, i, k, t, c);
      RxSinceStop(tr, es, i, k, c);
      VisitPosts(tr, es, k, t, c);
      forall r: nat | FirstTake(tr, es, k, r, t)
        ensures c in tr[r].ctx && tr[r].ctx[c].slot == Abort && Leaves(tr[r], es[r])
      {
        AbortSeen(tr, es, k, r, t, c);
      }
    }
  }

  lemma HeldSince(tr: seq<State>, es: seq<Step>, i: nat, k: nat, t: Tid, c: Cid)
    requires IsRun(tr, es) && i <= k < |tr| && t.side == c.side && Holds(tr[i], t, c.n) && !Returned(tr, i, k, t)
    ensures Holds(tr[k], t, c.n)
  {
    hide Next, Init;
    ThreadsFixed(tr, es, i, k);
    forall r | i <= r <= k ensures t in tr[r].thr && tr[r].thr[t].stack.Push? { ThreadsFixed(tr, es, i, r); }
    assert Busy(tr, i, k, t);
    TlsKept(tr, es, i, k, t);
    PoolFixed(tr, es, i);
    PoolFixed(tr, es, k);
  }

  lemma VisitPosts(tr: seq<State>, es: seq<Step>, k: nat, t: Tid, c: Cid)
    requires IsRun(tr, es) && VisitAt(tr, es, k, c) && Holds(tr[k], t, c.n) && t.side == c.side
    ensures Posts(tr[k], es[k], c)
  {
    InvRun(tr, es, k);
    assert ThreadOk(tr[k], t);
    StackUses(tr[k].thr[t].stack);
  }

  // ------------------------------------------------ aborts in free contexts

  /** Free, and left with a count. */
  predicate Leftover(s: State, c: Cid) {
    c in s.ctx && s.ctx[c].owner.None? && s.ctx[c].uses > 0
  }

  /** The pool thread that served a command on c gives c back. */
  predicate Serves(s: State, e: Step, c: Cid) {
    e.Finish? && e.t.side == c.side && Holds(s, e.t, c.n) && InSrv(s, e.t) && s.thr[e.t].stack.top.alloc
  }

  /** A thread without a context gets c. */
  predicate Reserves(s: State, e: Step, c: Cid) {
    (e.Admit? || e.Dispatch?) && e.t.side == c.side && e.n == c.n && e.t in s.thr && s.thr[e.t].tls.None?
  }

  /** A thread that leaves nrf_rpc_cmd_common for good leaves a count of zero. */
  lemma LeftoverLeave(s: State, t: Tid, x: Ctx, c: Cid)
    requires Inv(s) && InCmd(s, t) && c in s.ctx
    requires x == s.ctx[Own(s, t)].(slot := x.slot, locked := x.locked)
    ensures Leftover(LeaveCmd(s, t, x), c) <==> Leftover(s, c)
  {
    assert ThreadOk(s, t) && CtxOk(s, c);
  }

  lemma LeftoverOwn(s: State, e: Step, s': State, c: Cid)
    requires Inv(s) && Next(s, e, s') && c in s.ctx && (e.Send? || e.Respond? || e.Finish? || e.Admit? || e.Dispatch?)
    ensures Leftover(s', c) <==> Serves(s, e, c) || (Leftover(s, c) && !Reserves(s, e, c))
  {
    assert ThreadOk(s, e.t) && CtxOk(s, c);
    StackUses(Push(Nil, SrvFrame(true, false)));
  }

  lemma LeftoverTake(s: State, t: Tid, c: Cid)
    requires Inv(s) && CanTake(s, t) && c in s.ctx
    ensures Leftover(ApplyTake(s, t), c) <==> Leftover(s, c)
  {
    hide LeaveCmd;
    assert ThreadOk(s, t) && CtxOk(s, c);
    LeftoverLeave(s, t, s.ctx[Own(s, t)].(slot := Empty, locked := true), c);
  }

  lemma LeftoverStep(s: State, e: Step, s': State, c: Cid)
    requires Inv(s) && Next(s, e, s') && c in s.ctx
    ensures Leftover(s', c) <==> Serves(s, e, c) || (Leftover(s, c) && !Reserves(s, e, c))
  {
    hide Inv, LeaveCmd, ApplyTake;
    match e
    case SendFail(t) => LeftoverLeave(s, t, s.ctx[Own(s, t)], c);
    case Timeout(t) => LeftoverLeave(s, t, s.ctx[Own(s, t)].(locked := true), c);
    case Take(t) => LeftoverTake(s, t, c);
    case Send(_) => LeftoverOwn(s, e, s', c);
    case Respond(_, _) => LeftoverOwn(s, e, s', c);
    case Finish(_) => LeftoverOwn(s, e, s', c);
    case Admit(_, _, _, _) => LeftoverOwn(s, e, s', c);
    case Dispatch(_, _, _) => LeftoverOwn(s, e, s', c);
    case _ =>
  }

  /** Step f ended the serving of a command on c, and c was not reserved again up to
      state k. */
  ghost predicate ServedLast(tr: seq<State>, es: seq<Step>, f: nat, k: nat, c: Cid) {
    && f < k < |tr| == |es| + 1 && Serves(tr[f], es[f], c)
    && forall q | f < q < k :: !Reserves(tr[q], es[q], c)
  }

  /** In all runs a free context has a count left exactly when it last served a
      command of the peer. */
  lemma {:induction false} LeftoverIff(tr: seq<State>, es: seq<Step>, k: nat, c: Cid)
    requires IsRun(tr, es) && k < |tr| && c in tr[0].ctx
    ensures Leftover(tr[k], c) <==> exists f :: ServedLast(tr, es, f, k, c)
  {
    hide Next, Serves, Reserves, Leftover, Inv;
    if k == 0 {
      LeftoverInit(tr[0], c);
    } else {
      var i := k - 1;
      LeftoverIff(tr, es, i, c);
      assert Next(tr[i], es[i], tr[k]);
      InvRun(tr, es, i);
      PoolFixed(tr, es, i);
      LeftoverStep(tr[i], es[i], tr[k], c);
      if f: nat :| ServedLast(tr, es, f, i, c) && !Reserves(tr[i], es[i], c) { assert ServedLast(tr, es, f, k, c); }
      if Serves(tr[i], es[i], c) { assert ServedLast(tr, es, i, k, c); }
      if f: nat :| ServedLast(tr, es, f, k, c) && f < i { assert ServedLast(tr, es, f, i, c); }
    }
  }

  lemma LeftoverInit(s: State, c: Cid)
    requires Init(s) && c in s.ctx
    ensures !Leftover(s, c)
  {
  }

  /** A context that was held when the abort was posted is still held while the
      abort is in it. */
  lemma HeldPost(tr: seq<State>, es: seq<Step>, k: nat, j: nat, c: Cid)
    requires IsRun(tr, es) && PostedAt(tr, es, k, j, c) && c in tr[j].ctx && tr[j].ctx[c].owner.None?
    ensures tr[k].ctx[c].owner.None?
  {
    hide Next, Init;
    InvRun(tr, es, k);
    assert CtxOk(tr[k], c);
    if tr[k].ctx[c].owner.Some? {
      var t := tr[k].ctx[c].owner.value;
      PostWaits(tr, es, k, c, t);
      HeldOn(tr, es, k, j, t, c);
    }
  }

  lemma {:induction false} HeldOn(tr: seq<State>, es: seq<Step>, k: nat, j: nat, t: Tid, c: Cid)
    requires IsRun(tr, es) && PostedAt(tr, es, k, j, c) && WaitsOn(tr[k + 1], t, c)
    ensures WaitsOn(tr[j], t, c) && tr[j].ctx[c].owner == Some(t)
  {
    hide Next, Init, Deposits, Posts;
    if j > k + 1 {
      HeldOn(tr, es, k, j - 1, t, c);
      InvRun(tr, es, j - 1);
      assert Next(tr[j - 1], es[j - 1], tr[j]);
      assert !Takes(tr[j - 1], es[j - 1], c);
      WaiterStep(tr[j - 1], es[j - 1], tr[j], t, c);
    }
    InvRun(tr, es, j);
    assert ThreadOk(tr[j], t);
  }

  /** How an abort comes to lie in a free context: c served a command of the peer
      (step f), was not reserved until a sweep visited it (step k), and nothing was
      deposited or taken since. */
  ghost predicate StaleFrom(tr: seq<State>, es: seq<Step>, f: nat, k: nat, j: nat, c: Cid) {
    ServedLast(tr, es, f, k, c) && VisitAt(tr, es, k, c) && PostedAt(tr, es, k, j, c)
  }

  /** In all runs a free context holds an abort exactly when this is its history. */
  lemma StaleAbortIff(tr: seq<State>, es: seq<Step>, j: nat, c: Cid)
    requires IsRun(tr, es) && j < |tr| && c in tr[j].ctx && tr[j].ctx[c].owner.None?
    ensures tr[j].ctx[c].slot == Abort <==> exists f, k :: StaleFrom(tr, es, f, k, j, c)
  {
    hide Next, Init, ServedLast;
    PoolFixed(tr, es, j);
    AbortIff(tr, es, j, c);
    if k: nat :| PostedAt(tr, es, k, j, c) {
      HeldPost(tr, es, k, j, c);
      LeftoverIff(tr, es, k, c);
      var f: nat :| ServedLast(tr, es, f, k, c);
      assert StaleFrom(tr, es, f, k, j, c);
    }
  }

  /** A reservation by itself does not clear a stale abort: neither serving another
      command on c nor a failed send on c does. */
  lemma StaleSurvives(s: State, t: Tid, m: Msg, sink: Sink, arg: nat, c: Cid)
    requires c in s.ctx && s.ctx[c].slot == Abort && t.side == c.side
    ensures CanDispatch(s, t, m, c.n) ==>
              var a := ApplyDispatch(s, t, m, c.n);
              InSrv(a, t) && FreeCtx(ApplyFinish(a, t), c) && ApplyFinish(a, t).ctx[c].slot == Abort
    ensures Idle(s, t) && CanAdmit(s, t, c.n) ==>
              var a := ApplyAdmit(s, t, sink, arg, c.n);
              CanSend(a, t) && var b := LeaveCmd(a, t, a.ctx[Own(a, t)]); FreeCtx(b, c) && b.ctx[c].slot == Abort
  {
  }

  // ------------------------------------------------ which commands are aborted

  /** Thread t is inside nrf_rpc_cmd_common on context n of its side. */
  predicate Calling(s: State, t: Tid, n: nat) {
    t in s.thr && s.thr[t].tls == Some(n) && s.thr[t].pc != Running
  }

  lemma CallingStep(s: State, e: Step, s': State, t: Tid, n: nat)
    requires Next(s, e, s') && Calling(s, t, n) && e != Take(t) && e != Timeout(t) && e != SendFail(t)
    ensures Calling(s', t, n)
  {
  }

  /** Step j admits a command of t; up to step r the wait has not ended. */
  ghost predicate FirstWait(tr: seq<State>, es: seq<Step>, j: nat, r: nat, t: Tid, n: nat) {
    && IsRun(tr, es) && j < r < |tr| && es[j].Admit? && es[j].t == t && es[j].n == n
    && forall q | j < q < r :: es[q] != Take(t) && es[q] != Timeout(t) && es[q] != SendFail(t)
  }

  lemma {:induction false} CallingRun(tr: seq<State>, es: seq<Step>, j: nat, r: nat, t: Tid, n: nat)
    requires FirstWait(tr, es, j, r, t, n)
    ensures Calling(tr[r], t, n)
  {
    hide Init;
    assert Next(tr[j], es[j], tr[j + 1]);
    if r > j + 1 {
      hide Next, Calling;
      CallingRun(tr, es, j, r - 1, t, n);
      assert Next(tr[r - 1], es[r - 1], tr[r]);
      CallingStep(tr[r - 1], es[r - 1], tr[r], t, n);
    }
  }

  /** Between admission and its first wake-up only t itself could empty its mailbox. */
  lemma NobodyTakes(tr: seq<State>, es: seq<Step>, j: nat, q: nat, t: Tid, n: nat)
    requires FirstWait(tr, es, j, q, t, n) && q < |es| && es[q] != Take(t)
    ensures !Takes(tr[q], es[q], Cid(t.side, n))
  {
    CallingRun(tr, es, j, q, t, n);
    InvRun(tr, es, q);
    hide Next, Init;
    assert ThreadOk(tr[q], t);
    if es[q].Take? && es[q].t in tr[q].thr { assert ThreadOk(tr[q], es[q].t); }
  }

  ghost predicate NoDeposit(tr: seq<State>, es: seq<Step>, j: nat, r: nat, c: Cid)
    requires r < |tr| == |es| + 1
  {
    forall q | j < q < r :: !Deposits(tr[q], es[q], c)
  }

  /** A sweep after step j posted to c, and no packet came since. */
  ghost predicate SweptSince(tr: seq<State>, es: seq<Step>, j: nat, r: nat, c: Cid) {
    exists k :: j < k < r < |tr| == |es| + 1 && Posts(tr[k], es[k], c) && NoDeposit(tr, es, k, r, c)
  }

  /** The first wake-up of an admitted command finds an abort exactly when its
      context held one already or a sweep came by while it waited, and no packet
      has come since. */
  lemma CommandAbortedIff(tr: seq<State>, es: seq<Step>, j: nat, r: nat, t: Tid, c: Cid)
    requires FirstWait(tr, es, j, r, t, c.n) && r < |es| && es[r] == Take(t) && c.side == t.side
    ensures c in tr[j].ctx && c in tr[r].ctx
    ensures tr[r].ctx[c].slot == Abort <==>
              (tr[j].ctx[c].slot == Abort && NoDeposit(tr, es, j, r, c)) || SweptSince(tr, es, j, r, c)
  {
    AdmitQuiet(tr, es, j, r, t, c);
    PoolFixed(tr, es, j);
    hide Next, Init, Posts, Deposits, Takes, PostedAt, SweptSince;
    AbortIff(tr, es, j, c);
    AbortIff(tr, es, r, c);
    forall q | j < q < r ensures !Takes(tr[q], es[q], c) { NobodyTakes(tr, es, j, q, t, c.n); }
    PostedSplit(tr, es, j, r, c);
  }

  /** An abort is older than step j or came since. */
  lemma PostedSplit(tr: seq<State>, es: seq<Step>, j: nat, r: nat, c: Cid)
    requires j < r < |tr| == |es| + 1 && !Posts(tr[j], es[j], c) && !Deposits(tr[j], es[j], c)
    requires forall q | j <= q < r :: !Takes(tr[q], es[q], c)
    ensures (exists k :: PostedAt(tr, es, k, r, c)) <==>
              ((exists k :: PostedAt(tr, es, k, j, c)) && NoDeposit(tr, es, j, r, c)) || SweptSince(tr, es, j, r, c)
  {
    hide Posts, Deposits, Takes;
    if k: nat :| PostedAt(tr, es, k, r, c) && k < j { assert PostedAt(tr, es, k, j, c); }
    if k: nat :| PostedAt(tr, es, k, j, c) && NoDeposit(tr, es, j, r, c) { assert PostedAt(tr, es, k, r, c); }
    if SweptSince(tr, es, j, r, c) {
      var k: nat :| j < k < r && Posts(tr[k], es[k], c) && NoDeposit(tr, es, k, r, c);
      assert PostedAt(tr, es, k, r, c);
    }
  }

  lemma AdmitQuiet(tr: seq<State>, es: seq<Step>, j: nat, r: nat, t: Tid, c: Cid)
    requires FirstWait(tr, es, j, r, t, c.n) && c.side == t.side
    ensures c in tr[j].ctx && !Posts(tr[j], es[j], c) && !Deposits(tr[j], es[j], c) && !Takes(tr[j], es[j], c)
  {
    assert Next(tr[j], es[j], tr[j + 1]);
  }

  /** A command from a thread without a context, with no sweep while it waits, comes
      back as timed out without an answer exactly when it got a stale context: one
      that served a command of the peer, was swept before it was reserved again,
      and has received nothing since. */
  lemma FreshCommandFailsIff(tr: seq<State>, es: seq<Step>, j: nat, r: nat, t: Tid, c: Cid)
    requires FirstWait(tr, es, j, r, t, c.n) && r < |es| && es[r] == Take(t) && c.side == t.side
    requires t in tr[j].thr && tr[j].thr[t].tls.None?
    requires forall q | j < q < r :: !Posts(tr[q], es[q], c)
    ensures c in tr[r].ctx
    ensures tr[r].ctx[c].slot == Abort <==>
              (exists f, k :: StaleFrom(tr, es, f, k, j, c)) && NoDeposit(tr, es, j, r, c)
  {
    assert Next(tr[j], es[j], tr[j + 1]);
    hide Init, Posts, Deposits, StaleFrom;
    CommandAbortedIff(tr, es, j, r, t, c);
    StaleAbortIff(tr, es, j, c);
  }
}
