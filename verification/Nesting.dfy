/** Callbacks nest as deep as the uint8 counters allow: from every idle state with a
    thread and a context on each side there is, for every such depth, a polite run
    that reaches it and ends idle, with the answers returned innermost first. */
module Nesting {
  import opened Common
  import opened Contexts
  import opened CallStacks
  import opened Engine
  import opened Refinement

  /** A thread and the context it uses. */
  datatype Party = Party(t: Tid, n: nat)

  /** Where the packet on its way is. */
  datatype Flight = Nowhere | OnWire(m: Msg) | AtRx(m: Msg) | InQueue(m: Msg)

  predicate Apart(x: Party, y: Party) {
    x.t.side != y.t.side && x.n < 128 && y.n < 128
  }

  predicate Has(s: State, x: Party, cx: Ctx, tx: Thread) {
    x.t in s.thr && s.thr[x.t] == tx && Cid(x.t.side, x.n) in s.ctx && s.ctx[Cid(x.t.side, x.n)] == cx
  }

  predicate Flies(s: State, f: Flight, next: nat) {
    && s.net == (if f.OnWire? then {f.m} else {}) && s.pool == (if f.InQueue? then {f.m} else {})
    && s.rx == (if f.AtRx? then PerSide(None, None).With(f.m.to, Some(f.m)) else PerSide(None, None))
    && s.gate == PerSide(Gate(false, None), Gate(false, None)) && s.next == next
  }

  function Held(x: Party, locked: bool, remote: nat, uses: nat, slot: Slot): Ctx {
    Ctx(Some(x.t), locked, remote, uses, None, slot)
  }

  function In(x: Party, st: Stack, pc: Pc): Thread { Thread(Some(x.n), st, pc, false) }

  function Calling(st: Stack): Stack { Push(st, CmdFrame(ToCaller, None)) }
  function Serving(st: Stack): Stack { Push(st, SrvFrame(false, false)) }

  predicate Goes(s: State, e: Step, s': State) {
    Next(s, e, s') && Polite(s, e)
  }

  // ------------------------------------------------ one level down and up

  /** Party x runs a decoder on stack sx with use count ux, party y waits inside a call
      on stack sy with use count uy and remote id ry. */
  datatype Level = Level(x: Party, sx: Stack, ux: nat, y: Party, sy: Stack, uy: nat, ry: nat)

  predicate Shaped(v: Level) {
    && Apart(v.x, v.y) && 1 <= v.ux && 1 <= v.uy
    && v.sx.Push? && v.sx.top.SrvFrame? && !v.sx.top.responded && v.sy.Push? && v.sy.top.CmdFrame?
  }

  predicate LevelOk(v: Level) {
    Shaped(v) && v.ux < 255
  }

  predicate Runs(s: State, v: Level, next: nat) {
    && Has(s, v.x, Held(v.x, true, v.y.n, v.ux, Empty), In(v.x, v.sx, Running))
    && Has(s, v.y, Held(v.y, false, v.ry, v.uy, Empty), In(v.y, v.sy, Waiting))
    && Flies(s, Nowhere, next)
  }

  /** The callback runs: the parties have exchanged their roles. */
  function Deeper(v: Level): Level {
    Level(v.y, Serving(v.sy), v.uy, v.x, Calling(v.sx), v.ux + 1, v.y.n)
  }

  function Request(v: Level, arg: nat, id: nat): Msg { Msg(id, v.y.t.side, Cmd, v.x.n, v.y.n, arg) }
  function Reply(v: Level, val: nat, id: nat): Msg { Msg(id, v.x.t.side, Rsp, ID_UNKNOWN, v.x.n, val) }

  lemma CallSends(s: State, v: Level, arg: nat, next: nat) returns (s1: State, s2: State)
    requires LevelOk(v) && Runs(s, v, next)
    ensures Goes(s, Admit(v.x.t, ToCaller, arg, v.x.n), s1) && Goes(s1, Send(v.x.t), s2)
    ensures Has(s2, v.x, Held(v.x, false, v.y.n, v.ux + 1, Empty), In(v.x, Calling(v.sx), Waiting))
    ensures Has(s2, v.y, Held(v.y, false, v.ry, v.uy, Empty), In(v.y, v.sy, Waiting))
    ensures Flies(s2, OnWire(Request(v, arg, next)), next + 1)
  {
    s1 := Apply(s, Admit(v.x.t, ToCaller, arg, v.x.n));
    s2 := Apply(s1, Send(v.x.t));
  }

  /** A packet travels to the mailbox of a party that waits. */
  lemma Travels(s: State, m: Msg, x: Party, cx: Ctx, tx: Thread, y: Party, cy: Ctx, ty: Thread, next: nat)
    returns (s1: State, s2: State)
    requires Apart(x, y) && Has(s, x, cx, tx) && Has(s, y, cy, ty) && Flies(s, OnWire(m), next)
    requires Addressed(m) && m.to == y.t.side && m.dst == y.n && !cy.locked && cy.uses > 0 && cy.handler == None
    ensures Goes(s, Arrive(m), s1) && Goes(s1, Route(m.to), s2)
    ensures Has(s2, x, cx, tx) && Has(s2, y, cy.(slot := Packet(m)), ty) && Flies(s2, Nowhere, next)
  {
    s1 := Apply(s, Arrive(m));
    s2 := Apply(s1, Route(m.to));
  }

  lemma CallTaken(s: State, v: Level, arg: nat, next: nat) returns (s': State)
    requires LevelOk(v)
    requires Has(s, v.x, Held(v.x, false, v.y.n, v.ux + 1, Empty), In(v.x, Calling(v.sx), Waiting))
    requires Has(s, v.y, Held(v.y, false, v.ry, v.uy, Packet(Request(v, arg, next))), In(v.y, v.sy, Waiting))
    requires Flies(s, Nowhere, next + 1)
    ensures Goes(s, Take(v.y.t), s') && Runs(s', Deeper(v), next + 1)
  {
    s' := Apply(s, Take(v.y.t));
  }

  lemma ReplySent(s: State, v: Level, val: nat, next: nat) returns (s1: State, s2: State)
    requires LevelOk(v) && Runs(s, Deeper(v), next)
    ensures Goes(s, Respond(v.y.t, val), s1) && Goes(s1, Finish(v.y.t), s2)
    ensures Has(s2, v.y, Held(v.y, false, v.x.n, v.uy, Empty), In(v.y, v.sy, Waiting))
    ensures Has(s2, v.x, Held(v.x, false, v.y.n, v.ux + 1, Empty), In(v.x, Calling(v.sx), Waiting))
    ensures Flies(s2, OnWire(Reply(v, val, next)), next + 1)
  {
    s1 := Apply(s, Respond(v.y.t, val));
    s2 := Apply(s1, Finish(v.y.t));
  }

  lemma ReplyTaken(s: State, v: Level, val: nat, next: nat) returns (s': State)
    requires LevelOk(v)
    requires Has(s, v.y, Held(v.y, false, v.x.n, v.uy, Empty), In(v.y, v.sy, Waiting))
    requires Has(s, v.x, Held(v.x, false, v.y.n, v.ux + 1, Packet(Reply(v, val, next))), In(v.x, Calling(v.sx), Waiting))
    requires Flies(s, Nowhere, next + 1)
    ensures Goes(s, Take(v.x.t), s') && Runs(s', v.(ry := v.x.n), next + 1)
    ensures Obs(s, Take(v.x.t)) == ReturnTo(v.x.t, ToCaller, val)
  {
    s' := Apply(s, Take(v.x.t));
  }

  // ------------------------------------------------ runs

  /** A polite run and its last state. */
  datatype Trip = Trip(tr: seq<State>, es: seq<Step>)

  ghost predicate TripOk(r: Trip) {
    |r.tr| == |r.es| + 1 && PoliteRun(r.tr, r.es)
  }

  predicate Continues(r: Trip, r': Trip) {
    |r.tr| <= |r'.tr| && |r.es| <= |r'.es| && r'.tr[..|r.tr|] == r.tr && r'.es[..|r.es|] == r.es
  }

  function Last(r: Trip): State
    requires |r.tr| == |r.es| + 1
  {
    r.tr[|r.es|]
  }

  lemma Go(r: Trip, e: Step, s: State) returns (r': Trip)
    requires TripOk(r) && Goes(Last(r), e, s)
    ensures r' == Trip(r.tr + [s], r.es + [e]) && TripOk(r') && Last(r') == s && Continues(r, r')
  {
    hide Enabled, Apply, Polite, Init, Fits;
    r' := Trip(r.tr + [s], r.es + [e]);
    forall i | 0 <= i < |r'.es| ensures Goes(r'.tr[i], r'.es[i], r'.tr[i + 1]) {
      assert i < |r.es| ==> Goes(r.tr[i], r.es[i], r.tr[i + 1]);
    }
  }

  /** Five steps at once: `ss` are the states after them. */
  ghost predicate Leg(s: State, es: seq<Step>, ss: seq<State>) {
    && |es| == |ss| == 5 && Goes(s, es[0], ss[0]) && Goes(ss[0], es[1], ss[1]) && Goes(ss[1], es[2], ss[2])
    && Goes(ss[2], es[3], ss[3]) && Goes(ss[3], es[4], ss[4])
  }

  lemma GoLeg(r: Trip, es: seq<Step>, ss: seq<State>) returns (r': Trip)
    requires TripOk(r) && Leg(Last(r), es, ss)
    ensures r' == Trip(r.tr + ss, r.es + es) && TripOk(r') && Last(r') == ss[4] && Continues(r, r')
  {
    hide Goes, PoliteRun;
    r' := Go(r, es[0], ss[0]);
    r' := Go(r', es[1], ss[1]);
    r' := Go(r', es[2], ss[2]);
    r' := Go(r', es[3], ss[3]);
    r' := Go(r', es[4], ss[4]);
    assert r'.tr == r.tr + ss && r'.es == r.es + es;
  }

  lemma DownLeg(s: State, v: Level, arg: nat, next: nat) returns (es: seq<Step>, ss: seq<State>)
    requires LevelOk(v) && Runs(s, v, next)
    ensures Leg(s, es, ss) && Runs(ss[4], Deeper(v), next + 1) && es[0] == Admit(v.x.t, ToCaller, arg, v.x.n)
  {
    hide Goes, Has, Flies;
    var m := Request(v, arg, next);
    var s1, s2 := CallSends(s, v, arg, next);
    var s3, s4 := Travels(s2, m, v.x, Held(v.x, false, v.y.n, v.ux + 1, Empty), In(v.x, Calling(v.sx), Waiting),
                          v.y, Held(v.y, false, v.ry, v.uy, Empty), In(v.y, v.sy, Waiting), next + 1);
    var s5 := CallTaken(s4, v, arg, next);
    es := [Admit(v.x.t, ToCaller, arg, v.x.n), Send(v.x.t), Arrive(m), Route(m.to), Take(v.y.t)];
    ss := [s1, s2, s3, s4, s5];
  }

  lemma UpLeg(s: State, v: Level, val: nat, next: nat) returns (es: seq<Step>, ss: seq<State>)
    requires LevelOk(v) && Runs(s, Deeper(v), next)
    ensures Leg(s, es, ss) && Runs(ss[4], v.(ry := v.x.n), next + 1)
    ensures es[4] == Take(v.x.t) && Enabled(ss[3], es[4]) && Obs(ss[3], es[4]) == ReturnTo(v.x.t, ToCaller, val)
  {
    hide Has, Flies, Obs, Apply;
    var m := Reply(v, val, next);
    var s1, s2 := ReplySent(s, v, val, next);
    var s3, s4 := Travels(s2, m, v.y, Held(v.y, false, v.x.n, v.uy, Empty), In(v.y, v.sy, Waiting),
                          v.x, Held(v.x, false, v.y.n, v.ux + 1, Empty), In(v.x, Calling(v.sx), Waiting), next + 1);
    var s5 := ReplyTaken(s4, v, val, next);
    es := [Respond(v.y.t, val), Finish(v.y.t), Arrive(m), Route(m.to), Take(v.x.t)];
    ss := [s1, s2, s3, s4, s5];
  }

  // ------------------------------------------------ any depth

  /** The commands a thread has open. */
  function OpenCalls(st: Stack): nat {
    match st
    case Nil => 0
    case Push(b, CmdFrame(_, _)) => OpenCalls(b) + 1
    case Push(b, SrvFrame(_, _)) => OpenCalls(b)
  }

  /** Both parties are inside calls; together they have k of them open. */
  predicate OpenAt(s: State, x: Party, y: Party, k: nat) {
    x.t in s.thr && y.t in s.thr && OpenCalls(s.thr[x.t].stack) + OpenCalls(s.thr[y.t].stack) == k
  }

  /** The thread that makes the k-th of the calls that x starts. */
  function CallerOf(x: Party, y: Party, k: nat): Tid { if k % 2 == 1 then x.t else y.t }

  /** Step i is the return of the call with answer `val` to thread t. */
  ghost predicate ReturnAt(r: Trip, i: nat, t: Tid, val: nat) {
    i < |r.es| < |r.tr| && Enabled(r.tr[i], r.es[i]) && Obs(r.tr[i], r.es[i]) == ReturnTo(t, ToCaller, val)
  }

  ghost predicate CallAt(r: Trip, i: nat, t: Tid, arg: nat) {
    i < |r.es| < |r.tr| && Enabled(r.tr[i], r.es[i]) && Obs(r.tr[i], r.es[i]) == CallBy(t, ToCaller, arg)
  }

  lemma Kept(r: Trip, r': Trip, i: nat)
    requires Continues(r, r') && i < |r.es| < |r.tr| && |r'.es| < |r'.tr|
    ensures r'.tr[i] == r.tr[i] && r'.es[i] == r.es[i]
  {
    assert r'.tr[..|r.tr|][i] == r'.tr[i] && r'.es[..|r.es|][i] == r'.es[i];
  }

  /** What `left` more levels from level `v` do to a run of length `len`. */
  ghost predicate Nested(r: Trip, len: nat, v: Level, d: nat, left: nat) {
    && |r.es| == len + 10 * left && |r.tr| == |r.es| + 1
    && OpenAt(r.tr[len + 5 * left], v.x, v.y, OpenCalls(v.sx) + OpenCalls(v.sy) + left)
    && (forall k | 1 <= k <= left :: CallAt(r, len + 5 * (k - 1), CallerOf(v.x, v.y, k), d + k))
    && (forall k | 1 <= k <= left :: ReturnAt(r, len + 5 * left + 5 * (left - k) + 4, CallerOf(v.x, v.y, k), d + k))
  }

  /** Level w is what level v becomes by one more call. */
  predicate Inside(v: Level, w: Level) {
    w.x == v.y && w.y == v.x && OpenCalls(w.sx) + OpenCalls(w.sy) == OpenCalls(v.sx) + OpenCalls(v.sy) + 1
  }

  lemma JoinCalls(r1: Trip, r2: Trip, r3: Trip, v: Level, w: Level, d: nat, left: nat, len: nat, k: nat)
    requires left >= 1 && |r1.es| == len + 5 && |r1.tr| == |r1.es| + 1 && |r3.tr| == |r3.es| + 1
    requires Continues(r1, r2) && Continues(r2, r3) && Nested(r2, |r1.es|, w, d + 1, left - 1) && Inside(v, w)
    requires 1 <= k <= left && CallAt(r1, len, v.x.t, d + 1)
    ensures CallAt(r3, len + 5 * (k - 1), CallerOf(v.x, v.y, k), d + k)
  {
    hide Obs, Enabled, OpenAt, OpenCalls;
    var i := len + 5 * (k - 1);
    if k == 1 {
      Kept(r1, r2, i);
    } else {
      assert CallAt(r2, |r1.es| + 5 * (k - 1 - 1), CallerOf(v.y, v.x, k - 1), d + 1 + (k - 1));
      assert i == |r1.es| + 5 * (k - 1 - 1);
    }
    Kept(r2, r3, i);
  }

  lemma JoinReturns(r1: Trip, r2: Trip, r3: Trip, v: Level, w: Level, d: nat, left: nat, len: nat, k: nat)
    requires left >= 1 && |r1.es| == len + 5 && |r3.tr| == |r3.es| + 1
    requires Continues(r2, r3) && Nested(r2, |r1.es|, w, d + 1, left - 1) && Inside(v, w)
    requires 1 <= k <= left && ReturnAt(r3, |r2.es| + 4, v.x.t, d + 1)
    ensures ReturnAt(r3, len + 5 * left + 5 * (left - k) + 4, CallerOf(v.x, v.y, k), d + k)
  {
    hide Obs, Enabled, OpenAt, OpenCalls;
    var i := len + 5 * left + 5 * (left - k) + 4;
    if k == 1 {
      assert i == |r2.es| + 4;
    } else {
      var j := k - 1;
      assert ReturnAt(r2, |r1.es| + 5 * (left - 1) + 5 * (left - 1 - j) + 4, CallerOf(v.y, v.x, j), d + 1 + j);
      assert i == |r1.es| + 5 * (left - 1) + 5 * (left - 1 - j) + 4;
      Kept(r2, r3, i);
    }
  }

  /** One more level around those that are there. */
  lemma NestJoin(r: Trip, r1: Trip, r2: Trip, r3: Trip, v: Level, w: Level, d: nat, left: nat)
    requires left >= 1 && |r.tr| == |r.es| + 1 && |r1.es| == |r.es| + 5 && |r1.tr| == |r1.es| + 1
    requires Continues(r1, r2) && Continues(r2, r3) && Nested(r2, |r1.es|, w, d + 1, left - 1) && Inside(v, w)
    requires |r3.es| == |r2.es| + 5 && |r3.tr| == |r3.es| + 1
    requires CallAt(r1, |r.es|, v.x.t, d + 1) && ReturnAt(r3, |r2.es| + 4, v.x.t, d + 1)
    ensures Nested(r3, |r.es|, v, d, left)
  {
    var len := |r.es|;
    MidOpen(r1, r2, r3, v, len, left);
    hide CallAt, ReturnAt, Continues, OpenAt;
    forall k | 1 <= k <= left ensures CallAt(r3, len + 5 * (k - 1), CallerOf(v.x, v.y, k), d + k) {
      JoinCalls(r1, r2, r3, v, w, d, left, len, k);
    }
    forall k | 1 <= k <= left
      ensures ReturnAt(r3, len + 5 * left + 5 * (left - k) + 4, CallerOf(v.x, v.y, k), d + k)
    {
      JoinReturns(r1, r2, r3, v, w, d, left, len, k);
    }
  }

  lemma MidOpen(r1: Trip, r2: Trip, r3: Trip, v: Level, len: nat, left: nat)
    requires left >= 1 && |r1.es| == len + 5 && |r2.es| == |r1.es| + 10 * (left - 1) && |r2.tr| == |r2.es| + 1
    requires Continues(r2, r3) && |r3.tr| > |r2.tr|
    requires OpenAt(r2.tr[|r1.es| + 5 * (left - 1)], v.y, v.x, OpenCalls(v.sx) + OpenCalls(v.sy) + left)
    ensures OpenAt(r3.tr[len + 5 * left], v.x, v.y, OpenCalls(v.sx) + OpenCalls(v.sy) + left)
  {
    assert r3.tr[..|r2.tr|][len + 5 * left] == r3.tr[len + 5 * left];
  }

  lemma Descend(r: Trip, v: Level, arg: nat, next: nat) returns (r1: Trip)
    requires TripOk(r) && LevelOk(v) && Runs(Last(r), v, next)
    ensures TripOk(r1) && Continues(r, r1) && |r1.es| == |r.es| + 5 && Runs(Last(r1), Deeper(v), next + 1)
    ensures CallAt(r1, |r.es|, v.x.t, arg)
  {
    hide Runs, Goes, PoliteRun, Obs, Enabled;
    var es, ss := DownLeg(Last(r), v, arg, next);
    r1 := GoLeg(r, es, ss);
    FirstCall(r, r1, es, ss, v, arg);
  }

  lemma Ascend(r: Trip, v: Level, val: nat, next: nat) returns (r1: Trip)
    requires TripOk(r) && LevelOk(v) && Runs(Last(r), Deeper(v), next)
    ensures TripOk(r1) && Continues(r, r1) && |r1.es| == |r.es| + 5 && Runs(Last(r1), v.(ry := v.x.n), next + 1)
    ensures ReturnAt(r1, |r.es| + 4, v.x.t, val)
  {
    hide Runs, Goes, PoliteRun, Obs, Enabled;
    var es, ss := UpLeg(Last(r), v, val, next);
    r1 := GoLeg(r, es, ss);
    LastReturn(r, r1, es, ss, v, val);
  }

  lemma ContinuesOn(r: Trip, r1: Trip, r2: Trip)
    requires Continues(r, r1) && Continues(r1, r2)
    ensures Continues(r, r2)
  {
    assert r2.tr[..|r.tr|] == r2.tr[..|r1.tr|][..|r.tr|];
    assert r2.es[..|r.es|] == r2.es[..|r1.es|][..|r.es|];
  }

  lemma DeeperOk(v: Level, left: nat)
    requires Shaped(v) && left >= 1 && v.ux + (left + 1) / 2 <= 255 && v.uy + left / 2 <= 255
    ensures LevelOk(v) && Shaped(Deeper(v))
    ensures Deeper(v).ux + (left - 1 + 1) / 2 <= 255 && Deeper(v).uy + (left - 1) / 2 <= 255
    ensures Deeper(v).(ry := Deeper(v).x.n) == Deeper(v) && Inside(v, Deeper(v))
  {
  }

  lemma NestNone(r: Trip, v: Level, d: nat, next: nat)
    requires TripOk(r) && Runs(Last(r), v, next)
    ensures Continues(r, r) && Nested(r, |r.es|, v, d, 0)
  {
  }

  /** From a run that ends with x in a decoder: `left` more nested calls and back. */
  lemma {:induction false} Nest(r: Trip, v: Level, d: nat, left: nat, next: nat) returns (r': Trip, next': nat)
    requires TripOk(r) && Shaped(v) && Runs(Last(r), v, next)
    requires v.ux + (left + 1) / 2 <= 255 && v.uy + left / 2 <= 255
    ensures TripOk(r') && Continues(r, r') && Nested(r', |r.es|, v, d, left)
    ensures Runs(Last(r'), if left == 0 then v else v.(ry := v.x.n), next')
    decreases left
  {
    hide Runs, PoliteRun, Nested, Continues, CallAt, ReturnAt, Shaped, Deeper, LevelOk, Inside;
    if left == 0 {
      r', next' := r, next;
      NestNone(r, v, d, next);
    } else {
      DeeperOk(v, left);
      var r1 := Descend(r, v, d + 1, next);
      var r2, k := Nest(r1, Deeper(v), d + 1, left - 1, next + 1);
      r' := Ascend(r2, v, d + 1, k);
      next' := k + 1;
      NestJoin(r, r1, r2, r', v, Deeper(v), d, left);
      ContinuesOn(r, r1, r2);
      ContinuesOn(r, r2, r');
    }
  }

  lemma NestedLength(r: Trip, len: nat, v: Level, d: nat, left: nat)
    requires Nested(r, len, v, d, left)
    ensures |r.es| == len + 10 * left && |r.tr| == |r.es| + 1
  {
  }

  lemma FirstCall(r: Trip, r1: Trip, es: seq<Step>, ss: seq<State>, v: Level, arg: nat)
    requires |r.tr| == |r.es| + 1 && Leg(Last(r), es, ss) && r1 == Trip(r.tr + ss, r.es + es)
    requires es[0] == Admit(v.x.t, ToCaller, arg, v.x.n)
    ensures CallAt(r1, |r.es|, v.x.t, arg)
  {
    hide Polite, Apply;
    assert Goes(Last(r), es[0], ss[0]);
    hide Enabled;
  }

  lemma LastReturn(r: Trip, r': Trip, es: seq<Step>, ss: seq<State>, v: Level, val: nat)
    requires |r.tr| == |r.es| + 1 && |es| == |ss| == 5 && r' == Trip(r.tr + ss, r.es + es)
    requires Enabled(ss[3], es[4]) && Obs(ss[3], es[4]) == ReturnTo(v.x.t, ToCaller, val)
    ensures ReturnAt(r', |r.es| + 4, v.x.t, val)
  {
    hide Enabled, Obs;
  }

  // ------------------------------------------------ the first call

  const IDLE := Thread(None, Nil, Running, false)

  /** Thread x idle, its context free. */
  predicate AtRest(s: State, x: Party) {
    && x.t in s.thr && s.thr[x.t] == IDLE
    && Cid(x.t.side, x.n) in s.ctx && FreeCtx(s, Cid(x.t.side, x.n)) && s.ctx[Cid(x.t.side, x.n)].slot == Empty
  }

  /** The state in which q serves the first call of p. */
  function First(p: Party, q: Party, ry: nat): Level {
    Level(q, Push(Nil, SrvFrame(true, false)), 1, p, Calling(Nil), 1, ry)
  }

  function Opening(p: Party, q: Party, arg: nat, id: nat): Msg { Msg(id, q.t.side, Cmd, p.n, ID_UNKNOWN, arg) }
  function Closing(p: Party, val: nat, id: nat): Msg { Msg(id, p.t.side, Rsp, ID_UNKNOWN, p.n, val) }

  lemma OpenSends(s: State, p: Party, q: Party, arg: nat, next: nat) returns (s1: State, s2: State)
    requires Apart(p, q) && AtRest(s, p) && AtRest(s, q) && Flies(s, Nowhere, next)
    ensures Goes(s, Admit(p.t, ToCaller, arg, p.n), s1) && Goes(s1, Send(p.t), s2)
    ensures Has(s2, p, Held(p, false, ID_UNKNOWN, 1, Empty), In(p, Calling(Nil), Waiting)) && AtRest(s2, q)
    ensures Flies(s2, OnWire(Opening(p, q, arg, next)), next + 1)
  {
    s1 := Apply(s, Admit(p.t, ToCaller, arg, p.n));
    s2 := Apply(s1, Send(p.t));
  }

  lemma OpenQueues(s: State, p: Party, q: Party, m: Msg, cp: Ctx, tp: Thread, next: nat) returns (s1: State, s2: State)
    requires Apart(p, q) && Has(s, p, cp, tp) && AtRest(s, q) && Flies(s, OnWire(m), next)
    requires m.to == q.t.side && m.kind == Cmd && m.dst == ID_UNKNOWN
    ensures Goes(s, Arrive(m), s1) && Goes(s1, Route(m.to), s2)
    ensures Has(s2, p, cp, tp) && AtRest(s2, q) && Flies(s2, InQueue(m), next)
  {
    s1 := Apply(s, Arrive(m));
    s2 := Apply(s1, Route(m.to));
  }

  lemma OpenServed(s: State, p: Party, q: Party, arg: nat, next: nat) returns (s': State)
    requires Apart(p, q) && AtRest(s, q) && Flies(s, InQueue(Opening(p, q, arg, next)), next + 1)
    requires Has(s, p, Held(p, false, ID_UNKNOWN, 1, Empty), In(p, Calling(Nil), Waiting))
    ensures Goes(s, Dispatch(q.t, Opening(p, q, arg, next), q.n), s') && Runs(s', First(p, q, ID_UNKNOWN), next + 1)
  {
    s' := Apply(s, Dispatch(q.t, Opening(p, q, arg, next), q.n));
  }

  lemma CloseSent(s: State, p: Party, q: Party, ry: nat, val: nat, next: nat) returns (s1: State, s2: State)
    requires Apart(p, q) && Runs(s, First(p, q, ry), next)
    ensures Goes(s, Respond(q.t, val), s1) && Goes(s1, Finish(q.t), s2)
    ensures Has(s2, p, Held(p, false, ry, 1, Empty), In(p, Calling(Nil), Waiting)) && AtRest(s2, q)
    ensures Has(s2, q, Ctx(None, false, p.n, 1, None, Empty), IDLE)
    ensures Flies(s2, OnWire(Closing(p, val, next)), next + 1)
  {
    s1 := Apply(s, Respond(q.t, val));
    s2 := Apply(s1, Finish(q.t));
  }

  lemma CloseTaken(s: State, p: Party, q: Party, ry: nat, val: nat, next: nat) returns (s': State)
    requires Apart(p, q) && AtRest(s, q) && Flies(s, Nowhere, next + 1)
    requires Has(s, p, Held(p, false, ry, 1, Packet(Closing(p, val, next))), In(p, Calling(Nil), Waiting))
    ensures Goes(s, Take(p.t), s') && AtRest(s', p) && AtRest(s', q) && Flies(s', Nowhere, next + 1)
    ensures Obs(s, Take(p.t)) == ReturnTo(p.t, ToCaller, val)
  {
    s' := Apply(s, Take(p.t));
  }

  lemma OpenLeg(s: State, p: Party, q: Party, arg: nat, next: nat) returns (es: seq<Step>, ss: seq<State>)
    requires Apart(p, q) && AtRest(s, p) && AtRest(s, q) && Flies(s, Nowhere, next)
    ensures Leg(s, es, ss) && Runs(ss[4], First(p, q, ID_UNKNOWN), next + 1) && es[0] == Admit(p.t, ToCaller, arg, p.n)
  {
    hide Goes, Has, Flies, AtRest, Runs;
    var m := Opening(p, q, arg, next);
    var s1, s2 := OpenSends(s, p, q, arg, next);
    var s3, s4 := OpenQueues(s2, p, q, m, Held(p, false, ID_UNKNOWN, 1, Empty), In(p, Calling(Nil), Waiting), next + 1);
    var s5 := OpenServed(s4, p, q, arg, next);
    es := [Admit(p.t, ToCaller, arg, p.n), Send(p.t), Arrive(m), Route(m.to), Dispatch(q.t, m, q.n)];
    ss := [s1, s2, s3, s4, s5];
  }

  lemma CloseLeg(s: State, p: Party, q: Party, ry: nat, val: nat, next: nat) returns (es: seq<Step>, ss: seq<State>)
    requires Apart(p, q) && Runs(s, First(p, q, ry), next)
    ensures Leg(s, es, ss) && AtRest(ss[4], p) && AtRest(ss[4], q) && Flies(ss[4], Nowhere, next + 1)
    ensures Enabled(ss[3], es[4]) && Obs(ss[3], es[4]) == ReturnTo(p.t, ToCaller, val)
  {
    hide Has, Flies, Obs, Apply, Runs, AtRest;
    var m := Closing(p, val, next);
    var s1, s2 := CloseSent(s, p, q, ry, val, next);
    var free := Ctx(None, false, p.n, 1, None, Empty);
    var s3, s4 := Travels(s2, m, q, free, IDLE, p, Held(p, false, ry, 1, Empty), In(p, Calling(Nil), Waiting), next + 1);
    RestOf(s4, q, p.n);
    var s5 := CloseTaken(s4, p, q, ry, val, next);
    es := [Respond(q.t, val), Finish(q.t), Arrive(m), Route(m.to), Take(p.t)];
    ss := [s1, s2, s3, s4, s5];
  }

  lemma RestOf(s: State, q: Party, remote: nat)
    requires Has(s, q, Ctx(None, false, remote, 1, None, Empty), IDLE)
    ensures AtRest(s, q)
  {
  }

  /** From every idle state, between any two threads on different sides and with any
      free context for each: n nested calls, n as large as the uint8 counters allow,
      the k-th made with argument k and answered with k. After 5n steps all n are
      open; the answers return innermost first, each to the thread that made the
      call; in the end both threads are idle, their contexts free and nothing is
      under way. */
  lemma DeepCallbacks(s: State, p: Party, q: Party, n: nat) returns (r: Trip)
    requires Init(s) && p.t in s.thr && q.t in s.thr && p.t.side != q.t.side
    requires Cid(p.t.side, p.n) in s.ctx && Cid(q.t.side, q.n) in s.ctx && n >= 1 && 1 + n / 2 <= 255
    ensures PoliteRun(r.tr, r.es) && |r.es| == 10 * n && |r.tr| == 10 * n + 1 && r.tr[0] == s
    ensures OpenAt(r.tr[5 * n], p, q, n)
    ensures forall k | 1 <= k <= n :: CallAt(r, 5 * (k - 1), CallerOf(p, q, k), k)
    ensures forall k | 1 <= k <= n :: ReturnAt(r, 5 * n + 5 * (n - k) + 4, CallerOf(p, q, k), k)
    ensures AtRest(r.tr[10 * n], p) && AtRest(r.tr[10 * n], q)
    ensures r.tr[10 * n].net == {} && r.tr[10 * n].pool == {} && r.tr[10 * n].rx == PerSide(None, None)
  {
    hide PoliteRun, CallAt, ReturnAt, AtRest, Init;
    var v := Level(p, Nil, 0, q, Nil, 0, 0);
    r := Whole(s, p, q, n);
    Finished(Trip([s], []), r, v, n);
  }

  lemma Begin(s: State, p: Party, q: Party) returns (r: Trip)
    requires Init(s) && Apart(p, q) && AtRest(s, p) && AtRest(s, q) && Flies(s, Nowhere, s.next)
    ensures TripOk(r) && Continues(Trip([s], []), r) && |r.es| == 5 && CallAt(r, 0, p.t, 1)
    ensures Runs(Last(r), First(p, q, ID_UNKNOWN), s.next + 1)
  {
    var r0 := Trip([s], []);
    assert TripOk(r0) && Last(r0) == s;
    hide Init, Goes, PoliteRun, Runs, AtRest, Leg, CallAt, Flies;
    var es, ss := OpenLeg(s, p, q, 1, s.next);
    r := GoFirst(r0, es, ss, p);
  }

  lemma End(r: Trip, p: Party, q: Party, ry: nat, next: nat) returns (r': Trip)
    requires TripOk(r) && Apart(p, q) && Runs(Last(r), First(p, q, ry), next)
    ensures TripOk(r') && Continues(r, r') && |r'.es| == |r.es| + 5 && ReturnAt(r', |r.es| + 4, p.t, 1)
    ensures AtRest(Last(r'), p) && AtRest(Last(r'), q) && Flies(Last(r'), Nowhere, next + 1)
  {
    hide Goes, PoliteRun, Runs, AtRest, Leg, ReturnAt, Flies, Obs, Enabled;
    var es, ss := CloseLeg(Last(r), p, q, ry, 1, next);
    r' := GoLast(r, es, ss, p);
  }

  lemma Whole(s: State, p: Party, q: Party, n: nat) returns (r: Trip)
    requires Init(s) && p.t in s.thr && q.t in s.thr && p.t.side != q.t.side
    requires Cid(p.t.side, p.n) in s.ctx && Cid(q.t.side, q.n) in s.ctx && n >= 1 && 1 + n / 2 <= 255
    ensures TripOk(r) && Continues(Trip([s], []), r) && Nested(r, 0, Level(p, Nil, 0, q, Nil, 0, 0), 0, n)
    ensures AtRest(Last(r), p) && AtRest(Last(r), q) && exists next :: Flies(Last(r), Nowhere, next)
  {
    hide PoliteRun, Runs, AtRest, CallAt, ReturnAt, Flies, Continues, Nested, Inside, Init, Apart, Shaped, First;
    var w := First(p, q, ID_UNKNOWN);
    Resting(s, p, q);
    FirstOk(p, q, n);
    var r1 := Begin(s, p, q);
    var r2, k := Nest(r1, w, 1, n - 1, s.next + 1);
    r := End(r2, p, q, if n == 1 then ID_UNKNOWN else q.n, k);
    NestJoin(Trip([s], []), r1, r2, r, Level(p, Nil, 0, q, Nil, 0, 0), w, 0, n);
    ContinuesOn(Trip([s], []), r1, r2);
    ContinuesOn(Trip([s], []), r2, r);
  }

  lemma Resting(s: State, p: Party, q: Party)
    requires Init(s) && p.t in s.thr && q.t in s.thr && p.t.side != q.t.side
    requires Cid(p.t.side, p.n) in s.ctx && Cid(q.t.side, q.n) in s.ctx
    ensures Apart(p, q) && AtRest(s, p) && AtRest(s, q) && Flies(s, Nowhere, s.next)
  {
  }

  lemma FirstOk(p: Party, q: Party, n: nat)
    requires Apart(p, q) && n >= 1 && 1 + n / 2 <= 255
    ensures var w := First(p, q, ID_UNKNOWN);
            && Shaped(w) && Inside(Level(p, Nil, 0, q, Nil, 0, 0), w)
            && w.ux + (n - 1 + 1) / 2 <= 255 && w.uy + (n - 1) / 2 <= 255
            && w.(ry := w.x.n) == First(p, q, q.n)
  {
    assert OpenCalls(Nil) == 0;
  }

  lemma GoFirst(r: Trip, es: seq<Step>, ss: seq<State>, p: Party) returns (r1: Trip)
    requires TripOk(r) && Leg(Last(r), es, ss) && es[0] == Admit(p.t, ToCaller, 1, p.n)
    ensures TripOk(r1) && Continues(r, r1) && |r1.es| == |r.es| + 5 && Last(r1) == ss[4]
    ensures CallAt(r1, |r.es|, p.t, 1)
  {
    hide Goes, PoliteRun, Obs, Enabled;
    r1 := GoLeg(r, es, ss);
    FirstCall(r, r1, es, ss, Level(p, Nil, 0, p, Nil, 0, 0), 1);
  }

  lemma GoLast(r: Trip, es: seq<Step>, ss: seq<State>, p: Party) returns (r1: Trip)
    requires TripOk(r) && Leg(Last(r), es, ss)
    requires Enabled(ss[3], es[4]) && Obs(ss[3], es[4]) == ReturnTo(p.t, ToCaller, 1)
    ensures TripOk(r1) && Continues(r, r1) && |r1.es| == |r.es| + 5 && Last(r1) == ss[4]
    ensures ReturnAt(r1, |r.es| + 4, p.t, 1)
  {
    hide Goes, PoliteRun, Obs, Enabled;
    r1 := GoLeg(r, es, ss);
    LastReturn(r, r1, es, ss, Level(p, Nil, 0, p, Nil, 0, 0), 1);
  }

  lemma Finished(r0: Trip, r: Trip, v: Level, n: nat)
    requires |r0.es| == 0 && |r0.tr| == 1 && Continues(r0, r) && Nested(r, 0, v, 0, n) && v.sx == Nil && v.sy == Nil
    ensures r.tr[0] == r0.tr[0] && |r.es| == 10 * n && |r.tr| == 10 * n + 1
    ensures OpenAt(r.tr[5 * n], v.x, v.y, n)
    ensures forall k | 1 <= k <= n :: CallAt(r, 5 * (k - 1), CallerOf(v.x, v.y, k), k)
    ensures forall k | 1 <= k <= n :: ReturnAt(r, 5 * n + 5 * (n - k) + 4, CallerOf(v.x, v.y, k), k)
  {
    hide CallAt, ReturnAt;
    assert r.tr[..1][0] == r.tr[0];
    assert OpenCalls(Nil) == 0;
    forall k | 1 <= k <= n ensures CallAt(r, 5 * (k - 1), CallerOf(v.x, v.y, k), k) {
      assert CallAt(r, 0 + 5 * (k - 1), CallerOf(v.x, v.y, k), 0 + k);
    }
    forall k | 1 <= k <= n ensures ReturnAt(r, 5 * n + 5 * (n - k) + 4, CallerOf(v.x, v.y, k), k) {
      assert ReturnAt(r, 0 + 5 * n + 5 * (n - k) + 4, CallerOf(v.x, v.y, k), 0 + k);
    }
  }
}
