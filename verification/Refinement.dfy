/** Message passing refines the nested call stack: every run of the engine
    without timeouts, failed sends and stop, and with decoders that respond
    exactly once as their last RPC action, is a run of CallStacks. */
module Refinement {
  import opened Common
  import opened Contexts
  import opened Engine
  import opened CallStacks

  /** Where the one packet of a conversation is. */
  datatype Token =
    | NoToken
    | Unsent
    | InNet(m: Msg)
    | InRx(m: Msg)
    | InPool(m: Msg)
    | InSlot(m: Msg)
    | InHandled

  /** A conversation with everything the engine spreads over two sides: the
      context `c` of the thread that opened it, the serving thread with its
      context `d`, the stack of calls, the token, and whether either thread is
      still on its way out of a decoder that has responded. */
  datatype Talk = Talk(c: nat, server: Option<Tid>, d: nat, calls: Calls, tok: Token, ptail: bool, qtail: bool)

  type Talks = map<Tid, Talk>

  function View(g: Talks): Stacks {
    map p | p in g :: Conv(g[p].server, g[p].calls)
  }

  // ------------------------------------------- what a conversation predicts

  /** The frames that the calls put on the stack of the initiator (`init`) or of
      the server. */
  function Frames(k: Calls, init: bool): Stack {
    match k
    case Bottom => Nil
    case Above(b, c) =>
      if c.byInitiator == init then Push(Frames(b, init), CmdFrame(c.sink, Shown(Frames(b, init))))
      else if c.phase.Executing? then Push(Frames(b, init), SrvFrame(b.Bottom?, false))
      else Frames(b, init)
  }

  function Tail(v: Talk, init: bool): bool {
    if init then v.ptail else v.qtail
  }

  function StackOf(v: Talk, init: bool): Stack {
    if Tail(v, init) then Push(Frames(v.calls, init), SrvFrame(false, true)) else Frames(v.calls, init)
  }

  function PcBare(v: Talk, init: bool): Pc
    requires v.calls.Above?
  {
    var c := v.calls.top;
    if c.byInitiator == init then
      if v.tok.Unsent? && c.phase.Sent? then Sending(c.phase.arg) else Waiting
    else if c.phase.Executing? then Running
    else Waiting
  }

  function PcOf(v: Talk, init: bool): Pc
    requires v.calls.Above?
  {
    if Tail(v, init) then Running else PcBare(v, init)
  }

  /** The token travels to the callee as a command, to the caller as a response. */
  predicate TowardsInitiator(v: Talk)
    requires v.calls.Above?
  {
    if v.calls.top.phase.Sent? then !v.calls.top.byInitiator else v.calls.top.byInitiator
  }

  function SlotOf(v: Talk, init: bool): Slot
    requires v.calls.Above?
  {
    match v.tok
    case InSlot(m) => if TowardsInitiator(v) == init then Packet(m) else Empty
    case InHandled => if v.calls.top.byInitiator == init then Handled else Empty
    case _ => Empty
  }

  predicate CallsOk(k: Calls) {
    match k
    case Bottom => true
    case Above(b, c) =>
      && CallsOk(b)
      && (b.Bottom? ==> c.byInitiator)
      && (b.Above? ==> b.top.phase == Executing && c.byInitiator == !b.top.byInitiator)
  }

  /** The first callback of the conversation is being executed. */
  predicate CalledBack(k: Calls) {
    k.Above? && k.below.Above? && (if k.below.below.Bottom? then k.top.phase.Executing? else CalledBack(k.below))
  }

  function PartySide(p: Tid, init: bool): Side {
    if init then p.side else Other(p.side)
  }

  function PartyCtx(v: Talk, init: bool): nat {
    if init then v.c else v.d
  }

  /** The token is the packet of the innermost call. */
  predicate MsgOk(p: Tid, v: Talk, m: Msg)
    requires v.calls.Above?
  {
    var ini := v.calls.top.byInitiator;
    match v.calls.top.phase
    case Sent(arg) =>
      && m.kind == Cmd && m.data == arg
      && m.to == PartySide(p, !ini) && m.src == PartyCtx(v, ini)
      && m.dst == (if v.calls.below.Bottom? then ID_UNKNOWN else PartyCtx(v, !ini))
    case Answered(x) => m.kind == Rsp && m.data == x && m.to == PartySide(p, ini) && m.dst == PartyCtx(v, ini)
    case _ => false
  }

  predicate TokenOk(s: State, p: Tid, v: Talk)
    requires v.calls.Above?
  {
    var c := v.calls.top;
    match v.tok
    case NoToken => c.phase.Executing?
    case InHandled => c.phase.Accepted?
    case Unsent => c.phase.Sent?
    case InNet(m) => MsgOk(p, v, m)
    case InRx(m) => MsgOk(p, v, m)
    case InPool(m) => MsgOk(p, v, m) && c.phase.Sent? && v.calls.below.Bottom?
    case InSlot(m) =>
      && MsgOk(p, v, m)
      && (c.phase.Sent? ==> v.calls.below.Above?)
      && (c.phase.Answered? && c.sink.ToHandler? ==> !s.autoFree.At(m.to))
  }

  predicate Placed(s: State, tok: Token) {
    match tok
    case InNet(m) => m in s.net && m.id < s.next
    case InRx(m) => s.rx.At(m.to) == Some(m) && m.id < s.next
    case InPool(m) => m in s.pool && m.id < s.next
    case InSlot(m) => m.id < s.next
    case _ => true
  }

  predicate PartyOk(s: State, t: Tid, v: Talk, init: bool)
    requires v.calls.Above?
  {
    && Holds(s, t, PartyCtx(v, init))
    && s.thr[t].stack == StackOf(v, init)
    && s.thr[t].pc == PcOf(v, init)
    && s.ctx[Cid(t.side, PartyCtx(v, init))].slot == SlotOf(v, init)
    && (Tail(v, init) ==> PcBare(v, init) == Waiting)
  }

  predicate TalkOk(s: State, p: Tid, v: Talk) {
    && v.calls.Above? && CallsOk(v.calls)
    && TokenOk(s, p, v) && Placed(s, v.tok)
    && PartyOk(s, p, v, true)
    && (v.tok.Unsent? && v.calls.below.Bottom? ==> s.ctx[Cid(p.side, v.c)].remote == ID_UNKNOWN)
    && (CalledBack(v.calls) ==> s.ctx[Cid(p.side, v.c)].remote == v.d)
    && (v.server.None? <==> v.calls.below.Bottom? && !v.calls.top.phase.Executing?)
    && (v.server.None? ==> !v.qtail)
    && (v.server.Some? ==>
          && v.server.value.side == Other(p.side)
          && PartyOk(s, v.server.value, v, false)
          && s.ctx[Cid(Other(p.side), v.d)].remote == v.c)
  }

  // ------------------------------------------- the simulation relation

  predicate InTalk(g: Talks, p: Tid, t: Tid) {
    p in g && Party(p, g[p].server, t)
  }

  ghost predicate Talking(g: Talks, t: Tid) {
    exists p :: InTalk(g, p, t)
  }

  predicate Carries(g: Talks, p: Tid, tok: Token) {
    p in g && g[p].tok == tok
  }

  ghost predicate Carried(g: Talks, tok: Token) {
    exists p :: Carries(g, p, tok)
  }

  predicate HasMsg(tok: Token, m: Msg) {
    HasSome(tok) && tok.m == m
  }

  predicate Plain(m: Msg) {
    m.kind == Evt || m.kind == Ack
  }

  ghost predicate Apart(g: Talks) {
    && (forall p, q, t | InTalk(g, p, t) && InTalk(g, q, t) :: p == q)
    && (forall p, q, m | p in g && q in g && HasMsg(g[p].tok, m) && HasMsg(g[q].tok, m) :: p == q)
  }

  /** Whoever is in no conversation is idle or on the way out of the first decoder. */
  ghost predicate OthersQuiet(s: State, g: Talks) {
    && (forall t | t in s.thr && !Talking(g, t) ::
          s.thr[t].stack.Nil? || s.thr[t].stack == Push(Nil, SrvFrame(true, true)))
    && (forall c | c in s.ctx && (s.ctx[c].owner.Some? ==> !Talking(g, s.ctx[c].owner.value)) ::
          s.ctx[c].slot == Empty)
  }

  /** No packet of a conversation is anywhere but where its token says. */
  ghost predicate NoStray(s: State, g: Talks) {
    && (forall m | m in s.net :: Plain(m) || Carried(g, InNet(m)))
    && (forall m | m in s.pool :: m.kind == Evt || Carried(g, InPool(m)))
    && (forall side: Side | s.rx.At(side).Some? ::
          && s.rx.At(side).value.to == side
          && (Plain(s.rx.At(side).value) || Carried(g, InRx(s.rx.At(side).value))))
  }

  ghost predicate Rel(s: State, g: Talks) {
    && (forall p | p in g :: TalkOk(s, p, g[p]))
    && Apart(g) && OthersQuiet(s, g) && NoStray(s, g)
    && s.gate == PerSide(Gate(false, None), Gate(false, None))
  }

  // ------------------------------------------- polite steps and what they show

  /** A thread may call while it runs a decoder that has not responded, or
      outside of any decoder. */
  predicate MayCall(s: State, t: Tid) {
    t in s.thr && (s.thr[t].stack.Push? ==> s.thr[t].stack.top.SrvFrame? && !s.thr[t].stack.top.responded)
  }

  /** No timeout, no failed send, no stop; a decoder makes no RPC call after its
      response, responds once, and responds before it returns. */
  predicate Polite(s: State, e: Step)
    requires Enabled(s, e)
  {
    match e
    case Admit(t, _, _, _) => MayCall(s, t)
    case Respond(t, _) => !s.thr[t].stack.top.responded
    case Finish(t) => s.thr[t].stack.top.responded
    case _ => !(e.SendFail? || e.Timeout? || e.StopBegin? || e.Sweep? || e.StopEnd? || e.Resume?)
  }

  /** What wait_for_response does with a response packet. */
  function Delivery(s: State, t: Tid, m: Msg): Label
    requires InCmd(s, t)
  {
    var f := s.thr[t].stack.top;
    var x := s.ctx[Own(s, t)];
    if f.sink.ToCaller? then ReturnTo(t, ToCaller, m.data)
    else if !s.autoFree.At(t.side) && x.handler.Some? then ReturnTo(t, ToHandler(x.handler.value), m.data)
    else Internal
  }

  /** What a waiting thread does with what it finds in its mailbox. */
  function Wakeup(s: State, t: Tid): Label
    requires CanTake(s, t)
  {
    match s.ctx[Own(s, t)].slot
    case Packet(m) => if m.kind == Cmd then StartBy(t, m.data) else Delivery(s, t, m)
    case Handled => ResumeOf(t)
    case _ => Internal
  }

  /** In auto-free mode the receive thread runs the handler that the addressed
      context shows; otherwise it only moves the packet. */
  function Reception(s: State, side: Side): Label
    requires CanRoute(s, side)
  {
    var m := s.rx.At(side).value;
    var c := Cid(side, m.dst);
    if m.kind == Rsp && c in s.ctx && s.ctx[c].uses != 0 && s.ctx[c].handler.Some? && s.autoFree.At(side) &&
       s.ctx[c].owner.Some?
    then AcceptFor(s.ctx[c].owner.value, ToHandler(s.ctx[c].handler.value), m.data)
    else Internal
  }

  /** What an application can observe of a step. */
  function Obs(s: State, e: Step): Label
    requires Enabled(s, e)
  {
    match e
    case Admit(t, sink, arg, _) => CallBy(t, sink, arg)
    case Dispatch(t, m, _) => StartBy(t, m.data)
    case Respond(t, v) => AnswerBy(t, v)
    case Take(t) => Wakeup(s, t)
    case Route(side) => Reception(s, side)
    case _ => Internal
  }

  // ------------------------------------------- framing

  /** Conversations other than p's do not notice a step of one thread on its own
      context. */
  lemma OthersKeep(s: State, s': State, g: Talks, p: Tid, t: Tid, c: Cid)
    requires Inv(s) && Rel(s, g) && c in s.ctx && c.side == t.side
    requires s.ctx[c].owner.None? || s.ctx[c].owner == Some(t)
    requires forall u | u in s.thr && u != t :: u in s'.thr && s'.thr[u] == s.thr[u]
    requires forall x | x in s.ctx && x != c :: x in s'.ctx && s'.ctx[x] == s.ctx[x]
    requires s'.autoFree == s.autoFree
    requires forall q | q in g && q != p :: !InTalk(g, q, t) && Placed(s', g[q].tok)
    ensures forall q | q in g && q != p :: TalkOk(s', q, g[q])
  {
    forall q | q in g && q != p ensures TalkOk(s', q, g[q]) {
      assert TalkOk(s, q, g[q]);
      var v := g[q];
      assert InTalk(g, q, q);
      assert ThreadOk(s, q);
      if v.server.Some? {
        assert InTalk(g, q, v.server.value);
        assert ThreadOk(s, v.server.value);
      }
    }
  }

  function NetAfter(net: set<Msg>, before: Token, after: Token): set<Msg> {
    var rest := if before.InNet? then net - {before.m} else net;
    if after.InNet? then rest + {after.m} else rest
  }

  function PoolAfter(pool: set<Msg>, before: Token, after: Token): set<Msg> {
    var rest := if before.InPool? then pool - {before.m} else pool;
    if after.InPool? then rest + {after.m} else rest
  }

  predicate HasSome(tok: Token) {
    tok.InNet? || tok.InRx? || tok.InPool? || tok.InSlot?
  }

  /** The packets in transit are those of before, with the token moved. */
  predicate Moves(s: State, s': State, before: Token, after: Token) {
    if before == after then s'.net == s.net && s'.pool == s.pool && s'.rx == s.rx && s'.next == s.next else
    && s'.net == NetAfter(s.net, before, after)
    && s'.pool == PoolAfter(s.pool, before, after)
    && (if after.InRx? then !before.InRx? && s.rx.At(after.m.to).None? && s'.rx == s.rx.With(after.m.to, Some(after.m))
        else if before.InRx? then s'.rx == s.rx.With(before.m.to, None)
        else s'.rx == s.rx)
    && (HasSome(after) ==> HasMsg(before, after.m) || after.m.id >= s.next)
    && s'.next >= s.next
  }

  /** Only the conversation of p differs. */
  ghost predicate SameBut(g: Talks, g': Talks, p: Tid) {
    forall q | q != p :: (q in g' <==> q in g) && (q in g ==> g'[q] == g[q])
  }

  function TokenAt(g: Talks, p: Tid): Token {
    if p in g then g[p].tok else NoToken
  }

  lemma AllPlaced(s: State, g: Talks)
    requires forall p | p in g :: TalkOk(s, p, g[p])
    ensures forall q | q in g :: Placed(s, g[q].tok)
  {
    forall q | q in g ensures Placed(s, g[q].tok) { assert TalkOk(s, q, g[q]); }
  }

  lemma PlacedMove(s: State, s': State, g: Talks, p: Tid, after: Token)
    requires Apart(g) && (forall q | q in g :: Placed(s, g[q].tok)) && Moves(s, s', TokenAt(g, p), after)
    ensures forall q | q in g && q != p :: Placed(s', g[q].tok)
    ensures forall q | q in g && q != p :: HasSome(after) ==> !HasMsg(g[q].tok, after.m)
  {
    forall q | q in g && q != p
      ensures Placed(s', g[q].tok) && (HasSome(after) ==> !HasMsg(g[q].tok, after.m))
    {
      var k := g[q].tok;
      if HasSome(k) {
        assert HasMsg(k, k.m);
        assert p in g ==> !HasMsg(g[p].tok, k.m);
      }
    }
  }

  lemma StrayMove(s: State, s': State, g: Talks, g': Talks, p: Tid)
    requires NoStray(s, g) && SameBut(g, g', p) && Moves(s, s', TokenAt(g, p), TokenAt(g', p))
    ensures NoStray(s', g')
  {
    forall k | Carried(g, k) && k != TokenAt(g, p) ensures Carried(g', k) {
      var q :| Carries(g, q, k);
      assert Carries(g', q, k);
    }
    assert p in g' ==> Carries(g', p, g'[p].tok);
    forall side: Side | s'.rx.At(side).Some?
      ensures s'.rx.At(side).value.to == side
      ensures Plain(s'.rx.At(side).value) || Carried(g', InRx(s'.rx.At(side).value))
    {
      assert TokenAt(g', p).InRx? ==> side == TokenAt(g', p).m.to || side == Other(TokenAt(g', p).m.to);
      assert TokenAt(g, p).InRx? ==> side == TokenAt(g, p).m.to || side == Other(TokenAt(g, p).m.to);
    }
  }

  lemma ApartMove(g: Talks, g': Talks, p: Tid, t: Tid)
    requires Apart(g) && SameBut(g, g', p)
    requires forall q | q in g && q != p :: !InTalk(g, q, t)
    requires forall u | u != t && InTalk(g', p, u) :: InTalk(g, p, u)
    requires forall q | q in g && q != p :: HasSome(TokenAt(g', p)) ==> !HasMsg(g[q].tok, TokenAt(g', p).m)
    ensures Apart(g')
  {
    forall q, r, u | InTalk(g', q, u) && InTalk(g', r, u) ensures q == r {
      assert q != p ==> InTalk(g, q, u);
      assert r != p ==> InTalk(g, r, u);
    }
    forall q, r, m | q in g' && r in g' && HasMsg(g'[q].tok, m) && HasMsg(g'[r].tok, m) ensures q == r {
      assert q != p ==> q in g;
      assert r != p ==> r in g;
    }
  }

  lemma QuietMove(s: State, s': State, g: Talks, g': Talks, p: Tid, t: Tid, c: Cid)
    requires Inv(s) && OthersQuiet(s, g) && SameBut(g, g', p) && Patched(s, s', t, c)
    requires forall u | u != t :: InTalk(g', p, u) <==> InTalk(g, p, u)
    requires Settled(s', g', p, t, c)
    ensures OthersQuiet(s', g')
  {
    forall u | Talking(g, u) && u != t ensures Talking(g', u) {
      var q :| InTalk(g, q, u);
      assert InTalk(g', q, u);
    }
    assert InTalk(g', p, t) ==> Talking(g', t);
    forall x | x in s'.ctx && (s'.ctx[x].owner.Some? ==> !Talking(g', s'.ctx[x].owner.value))
      ensures s'.ctx[x].slot == Empty
    {
      if x != c {
        assert CtxOk(s, x);
      }
    }
  }

  /** One thread and one context of its side may differ: the context that the
      thread has, or a free one if it has none. */
  predicate Patched(s: State, s': State, t: Tid, c: Cid) {
    && t in s.thr && c in s.ctx && c.side == t.side
    && (s.thr[t].tls == Some(c.n) || (s.thr[t].tls.None? && s.ctx[c].owner.None?))
    && t in s'.thr && s'.thr == s.thr[t := s'.thr[t]]
    && c in s'.ctx && s'.ctx == s.ctx[c := s'.ctx[c]]
    && s'.autoFree == s.autoFree && s'.gate == s.gate
  }

  /** The thread is in the conversation, or it is quiet and so is its context. */
  predicate Settled(s: State, g: Talks, p: Tid, t: Tid, c: Cid) {
    && t in s.thr && c in s.ctx
    && (|| (InTalk(g, p, t) && s.ctx[c].owner == Some(t))
        || ((s.thr[t].stack.Nil? || s.thr[t].stack == Push(Nil, SrvFrame(true, true))) && s.ctx[c].slot == Empty))
  }

  lemma TalksMove(s: State, s': State, g: Talks, p: Tid, after: Token, t: Tid, c: Cid)
    requires Inv(s) && Rel(s, g) && Patched(s, s', t, c) && Moves(s, s', TokenAt(g, p), after)
    requires forall q | q in g && q != p :: !InTalk(g, q, t)
    ensures forall q | q in g && q != p :: TalkOk(s', q, g[q])
  {
    hide TalkOk;
    AllPlaced(s, g);
    PlacedMove(s, s', g, p, after);
    assert ThreadOk(s, t);
    OthersKeep(s, s', g, p, t, c);
  }

  /** One step changes conversation p only: it may open or close it, let thread t
      join or leave it, and move its token. */
  lemma RelChange(s: State, s': State, g: Talks, g': Talks, p: Tid, t: Tid, c: Cid)
    requires Inv(s) && Rel(s, g) && Patched(s, s', t, c) && SameBut(g, g', p)
    requires Moves(s, s', TokenAt(g, p), TokenAt(g', p))
    requires p in g' ==> TalkOk(s', p, g'[p])
    requires forall q | q in g && q != p :: !InTalk(g, q, t)
    requires forall u | u != t :: InTalk(g', p, u) <==> InTalk(g, p, u)
    requires Settled(s', g', p, t, c)
    ensures Rel(s', g')
  {
    hide TalkOk, ThreadOk, CtxOk;
    TalksMove(s, s', g, p, TokenAt(g', p), t, c);
    AllPlaced(s, g);
    PlacedMove(s, s', g, p, TokenAt(g', p));
    StrayMove(s, s', g, g', p);
    ApartMove(g, g', p, t);
    QuietMove(s, s', g, g', p, t, c);
  }

  /** A step of one of the two threads inside conversation p. */
  lemma RelMove(s: State, s': State, g: Talks, p: Tid, v': Talk, t: Tid, c: Cid)
    requires Inv(s) && Rel(s, g) && InTalk(g, p, t) && v'.server == g[p].server
    requires c in s.ctx && s.ctx[c].owner == Some(t) && Patched(s, s', t, c) && s'.ctx[c].owner == Some(t)
    requires Moves(s, s', g[p].tok, v'.tok) && TalkOk(s', p, v')
    ensures Rel(s', g[p := v'])
  {
    hide TalkOk, Inv;
    forall q | q in g && q != p ensures !InTalk(g, q, t) {}
    assert forall u :: InTalk(g[p := v'], p, u) <==> InTalk(g, p, u);
    RelChange(s, s', g, g[p := v'], p, t, c);
  }

  /** The conversation of a thread that is inside a call. */
  lemma TalkOf(s: State, g: Talks, t: Tid) returns (p: Tid)
    requires Inv(s) && Rel(s, g) && t in s.thr && s.thr[t].stack.Push?
    requires s.thr[t].stack != Push(Nil, SrvFrame(true, true))
    ensures InTalk(g, p, t) && TalkOk(s, p, g[p])
    ensures Owns(s, t) && s.ctx[Own(s, t)].owner == Some(t)
    ensures Own(s, t) == Cid(PartySide(p, t == p), PartyCtx(g[p], t == p))
    ensures PartyOk(s, t, g[p], t == p)
  {
    assert Talking(g, t);
    p :| InTalk(g, p, t);
    assert ThreadOk(s, t);
  }

  // ------------------------------------------- the steps

  function CalledAgain(v: Talk, sink: Sink, arg: nat): Talk
    requires v.calls.Above?
  {
    v.(calls := Above(v.calls, Call(!v.calls.top.byInitiator, sink, Sent(arg))), tok := Unsent)
  }

  lemma TalkCallBack(s: State, t: Tid, sink: Sink, arg: nat, n: nat, p: Tid, v: Talk)
    requires CanAdmit(s, t, n) && MayCall(s, t)
    requires ThreadOk(s, t) && s.thr[t].tls.Some?
    requires TalkOk(s, p, v) && Party(p, v.server, t) && PartyOk(s, t, v, t == p)
    ensures v.calls.top.phase.Executing? && v.tok.NoToken? && Callee(p, Conv(v.server, v.calls)) == Some(t)
    ensures TalkOk(ApplyAdmit(s, t, sink, arg, n), p, CalledAgain(v, sink, arg))
  {
  }

  lemma ViewPatch(g: Talks, p: Tid, v': Talk)
    ensures View(g[p := v']) == View(g)[p := Conv(v'.server, v'.calls)]
  {
  }

  lemma ViewSame(g: Talks, p: Tid, v': Talk)
    requires p in g && v'.server == g[p].server && v'.calls == g[p].calls
    ensures View(g[p := v']) == View(g)
  {
  }

  lemma StepCallBack(s: State, t: Tid, sink: Sink, arg: nat, n: nat, g: Talks) returns (g': Talks)
    requires Inv(s) && Rel(s, g) && CanAdmit(s, t, n) && MayCall(s, t)
    requires s.thr[t].tls.Some?
    ensures Rel(ApplyAdmit(s, t, sink, arg, n), g')
    ensures StackStep(View(g), CallBy(t, sink, arg), View(g'))
  {
    hide Rel, TalkOk, PartyOk;
    var s' := ApplyAdmit(s, t, sink, arg, n);
    assert ThreadOk(s, t);
    var p := TalkOf(s, g, t);
    var v' := CalledAgain(g[p], sink, arg);
    g' := g[p := v'];
    TalkCallBack(s, t, sink, arg, n, p, g[p]);
    RelMove(s, s', g, p, v', t, Own(s, t));
    ViewPatch(g, p, v');
    assert CallsBack(View(g), p, t, sink, arg, View(g'));
  }

  lemma {:induction false} CalledBackDeep(k: Calls)
    requires CallsOk(k) && k.Above? && k.below.Above? && k.top.phase.Executing?
    ensures CalledBack(k)
  {
    if k.below.below.Above? { CalledBackDeep(k.below); }
  }

  lemma TalkSend(s: State, t: Tid, p: Tid, v: Talk)
    requires CanSend(s, t) && ThreadOk(s, t) && TalkOk(s, p, v) && Party(p, v.server, t) && PartyOk(s, t, v, t == p)
    ensures v.tok.Unsent?
    ensures TalkOk(ApplySend(s, t), p, v.(tok := InNet(SentCmd(s, t))))
  {
    var k := v.calls.below;
    assert v.calls.top.byInitiator == (t == p);
    if k.Above? && t == p {
      CalledBackDeep(k);
      assert CalledBack(v.calls);
    }
  }

  lemma StepSend(s: State, t: Tid, g: Talks) returns (g': Talks)
    requires Inv(s) && Rel(s, g) && CanSend(s, t)
    ensures Rel(ApplySend(s, t), g') && View(g') == View(g)
  {
    hide Rel, TalkOk, PartyOk;
    var s' := ApplySend(s, t);
    assert ThreadOk(s, t);
    var p := TalkOf(s, g, t);
    var v' := g[p].(tok := InNet(SentCmd(s, t)));
    g' := g[p := v'];
    TalkSend(s, t, p, g[p]);
    RelMove(s, s', g, p, v', t, Own(s, t));
    ViewSame(g, p, v');
  }

  /** Packets that belong to no conversation come and go freely. */
  lemma RelPlain(s: State, s': State, g: Talks)
    requires Rel(s, g) && s'.ctx == s.ctx && s'.thr == s.thr && s'.gate == s.gate && s'.autoFree == s.autoFree
    requires s'.next >= s.next
    requires forall m: Msg | !Plain(m) :: m in s'.net <==> m in s.net
    requires forall m: Msg | m.kind != Evt :: m in s'.pool <==> m in s.pool
    requires forall side: Side ::
               s'.rx.At(side) == s.rx.At(side) || (
                 && (s.rx.At(side).Some? ==> Plain(s.rx.At(side).value))
                 && (s'.rx.At(side).Some? ==> Plain(s'.rx.At(side).value) && s'.rx.At(side).value.to == side))
    ensures Rel(s', g)
  {
    forall p | p in g ensures TalkOk(s', p, g[p]) { assert TalkOk(s, p, g[p]); }
    assert NoStray(s', g);
  }

  lemma TalkArrive(s: State, m: Msg, p: Tid, v: Talk)
    requires CanArrive(s, m) && TalkOk(s, p, v) && v.tok == InNet(m) && !s.gate.At(m.to).stopped
    ensures TalkOk(ApplyArrive(s, m), p, v.(tok := InRx(m)))
  {
  }

  /** Each party of a conversation owns the context that the talk names. */
  lemma PartyOwns(s: State, p: Tid, v: Talk, t: Tid)
    requires Inv(s) && TalkOk(s, p, v) && Party(p, v.server, t)
    ensures Holds(s, t, PartyCtx(v, t == p)) && s.ctx[Cid(t.side, PartyCtx(v, t == p))].owner == Some(t)
    ensures t.side == PartySide(p, t == p)
  {
    assert ThreadOk(s, t);
  }

  /** A token on the move between the two threads touches neither of them. */
  lemma RelTravel(s: State, s': State, g: Talks, p: Tid, tok: Token)
    requires Inv(s) && Rel(s, g) && p in g && s'.ctx == s.ctx && s'.thr == s.thr
    requires s'.autoFree == s.autoFree && s'.gate == s.gate
    requires Moves(s, s', g[p].tok, tok) && TalkOk(s', p, g[p].(tok := tok))
    ensures Rel(s', g[p := g[p].(tok := tok)]) && View(g[p := g[p].(tok := tok)]) == View(g)
  {
    hide TalkOk;
    assert TalkOk(s, p, g[p]) && InTalk(g, p, p);
    PartyOwns(s, p, g[p], p);
    RelMove(s, s', g, p, g[p].(tok := tok), p, Cid(p.side, g[p].c));
    ViewSame(g, p, g[p].(tok := tok));
  }

  lemma StepArrivePlain(s: State, m: Msg, g: Talks)
    requires Rel(s, g) && CanArrive(s, m) && Plain(m)
    ensures Rel(ApplyArrive(s, m), g)
  {
    RelPlain(s, ApplyArrive(s, m), g);
  }

  lemma StepArrive(s: State, m: Msg, g: Talks) returns (g': Talks)
    requires Inv(s) && Rel(s, g) && CanArrive(s, m)
    ensures Rel(ApplyArrive(s, m), g') && View(g') == View(g)
  {
    hide TalkOk;
    if Plain(m) {
      g' := g;
      StepArrivePlain(s, m, g);
    } else {
      var p :| Carries(g, p, InNet(m));
      g' := g[p := g[p].(tok := InRx(m))];
      TalkArrive(s, m, p, g[p]);
      RelTravel(s, ApplyArrive(s, m), g, p, InRx(m));
    }
  }

  // The receive thread passes the token on.

  lemma TalkRoutePool(s: State, side: Side, m: Msg, p: Tid, v: Talk)
    requires CanRoute(s, side) && s.rx.At(side) == Some(m) && m.to == side && TalkOk(s, p, v) && v.tok == InRx(m)
    requires v.calls.top.phase.Sent? && v.calls.below.Bottom?
    ensures m.kind == Cmd && m.dst == ID_UNKNOWN
    ensures TalkOk(ApplyRoute(s, side), p, v.(tok := InPool(m)))
  {
  }

  /** The party a token in flight is addressed to. */
  predicate Addressee(p: Tid, v: Talk, t: Tid)
    requires v.calls.Above?
  {
    if TowardsInitiator(v) then t == p else v.server == Some(t)
  }

  lemma TalkAddressed(s: State, side: Side, m: Msg, p: Tid, v: Talk, t: Tid)
    requires s.rx.At(side) == Some(m) && m.to == side && v.calls.Above? && v.tok == InRx(m)
    requires TalkOk(s, p, v) && Addressee(p, v, t) && t in s.thr && ThreadOk(s, t)
    requires v.calls.top.phase.Answered? || v.calls.below.Above?
    requires Holds(s, t, PartyCtx(v, t == p)) ==> CtxOk(s, Cid(t.side, PartyCtx(v, t == p)))
    ensures Addressed(m) && Owns(s, t) && Own(s, t) == Cid(side, m.dst)
    ensures s.ctx[Own(s, t)].slot == Empty && s.ctx[Own(s, t)].uses != 0 && s.ctx[Own(s, t)].owner == Some(t)
  {
    StackUses(s.thr[t].stack);
  }

  lemma TalkRouteSlot(s: State, side: Side, m: Msg, p: Tid, v: Talk, t: Tid)
    requires CanRoute(s, side) && s.rx.At(side) == Some(m) && m.to == side && v.calls.Above? && v.tok == InRx(m)
    requires TalkOk(s, p, v) && Addressee(p, v, t) && t in s.thr && ThreadOk(s, t)
    requires v.calls.top.phase.Answered? || v.calls.below.Above?
    requires Addressed(m) && Owns(s, t) && Own(s, t) == Cid(side, m.dst) && s.ctx[Own(s, t)].uses != 0
    requires Deposit(s.ctx[Own(s, t)], m, s.autoFree.At(side)).slot.Packet? && s.ctx[Own(s, t)].slot == Empty
    ensures TalkOk(ApplyRoute(s, side), p, v.(tok := InSlot(m)))
    ensures !(m.kind == Rsp && s.ctx[Own(s, t)].handler.Some? && s.autoFree.At(side))
  {
  }

  /** In auto-free mode the receive thread itself runs the handler of the
      innermost command on the answer. */
  lemma TalkRouteHandled(s: State, side: Side, m: Msg, p: Tid, v: Talk, t: Tid)
    requires CanRoute(s, side) && s.rx.At(side) == Some(m) && m.to == side && v.calls.Above? && v.tok == InRx(m)
    requires TalkOk(s, p, v) && Addressee(p, v, t) && t in s.thr && ThreadOk(s, t)
    requires v.calls.top.phase.Answered? || v.calls.below.Above?
    requires Owns(s, t) && Own(s, t) == Cid(side, m.dst) && s.ctx[Own(s, t)].uses != 0
    requires Deposit(s.ctx[Own(s, t)], m, s.autoFree.At(side)).slot == Handled && Addressed(m)
    requires s.ctx[Own(s, t)].slot == Empty
    ensures v.calls.top.phase == Answered(m.data) && Caller(p, Conv(v.server, v.calls)) == Some(t)
    ensures m.kind == Rsp && s.autoFree.At(side) && s.ctx[Own(s, t)].handler.Some?
    ensures v.calls.top.sink == ToHandler(s.ctx[Own(s, t)].handler.value)
    ensures TalkOk(ApplyRoute(s, side), p, TakenBy(v))
  {
  }

  lemma StepRoutePlain(s: State, side: Side, g: Talks)
    requires Rel(s, g) && CanRoute(s, side) && Plain(s.rx.At(side).value)
    ensures Rel(ApplyRoute(s, side), g)
  {
    RelPlain(s, ApplyRoute(s, side), g);
  }

  lemma StepRoutePacket(s: State, side: Side, g: Talks, p: Tid, m: Msg, t: Tid) returns (g': Talks)
    requires Inv(s) && Rel(s, g) && CanRoute(s, side) && s.rx.At(side) == Some(m) && m.to == side
    requires Carries(g, p, InRx(m)) && InTalk(g, p, t) && TalkOk(ApplyRoute(s, side), p, g[p].(tok := InSlot(m)))
    requires Owns(s, t) && Own(s, t) == Cid(side, m.dst) && s.ctx[Own(s, t)].owner == Some(t) && Addressed(m)
    ensures Rel(ApplyRoute(s, side), g') && View(g') == View(g)
  {
    hide Rel, TalkOk, PartyOk;
    var v' := g[p].(tok := InSlot(m));
    g' := g[p := v'];
    RelMove(s, ApplyRoute(s, side), g, p, v', t, Own(s, t));
    ViewSame(g, p, v');
  }

  function TakenBy(v: Talk): Talk
    requires v.calls.Above?
  {
    v.(calls := Above(v.calls.below, v.calls.top.(phase := Accepted)), tok := InHandled)
  }

  lemma StepRouteHandled(s: State, side: Side, g: Talks, p: Tid, m: Msg, t: Tid) returns (g': Talks)
    requires Inv(s) && Rel(s, g) && CanRoute(s, side) && s.rx.At(side) == Some(m) && m.to == side
    requires Carries(g, p, InRx(m)) && InTalk(g, p, t)
    requires g[p].calls.Above? && TalkOk(ApplyRoute(s, side), p, TakenBy(g[p]))
    requires Owns(s, t) && Own(s, t) == Cid(side, m.dst) && s.ctx[Own(s, t)].owner == Some(t) && Addressed(m)
    requires g[p].calls.top.phase == Answered(m.data) && Caller(p, Conv(g[p].server, g[p].calls)) == Some(t)
    ensures Rel(ApplyRoute(s, side), g')
    ensures StackStep(View(g), AcceptFor(t, g[p].calls.top.sink, m.data), View(g'))
  {
    hide Rel, TalkOk, PartyOk;
    var v' := TakenBy(g[p]);
    g' := g[p := v'];
    RelMove(s, ApplyRoute(s, side), g, p, v', t, Own(s, t));
    ViewPatch(g, p, v');
    assert Deliverable(View(g), p, t, g[p].calls.top.sink, m.data);
  }

  lemma StepRouteSlot(s: State, side: Side, g: Talks, p: Tid, m: Msg) returns (g': Talks)
    requires Inv(s) && Rel(s, g) && CanRoute(s, side) && s.rx.At(side) == Some(m) && m.to == side
    requires Carries(g, p, InRx(m)) && g[p].calls.Above?
    requires g[p].calls.top.phase.Answered? || g[p].calls.below.Above?
    ensures Rel(ApplyRoute(s, side), g')
    ensures StackStep(View(g), Reception(s, side), View(g'))
  {
    hide TalkOk;
    assert TalkOk(s, p, g[p]);
    var t := DestOf(s, p, g[p]);
    TalkAddressed(s, side, m, p, g[p], t);
    if Deposit(s.ctx[Own(s, t)], m, s.autoFree.At(side)).slot.Packet? {
      TalkRouteSlot(s, side, m, p, g[p], t);
      g' := StepRoutePacket(s, side, g, p, m, t);
    } else {
      TalkRouteHandled(s, side, m, p, g[p], t);
      g' := StepRouteHandled(s, side, g, p, m, t);
    }
  }

  lemma DestOf(s: State, p: Tid, v: Talk) returns (t: Tid)
    requires v.calls.Above? && Inv(s) && TalkOk(s, p, v) && v.tok.InRx? && (v.calls.top.phase.Answered? || v.calls.below.Above?)
    ensures Addressee(p, v, t) && Party(p, v.server, t) && t in s.thr && ThreadOk(s, t)
    ensures Holds(s, t, PartyCtx(v, t == p)) && CtxOk(s, Cid(t.side, PartyCtx(v, t == p)))
  {
    t := if TowardsInitiator(v) then p else v.server.value;
  }

  lemma StepRoute(s: State, side: Side, g: Talks) returns (g': Talks)
    requires Inv(s) && Rel(s, g) && CanRoute(s, side)
    ensures Rel(ApplyRoute(s, side), g')
    ensures StackStep(View(g), Reception(s, side), View(g'))
  {
    hide TalkOk;
    var m := s.rx.At(side).value;
    if Plain(m) {
      g' := g;
      StepRoutePlain(s, side, g);
    } else {
      var p :| Carries(g, p, InRx(m));
      assert TalkOk(s, p, g[p]);
      TalkNonempty(s, p, g[p]);
      if g[p].calls.top.phase.Sent? && g[p].calls.below.Bottom? {
        TalkRoutePool(s, side, m, p, g[p]);
        g' := g[p := g[p].(tok := InPool(m))];
        RelTravel(s, ApplyRoute(s, side), g, p, InPool(m));
      } else {
        g' := StepRouteSlot(s, side, g, p, m);
      }
    }
  }

  lemma TalkNonempty(s: State, p: Tid, v: Talk)
    requires TalkOk(s, p, v)
    ensures v.calls.Above?
    ensures HasSome(v.tok) ==> v.calls.top.phase.Sent? || v.calls.top.phase.Answered?
  {
  }

  // A waiting thread takes a callback.

  function Begun(v: Talk): Talk
    requires v.calls.Above?
  {
    v.(calls := Above(v.calls.below, v.calls.top.(phase := Executing)), tok := NoToken)
  }

  lemma TalkTakeCmd(s: State, t: Tid, m: Msg, p: Tid, v: Talk)
    requires CanTake(s, t) && ThreadOk(s, t) && s.ctx[Own(s, t)].slot == Packet(m) && m.kind == Cmd
    requires TalkOk(s, p, v) && Party(p, v.server, t) && PartyOk(s, t, v, t == p)
    ensures v.tok == InSlot(m) && v.calls.top.phase == Sent(m.data) && v.calls.below.Above?
    ensures Callee(p, Conv(v.server, v.calls)) == Some(t)
    ensures TalkOk(ApplyTake(s, t), p, Begun(v))
  {
    assert v.calls.top.byInitiator == (t != p);
    if t == p {
      assert m.src == v.d;
    } else {
      assert CallsOk(v.calls.below) && v.calls.below.below.Above?;
      assert CalledBack(Begun(v).calls) == CalledBack(v.calls.below) == CalledBack(v.calls);
    }
  }

  lemma StepTakeCmd(s: State, t: Tid, m: Msg, g: Talks) returns (g': Talks)
    requires Inv(s) && Rel(s, g) && CanTake(s, t) && s.ctx[Own(s, t)].slot == Packet(m) && m.kind == Cmd
    ensures Rel(ApplyTake(s, t), g') && StackStep(View(g), StartBy(t, m.data), View(g'))
  {
    hide Rel, TalkOk, PartyOk;
    assert ThreadOk(s, t);
    var p := TalkOf(s, g, t);
    TalkTakeCmd(s, t, m, p, g[p]);
    var v' := Begun(g[p]);
    g' := g[p := v'];
    RelMove(s, ApplyTake(s, t), g, p, v', t, Own(s, t));
    ViewPatch(g, p, v');
    assert StartsBack(View(g), p, t, m.data, View(g'));
  }

  // A waiting thread takes the answer of its innermost call.

  function Shorter(v: Talk): Talk
    requires v.calls.Above?
  {
    v.(calls := v.calls.below, tok := NoToken)
  }

  predicate TakesAnswer(s: State, t: Tid) {
    CanTake(s, t) && !(s.ctx[Own(s, t)].slot.Packet? && s.ctx[Own(s, t)].slot.m.kind == Cmd)
  }

  lemma TalkAnswer(s: State, t: Tid, p: Tid, v: Talk)
    requires TakesAnswer(s, t) && ThreadOk(s, t)
    requires TalkOk(s, p, v) && Party(p, v.server, t) && PartyOk(s, t, v, t == p)
    ensures Caller(p, Conv(v.server, v.calls)) == Some(t) && (v.tok.InSlot? || v.tok.InHandled?)
    ensures match Wakeup(s, t)
            case ReturnTo(u, sink, x) =>
              u == t && v.calls.top.phase == Answered(x) && v.calls.top.sink == sink
            case ResumeOf(u) => u == t && v.calls.top.phase == Accepted
            case _ => false
  {
  }

  lemma TalkReturn(s: State, t: Tid, p: Tid, v: Talk)
    requires TakesAnswer(s, t) && ThreadOk(s, t)
    requires TalkOk(s, p, v) && Party(p, v.server, t) && PartyOk(s, t, v, t == p) && v.calls.below.Above?
    ensures ApplyTake(s, t).ctx[Own(s, t)].owner == Some(t)
    ensures TalkOk(ApplyTake(s, t), p, Shorter(v))
  {
    TalkAnswer(s, t, p, v);
    assert s.thr[t].stack.below == Frames(v.calls.below, t == p);
    StackUses(s.thr[t].stack.below);
  }

  /** Popping in the abstract stacks is what the label of the wake-up says. */
  lemma PopStep(s: State, t: Tid, g: Talks, p: Tid, g': Talks)
    requires TakesAnswer(s, t) && p in g && g[p].calls.Above?
    requires Caller(p, Conv(g[p].server, g[p].calls)) == Some(t)
    requires match Wakeup(s, t)
             case ReturnTo(u, sink, x) =>
               u == t && g[p].calls.top.phase == Answered(x) && g[p].calls.top.sink == sink
             case ResumeOf(u) => u == t && g[p].calls.top.phase == Accepted
             case _ => false
    requires View(g') == Popped(View(g), p)
    ensures StackStep(View(g), Wakeup(s, t), View(g'))
  {
    assert View(g)[p] == Conv(g[p].server, g[p].calls);
    match Wakeup(s, t)
    case ReturnTo(_, sink, x) => assert Deliverable(View(g), p, t, sink, x);
    case ResumeOf(_) => assert TopIs(View(g), p, Accepted);
  }

  lemma StepReturn(s: State, t: Tid, g: Talks, p: Tid) returns (g': Talks)
    requires Inv(s) && Rel(s, g) && TakesAnswer(s, t) && InTalk(g, p, t)
    requires g[p].calls.Above? && g[p].calls.below.Above?
    requires ApplyTake(s, t).ctx[Own(s, t)].owner == Some(t) && TalkOk(ApplyTake(s, t), p, Shorter(g[p]))
    requires g[p].tok.InSlot? || g[p].tok.InHandled?
    ensures Rel(ApplyTake(s, t), g') && View(g') == Popped(View(g), p)
  {
    hide Rel, TalkOk, PartyOk;
    assert ThreadOk(s, t);
    g' := g[p := Shorter(g[p])];
    RelMove(s, ApplyTake(s, t), g, p, Shorter(g[p]), t, Own(s, t));
    ViewPatch(g, p, Shorter(g[p]));
  }

  // A decoder responds to a callback and then leaves.

  function Responded(v: Talk, init: bool, x: nat, m: Msg): Talk
    requires v.calls.Above?
  {
    var w := v.(calls := Above(v.calls.below, v.calls.top.(phase := Answered(x))), tok := InNet(m));
    if init then w.(ptail := true) else w.(qtail := true)
  }

  predicate MayRespond(s: State, t: Tid) {
    InSrv(s, t) && !s.thr[t].stack.top.responded
  }

  lemma TalkExecuting(s: State, t: Tid, p: Tid, v: Talk)
    requires MayRespond(s, t) && TalkOk(s, p, v) && Party(p, v.server, t) && PartyOk(s, t, v, t == p)
    ensures v.calls.top.phase == Executing && Callee(p, Conv(v.server, v.calls)) == Some(t)
    ensures v.tok == NoToken && !Tail(v, t == p)
    ensures t != p ==> v.server == Some(t)
  {
  }

  lemma TalkRespond(s: State, t: Tid, x: nat, p: Tid, v: Talk)
    requires MayRespond(s, t) && ThreadOk(s, t) && v.calls.Above? && v.calls.below.Above?
    requires TalkOk(s, p, v) && Party(p, v.server, t) && PartyOk(s, t, v, t == p)
    ensures TalkOk(ApplyRespond(s, t, x), p, Responded(v, t == p, x, SentRsp(s, t, x)))
  {
    TalkExecuting(s, t, p, v);
    CalledBackDeep(v.calls);
  }

  lemma StepRespond(s: State, t: Tid, x: nat, g: Talks, p: Tid) returns (g': Talks)
    requires Inv(s) && Rel(s, g) && MayRespond(s, t) && InTalk(g, p, t) && g[p].calls.Above? && g[p].calls.below.Above?
    requires TalkOk(ApplyRespond(s, t, x), p, Responded(g[p], t == p, x, SentRsp(s, t, x)))
    requires g[p].calls.top.phase == Executing && Callee(p, Conv(g[p].server, g[p].calls)) == Some(t) && g[p].tok == NoToken
    ensures Rel(ApplyRespond(s, t, x), g') && StackStep(View(g), AnswerBy(t, x), View(g'))
  {
    hide Rel, TalkOk, PartyOk;
    assert ThreadOk(s, t);
    var v' := Responded(g[p], t == p, x, SentRsp(s, t, x));
    g' := g[p := v'];
    RelMove(s, ApplyRespond(s, t, x), g, p, v', t, Own(s, t));
    ViewPatch(g, p, v');
    assert Answers(View(g), p, t, x, View(g'));
  }

  function TailDone(v: Talk, init: bool): Talk {
    if init then v.(ptail := false) else v.(qtail := false)
  }

  predicate MayFinish(s: State, t: Tid) {
    InSrv(s, t) && s.thr[t].stack.top.responded
  }

  lemma {:induction false} FramesFresh(k: Calls, init: bool)
    ensures Frames(k, init).Push? && Frames(k, init).top.SrvFrame? ==> !Frames(k, init).top.responded
  {
    if k.Above? { FramesFresh(k.below, init); }
  }

  lemma TalkFinish(s: State, t: Tid, p: Tid, v: Talk)
    requires MayFinish(s, t) && ThreadOk(s, t)
    requires TalkOk(s, p, v) && Party(p, v.server, t) && PartyOk(s, t, v, t == p)
    ensures Tail(v, t == p) && ApplyFinish(s, t).ctx[Own(s, t)].owner == Some(t)
    ensures TalkOk(ApplyFinish(s, t), p, TailDone(v, t == p))
  {
    FramesFresh(v.calls, t == p);
  }

  lemma StepFinish(s: State, t: Tid, g: Talks) returns (g': Talks)
    requires Inv(s) && Rel(s, g) && MayFinish(s, t) && s.thr[t].stack != Push(Nil, SrvFrame(true, true))
    ensures Rel(ApplyFinish(s, t), g') && View(g') == View(g)
  {
    hide Rel, TalkOk, PartyOk;
    assert ThreadOk(s, t);
    var p := TalkOf(s, g, t);
    TalkFinish(s, t, p, g[p]);
    var v' := TailDone(g[p], t == p);
    g' := g[p := v'];
    RelMove(s, ApplyFinish(s, t), g, p, v', t, Own(s, t));
    ViewSame(g, p, v');
  }

  // Conversations begin and end.

  /** A thread without a context is in no conversation. */
  lemma NoContextNoTalk(s: State, g: Talks, t: Tid)
    requires Rel(s, g) && t in s.thr && (s.thr[t].tls.None? || s.thr[t].stack == Push(Nil, SrvFrame(true, true)))
    ensures !Talking(g, t) && !Involved(View(g), t) && t !in g
    ensures forall q | q in g :: !InTalk(g, q, t)
  {
    forall q | q in g ensures !InTalk(g, q, t) {
      assert TalkOk(s, q, g[q]);
      FramesFresh(g[q].calls, true);
      FramesFresh(g[q].calls, false);
    }
    assert InTalk(g, t, t) <==> t in g;
  }

  lemma FreeSlotEmpty(s: State, g: Talks, c: Cid)
    requires Rel(s, g) && FreeCtx(s, c)
    ensures s.ctx[c].slot == Empty
  {
    hide TalkOk;
  }

  lemma QuietSlotEmpty(s: State, g: Talks, t: Tid)
    requires Inv(s) && Rel(s, g) && Owns(s, t) && !Talking(g, t)
    ensures s.ctx[Own(s, t)].slot == Empty
  {
    hide TalkOk;
    assert ThreadOk(s, t);
  }

  /** A thread is in one conversation only. */
  lemma OnlyTalk(s: State, g: Talks, p: Tid, t: Tid)
    requires Rel(s, g) && InTalk(g, p, t)
    ensures forall q | q in g && q != p :: !InTalk(g, q, t)
  {
    hide TalkOk;
  }

  lemma PoolToken(s: State, g: Talks, m: Msg) returns (p: Tid)
    requires Rel(s, g) && m in s.pool && m.kind == Cmd
    ensures Carries(g, p, InPool(m)) && TalkOk(s, p, g[p])
  {
    hide TalkOk;
    p :| Carries(g, p, InPool(m));
  }

  function Opened(n: nat, sink: Sink, arg: nat): Talk {
    Talk(n, None, 0, Above(Bottom, Call(true, sink, Sent(arg))), Unsent, false, false)
  }

  lemma TalkOpen(s: State, t: Tid, sink: Sink, arg: nat, n: nat)
    requires CanAdmit(s, t, n) && ThreadOk(s, t) && s.thr[t].tls.None? && s.ctx[Cid(t.side, n)].slot == Empty
    ensures TalkOk(ApplyAdmit(s, t, sink, arg, n), t, Opened(n, sink, arg))
  {
    assert Frames(Bottom, true) == Nil && Shown(Nil) == None;
  }

  lemma OpenRel(s: State, t: Tid, sink: Sink, arg: nat, n: nat, g: Talks)
    requires Inv(s) && Rel(s, g) && CanAdmit(s, t, n) && s.thr[t].tls.None?
    ensures Rel(ApplyAdmit(s, t, sink, arg, n), g[t := Opened(n, sink, arg)])
  {
    hide Rel, TalkOk;
    assert ThreadOk(s, t);
    var c := Cid(t.side, n);
    FreeSlotEmpty(s, g, c);
    TalkOpen(s, t, sink, arg, n);
    NoContextNoTalk(s, g, t);
    RelChange(s, ApplyAdmit(s, t, sink, arg, n), g, g[t := Opened(n, sink, arg)], t, t, c);
  }

  lemma StepOpen(s: State, t: Tid, sink: Sink, arg: nat, n: nat, g: Talks) returns (g': Talks)
    requires Inv(s) && Rel(s, g) && CanAdmit(s, t, n) && s.thr[t].tls.None?
    ensures Rel(ApplyAdmit(s, t, sink, arg, n), g')
    ensures StackStep(View(g), CallBy(t, sink, arg), View(g'))
  {
    NoContextNoTalk(s, g, t);
    g' := g[t := Opened(n, sink, arg)];
    OpenRel(s, t, sink, arg, n, g);
    hide Rel, TalkOk, Inv, ApplyAdmit;
    ViewPatch(g, t, Opened(n, sink, arg));
    assert Opens(View(g), t, sink, arg, View(g'));
  }

  function Joined(v: Talk, t: Tid, n: nat): Talk
    requires v.calls.Above?
  {
    Begun(v.(server := Some(t), d := n, qtail := false))
  }

  lemma TalkJoin(s: State, t: Tid, m: Msg, n: nat, p: Tid, v: Talk)
    requires CanDispatch(s, t, m, n) && TalkOk(s, p, v) && v.tok == InPool(m) && s.ctx[Cid(t.side, n)].slot == Empty
    requires s.ctx[Cid(p.side, v.c)].owner == Some(p)
    ensures v.calls.Above? && v.calls.top.phase == Sent(m.data) && v.calls.below.Bottom?
    ensures t.side != p.side && v.server == None
    ensures TalkOk(ApplyDispatch(s, t, m, n), p, Joined(v, t, n))
  {
    assert Frames(Bottom, false) == Nil;
  }

  lemma StepDispatch(s: State, t: Tid, m: Msg, n: nat, g: Talks) returns (g': Talks)
    requires Inv(s) && Rel(s, g) && CanDispatch(s, t, m, n)
    ensures Rel(ApplyDispatch(s, t, m, n), g') && StackStep(View(g), StartBy(t, m.data), View(g'))
  {
    hide Rel, TalkOk, Inv;
    var p := PoolToken(s, g, m);
    FreeSlotEmpty(s, g, Cid(t.side, n));
    PartyOwns(s, p, g[p], p);
    NoContextNoTalk(s, g, t);
    TalkJoin(s, t, m, n, p, g[p]);
    g' := g[p := Joined(g[p], t, n)];
    RelChange(s, ApplyDispatch(s, t, m, n), g, g', p, t, Cid(t.side, n));
    ViewPatch(g, p, Joined(g[p], t, n));
    assert StartsFirst(View(g), p, t, m.data, View(g'));
  }

  function Left(v: Talk, x: nat, m: Msg): Talk
    requires v.calls.Above?
  {
    v.(server := None, qtail := false, tok := InNet(m),
       calls := Above(v.calls.below, v.calls.top.(phase := Answered(x))))
  }

  lemma TalkLeft(s: State, t: Tid, x: nat, p: Tid, v: Talk)
    requires MayRespond(s, t) && ThreadOk(s, t) && v.calls.Above? && v.calls.below.Bottom?
    requires TalkOk(s, p, v) && Party(p, v.server, t) && PartyOk(s, t, v, t == p)
    ensures t != p && v.server == Some(t) && s.thr[t].stack == Push(Nil, SrvFrame(true, false))
    ensures s.ctx[Own(s, t)].slot == Empty
    ensures TalkOk(ApplyRespond(s, t, x), p, Left(v, x, SentRsp(s, t, x)))
  {
    TalkExecuting(s, t, p, v);
  }

  lemma StepLeft(s: State, t: Tid, x: nat, g: Talks, p: Tid) returns (g': Talks)
    requires Inv(s) && Rel(s, g) && MayRespond(s, t) && InTalk(g, p, t) && g[p].calls.Above? && g[p].calls.below.Bottom?
    requires t != p && g[p].server == Some(t) && s.thr[t].stack == Push(Nil, SrvFrame(true, false))
    requires s.ctx[Own(s, t)].slot == Empty && TalkOk(ApplyRespond(s, t, x), p, Left(g[p], x, SentRsp(s, t, x)))
    requires g[p].calls.top.phase == Executing && Callee(p, Conv(g[p].server, g[p].calls)) == Some(t) && g[p].tok == NoToken
    ensures Rel(ApplyRespond(s, t, x), g') && StackStep(View(g), AnswerBy(t, x), View(g'))
  {
    hide Rel, TalkOk;
    assert ThreadOk(s, t);
    var v' := Left(g[p], x, SentRsp(s, t, x));
    g' := g[p := v'];
    OnlyTalk(s, g, p, t);
    RelChange(s, ApplyRespond(s, t, x), g, g', p, t, Own(s, t));
    ViewPatch(g, p, v');
    assert Answers(View(g), p, t, x, View(g'));
  }

  lemma TalkClose(s: State, t: Tid, p: Tid, v: Talk)
    requires TakesAnswer(s, t) && ThreadOk(s, t)
    requires TalkOk(s, p, v) && Party(p, v.server, t) && PartyOk(s, t, v, t == p) && v.calls.below.Bottom?
    ensures t == p && v.server.None?
    ensures ApplyTake(s, t).thr[t].stack.Nil? && ApplyTake(s, t).ctx[Own(s, t)].slot == Empty
  {
    TalkAnswer(s, t, p, v);
    assert s.thr[t].stack.below == Frames(v.calls.below, t == p) == Nil;
  }

  lemma StepClose(s: State, t: Tid, g: Talks) returns (g': Talks)
    requires Inv(s) && Rel(s, g) && TakesAnswer(s, t) && t in g && g[t].server.None?
    requires g[t].calls.Above? && g[t].calls.below.Bottom? && (g[t].tok.InSlot? || g[t].tok.InHandled?)
    requires ApplyTake(s, t).thr[t].stack.Nil? && ApplyTake(s, t).ctx[Own(s, t)].slot == Empty
    ensures Rel(ApplyTake(s, t), g') && View(g') == Popped(View(g), t)
  {
    hide Rel, TalkOk;
    assert ThreadOk(s, t) && InTalk(g, t, t);
    g' := g - {t};
    OnlyTalk(s, g, t, t);
    RelChange(s, ApplyTake(s, t), g, g', t, t, Own(s, t));
  }

  /** The serving thread gives its context back: nobody is told. */
  lemma StepGone(s: State, t: Tid, g: Talks)
    requires Inv(s) && Rel(s, g) && MayFinish(s, t) && s.thr[t].stack == Push(Nil, SrvFrame(true, true))
    ensures Rel(ApplyFinish(s, t), g)
  {
    hide Rel, TalkOk;
    assert ThreadOk(s, t);
    NoContextNoTalk(s, g, t);
    QuietSlotEmpty(s, g, t);
    RelChange(s, ApplyFinish(s, t), g, g, t, t, Own(s, t));
  }

  // Events run beside the conversations.

  lemma StepSendEvent(s: State, m: Msg, g: Talks)
    requires Rel(s, g) && Plain(m)
    ensures Rel(Transmit(s, m), g)
  {
    RelPlain(s, Transmit(s, m), g);
  }

  lemma TalkOutsider(s: State, s': State, p: Tid, v: Talk, t: Tid)
    requires TalkOk(s, p, v) && !Party(p, v.server, t) && t in s'.thr
    requires s' == s.(thr := s.thr[t := s'.thr[t]])
    ensures TalkOk(s', p, v)
  {
  }

  /** A pool thread without a context enters or leaves an event decoder. */
  lemma StepEventFlag(s: State, s': State, t: Tid, g: Talks)
    requires Inv(s) && Rel(s, g) && Idle(s, t) && t in s'.thr && s'.thr == s.thr[t := s.thr[t].(inEvent := s'.thr[t].inEvent)]
    requires s' == s.(thr := s'.thr)
    ensures Rel(s', g)
  {
    hide TalkOk;
    NoContextNoTalk(s, g, t);
    forall p | p in g ensures TalkOk(s', p, g[p]) {
      assert TalkOk(s, p, g[p]) && !InTalk(g, p, t);
      TalkOutsider(s, s', p, g[p], t);
    }
    assert NoStray(s', g);
  }

  lemma StepDispatchEvent(s: State, t: Tid, m: Msg, g: Talks)
    requires Inv(s) && Rel(s, g) && CanDispatchEvent(s, t, m)
    ensures Rel(Apply(s, DispatchEvent(t, m)), g)
  {
    hide TalkOk;
    var r := s.(pool := s.pool - {m});
    RelPlain(s, r, g);
    InvSame(s, r);
    StepEventFlag(r, Apply(s, DispatchEvent(t, m)), t, g);
  }

  lemma StepFinishEvent(s: State, t: Tid, g: Talks)
    requires Inv(s) && Rel(s, g) && Idle(s, t) && s.thr[t].inEvent
    ensures Rel(Apply(s, FinishEvent(t)), g)
  {
    hide TalkOk;
    var m := Msg(s.next, Other(t.side), Ack, ID_UNKNOWN, ID_UNKNOWN, 0);
    StepSendEvent(s, m, g);
    InvSame(s, Transmit(s, m));
    StepEventFlag(Transmit(s, m), Apply(s, FinishEvent(t)), t, g);
  }

  // ------------------------------------------- every step, every run

  lemma StepTake(s: State, t: Tid, g: Talks) returns (g': Talks)
    requires Inv(s) && Rel(s, g) && CanTake(s, t)
    ensures Rel(ApplyTake(s, t), g') && StackStep(View(g), Wakeup(s, t), View(g'))
  {
    hide Rel, TalkOk, PartyOk;
    assert ThreadOk(s, t);
    if !TakesAnswer(s, t) {
      g' := StepTakeCmd(s, t, s.ctx[Own(s, t)].slot.m, g);
    } else {
      var p := TalkOf(s, g, t);
      TalkNonempty(s, p, g[p]);
      TalkAnswer(s, t, p, g[p]);
      if g[p].calls.below.Above? {
        TalkReturn(s, t, p, g[p]);
        g' := StepReturn(s, t, g, p);
      } else {
        TalkClose(s, t, p, g[p]);
        g' := StepClose(s, t, g);
      }
      PopStep(s, t, g, p, g');
    }
  }

  lemma StepAnswer(s: State, t: Tid, x: nat, g: Talks) returns (g': Talks)
    requires Inv(s) && Rel(s, g) && MayRespond(s, t)
    ensures Rel(ApplyRespond(s, t, x), g') && StackStep(View(g), AnswerBy(t, x), View(g'))
  {
    hide Rel, TalkOk, PartyOk;
    assert ThreadOk(s, t);
    var p := TalkOf(s, g, t);
    TalkNonempty(s, p, g[p]);
    TalkExecuting(s, t, p, g[p]);
    if g[p].calls.below.Above? {
      TalkRespond(s, t, x, p, g[p]);
      g' := StepRespond(s, t, x, g, p);
    } else {
      TalkLeft(s, t, x, p, g[p]);
      g' := StepLeft(s, t, x, g, p);
    }
  }

  /** Forward simulation: each polite step of the engine is a step of the call
      stacks with the same observation. */
  lemma Simulate(s: State, e: Step, s': State, g: Talks) returns (g': Talks)
    requires Inv(s) && Rel(s, g) && Next(s, e, s') && Polite(s, e)
    ensures Rel(s', g') && StackStep(View(g), Obs(s, e), View(g'))
  {
    hide Rel, Inv;
    g' := g;
    match e
    case Admit(t, sink, arg, n) =>
      if s.thr[t].tls.None? {
        g' := StepOpen(s, t, sink, arg, n, g);
      } else {
        g' := StepCallBack(s, t, sink, arg, n, g);
      }
    case Send(t) => g' := StepSend(s, t, g);
    case Take(t) => g' := StepTake(s, t, g);
    case Dispatch(t, m, n) => g' := StepDispatch(s, t, m, n, g);
    case Respond(t, x) => g' := StepAnswer(s, t, x, g);
    case Finish(t) =>
      if s.thr[t].stack == Push(Nil, SrvFrame(true, true)) {
        StepGone(s, t, g);
      } else {
        g' := StepFinish(s, t, g);
      }
    case SendEvent(t, arg) => StepSendEvent(s, Msg(s.next, Other(t.side), Evt, ID_UNKNOWN, ID_UNKNOWN, arg), g);
    case DispatchEvent(t, m) => StepDispatchEvent(s, t, m, g);
    case FinishEvent(t) => StepFinishEvent(s, t, g);
    case Arrive(m) => g' := StepArrive(s, m, g);
    case Route(side) => g' := StepRoute(s, side, g);
  }

  ghost predicate PoliteRun(tr: seq<State>, es: seq<Step>) {
    IsRun(tr, es) && forall i | 0 <= i < |es| :: Enabled(tr[i], es[i]) && Polite(tr[i], es[i])
  }

  ghost predicate StackRun(a: seq<Stacks>, tr: seq<State>, es: seq<Step>)
    requires PoliteRun(tr, es)
  {
    |a| == |tr| && a[0] == map[] && forall i | 0 <= i < |es| :: StackStep(a[i], Obs(tr[i], es[i]), a[i + 1])
  }

  lemma InitRel(s: State)
    requires Init(s)
    ensures Rel(s, map[])
  {
  }

  /** The talks behind the states of a polite run, up to state n. */
  lemma {:induction false} TalksOfRun(tr: seq<State>, es: seq<Step>, n: nat) returns (gs: seq<Talks>)
    requires PoliteRun(tr, es) && n < |tr|
    ensures |gs| == n + 1 && gs[0] == map[] && forall i | 0 <= i <= n :: Rel(tr[i], gs[i])
    ensures forall i | 0 <= i < n :: StackStep(View(gs[i]), Obs(tr[i], es[i]), View(gs[i + 1]))
  {
    hide Rel, Inv, StackStep, Next, Polite;
    if n == 0 {
      InitRel(tr[0]);
      gs := [map[]];
    } else {
      var hs := TalksOfRun(tr, es, n - 1);
      InvRun(tr, es, n - 1);
      var g' := Simulate(tr[n - 1], es[n - 1], tr[n], hs[n - 1]);
      gs := hs + [g'];
    }
  }

  /** Nested-call refinement: a polite run of the engine, of any length, depth and
      interleaving, is a run of the call stacks that shows the same calls,
      starts, answers and returns, thread by thread and value by value. */
  lemma NestedCallRefinement(tr: seq<State>, es: seq<Step>)
    requires PoliteRun(tr, es)
    ensures exists a :: StackRun(a, tr, es)
  {
    hide Rel, StackStep, Next, Polite;
    var gs := TalksOfRun(tr, es, |es|);
    var a := seq(|gs|, i requires 0 <= i < |gs| => View(gs[i]));
    assert a[0] == View(map[]) == map[];
    assert StackRun(a, tr, es);
  }

  // ------------------------------------------- one token per conversation

  /** A command or response on its way: in the transport, in the receive thread,
      queued for the pool, or in a mailbox. */
  ghost predicate InFlight(s: State, m: Msg) {
    && (m.kind == Cmd || m.kind == Rsp)
    && (|| m in s.net || m in s.pool || s.rx.At(Local) == Some(m) || s.rx.At(Remote) == Some(m)
        || exists c :: c in s.ctx && s.ctx[c].slot == Packet(m))
  }

  /** What a mailbox holds is the token of the conversation of its owner. */
  lemma SlotToken(s: State, g: Talks, c: Cid) returns (p: Tid)
    requires Inv(s) && Rel(s, g) && c in s.ctx && s.ctx[c].slot != Empty
    ensures p in g && s.ctx[c].owner.Some? && InTalk(g, p, s.ctx[c].owner.value)
    ensures s.ctx[c].slot == Handled || (s.ctx[c].slot.Packet? && g[p].tok == InSlot(s.ctx[c].slot.m))
    ensures g[p].calls.Above? && SlotOf(g[p], s.ctx[c].owner.value == p) == s.ctx[c].slot
    ensures c == Cid(PartySide(p, s.ctx[c].owner.value == p), PartyCtx(g[p], s.ctx[c].owner.value == p))
  {
    var t := s.ctx[c].owner.value;
    assert CtxOk(s, c) && Talking(g, t);
    p :| InTalk(g, p, t);
    assert TalkOk(s, p, g[p]);
  }

  lemma TokenInFlight(s: State, g: Talks, p: Tid)
    requires Inv(s) && Rel(s, g) && p in g && HasSome(g[p].tok)
    ensures InFlight(s, g[p].tok.m)
  {
    assert TalkOk(s, p, g[p]);
    var v := g[p];
    if v.tok.InSlot? {
      var ini := TowardsInitiator(v);
      assert s.ctx[Cid(PartySide(p, ini), PartyCtx(v, ini))].slot == Packet(v.tok.m);
    } else if v.tok.InRx? {
      assert v.tok.m.to == Local || v.tok.m.to == Remote;
    }
  }

  lemma InFlightToken(s: State, g: Talks, m: Msg) returns (p: Tid)
    requires Inv(s) && Rel(s, g) && InFlight(s, m)
    ensures p in g && HasMsg(g[p].tok, m)
  {
    if m in s.net {
      p :| Carries(g, p, InNet(m));
    } else if m in s.pool {
      p :| Carries(g, p, InPool(m));
    } else if exists c :: c in s.ctx && s.ctx[c].slot == Packet(m) {
      var c :| c in s.ctx && s.ctx[c].slot == Packet(m);
      p := SlotToken(s, g, c);
    } else {
      assert Carried(g, InRx(m));
      p :| Carries(g, p, InRx(m));
    }
  }

  /** Packet m is the command or the response of the innermost call of p's
      conversation: its kind and value are those of the call, it goes to the side
      of the callee or back to that of the caller, and its ids are the contexts
      that these threads hold. Only the first command leaves the destination
      open. An executing or accepted call has no packet. */
  predicate PacketOf(s: State, p: Tid, cv: Conv, m: Msg) {
    && cv.calls.Above?
    && Caller(p, cv).Some? && var from := Caller(p, cv).value;
    match cv.calls.top.phase
    case Sent(arg) =>
      && m.kind == Cmd && m.data == arg
      && m.to == Other(from.side) && Holds(s, from, m.src)
      && (if cv.calls.below.Bottom? then m.dst == ID_UNKNOWN
          else Callee(p, cv).Some? && Callee(p, cv).value.side == m.to && Holds(s, Callee(p, cv).value, m.dst))
    case Answered(v) => m.kind == Rsp && m.data == v && m.to == from.side && Holds(s, from, m.dst)
    case _ => false
  }

  /** The caller is between entering nrf_rpc_cmd_common and sending. */
  predicate NotYetSent(s: State, p: Tid, cv: Conv) {
    && cv.calls.Above? && cv.calls.top.phase.Sent?
    && Caller(p, cv).Some? && Caller(p, cv).value in s.thr && s.thr[Caller(p, cv).value].pc.Sending?
  }

  ghost predicate Underway(s: State, a: Stacks, p: Tid, m: Msg) {
    p in a && InFlight(s, m) && PacketOf(s, p, a[p], m)
  }

  /** Every packet in flight belongs to exactly one conversation, a conversation
      has at most one, and it has one unless its innermost call is executing,
      accepted or not yet sent. No two packets are for the same context. */
  ghost predicate OneEach(s: State, a: Stacks) {
    && (forall m | InFlight(s, m) :: exists p :: Underway(s, a, p, m))
    && (forall p, q, m | Underway(s, a, p, m) && Underway(s, a, q, m) :: p == q)
    && (forall p, m, n | Underway(s, a, p, m) && Underway(s, a, p, n) :: m == n)
    && (forall p | p in a ::
          && a[p].calls.Above?
          && ((exists m :: Underway(s, a, p, m)) <==>
                (a[p].calls.top.phase.Sent? || a[p].calls.top.phase.Answered?) && !NotYetSent(s, p, a[p])))
    && (forall m, n | InFlight(s, m) && InFlight(s, n) && m.to == n.to && m.dst == n.dst != ID_UNKNOWN :: m == n)
  }

  /** The token is the packet of its conversation, in the terms of the stacks. */
  lemma TokenPacket(s: State, p: Tid, v: Talk)
    requires Inv(s) && TalkOk(s, p, v) && HasSome(v.tok)
    ensures PacketOf(s, p, Conv(v.server, v.calls), v.tok.m) && !NotYetSent(s, p, Conv(v.server, v.calls))
  {
    assert PartyOk(s, p, v, true);
    if v.server.Some? { assert PartyOk(s, v.server.value, v, false); }
  }

  /** Without a token in flight the call is executing, accepted or not yet sent. */
  lemma NoTokenNoPacket(s: State, p: Tid, v: Talk)
    requires Inv(s) && TalkOk(s, p, v) && !HasSome(v.tok)
    ensures v.calls.top.phase.Executing? || v.calls.top.phase.Accepted? || NotYetSent(s, p, Conv(v.server, v.calls))
  {
    assert PartyOk(s, p, v, true);
    if v.server.Some? { assert PartyOk(s, v.server.value, v, false); }
  }

  /** The ids in a packet name a thread of its conversation. */
  lemma PacketParty(s: State, p: Tid, cv: Conv, m: Msg) returns (t: Tid)
    requires PacketOf(s, p, cv, m)
    ensures Party(p, cv.server, t)
    ensures m.kind == Cmd ==> t.side == Other(m.to) && Holds(s, t, m.src)
    ensures m.kind == Rsp ==> t.side == m.to && Holds(s, t, m.dst)
  {
    t := Caller(p, cv).value;
  }

  lemma AddressedParty(s: State, p: Tid, cv: Conv, m: Msg) returns (t: Tid)
    requires PacketOf(s, p, cv, m) && m.dst != ID_UNKNOWN
    ensures Party(p, cv.server, t) && t.side == m.to && Holds(s, t, m.dst)
  {
    t := if m.kind == Rsp then Caller(p, cv).value else Callee(p, cv).value;
  }

  lemma OneHolder(s: State, t: Tid, u: Tid, n: nat)
    requires Inv(s) && Holds(s, t, n) && Holds(s, u, n) && t.side == u.side
    ensures t == u
  {
    assert ThreadOk(s, t) && ThreadOk(s, u);
  }

  /** A packet in flight is the token of each conversation it fits. */
  lemma UnderwayToken(s: State, g: Talks, p: Tid, m: Msg)
    requires Inv(s) && Rel(s, g) && Underway(s, View(g), p, m)
    ensures p in g && HasMsg(g[p].tok, m)
  {
    hide TalkOk, PacketOf, Inv, NoStray, OthersQuiet;
    var q := InFlightToken(s, g, m);
    assert TalkOk(s, q, g[q]);
    TokenPacket(s, q, g[q]);
    var t := PacketParty(s, p, View(g)[p], m);
    var u := PacketParty(s, q, View(g)[q], m);
    OneHolder(s, t, u, if m.kind == Cmd then m.src else m.dst);
    assert InTalk(g, p, t) && InTalk(g, q, t);
  }

  /** Two packets for one context are one. */
  lemma OneAddressee(s: State, g: Talks, m: Msg, n: Msg)
    requires Inv(s) && Rel(s, g) && InFlight(s, m) && InFlight(s, n) && m.to == n.to && m.dst == n.dst != ID_UNKNOWN
    ensures m == n
  {
    hide TalkOk, PacketOf, Inv, NoStray, OthersQuiet;
    var p := InFlightToken(s, g, m);
    var q := InFlightToken(s, g, n);
    assert TalkOk(s, p, g[p]) && TalkOk(s, q, g[q]);
    TokenPacket(s, p, g[p]);
    TokenPacket(s, q, g[q]);
    var t := AddressedParty(s, p, View(g)[p], m);
    var u := AddressedParty(s, q, View(g)[q], n);
    OneHolder(s, t, u, m.dst);
    assert InTalk(g, p, t) && InTalk(g, q, t);
  }

  /** A conversation has its packet exactly when its call is on the way. */
  lemma PacketWhen(s: State, g: Talks, p: Tid)
    requires Inv(s) && Rel(s, g) && p in g
    ensures g[p].calls.Above?
    ensures (exists m :: Underway(s, View(g), p, m)) <==>
              (g[p].calls.top.phase.Sent? || g[p].calls.top.phase.Answered?) && !NotYetSent(s, p, View(g)[p])
  {
    assert TalkOk(s, p, g[p]);
    hide TalkOk, Inv, Rel, InFlight;
    if HasSome(g[p].tok) {
      TokenInFlight(s, g, p);
      TokenPacket(s, p, g[p]);
      assert Underway(s, View(g), p, g[p].tok.m);
    } else {
      NoTokenNoPacket(s, p, g[p]);
      if m :| Underway(s, View(g), p, m) { UnderwayToken(s, g, p, m); }
    }
  }

  lemma TokensOne(s: State, g: Talks)
    requires Inv(s) && Rel(s, g)
    ensures OneEach(s, View(g))
  {
    hide TalkOk, Inv, PacketOf, InFlight, OthersQuiet, NoStray;
    var a := View(g);
    forall m | InFlight(s, m) ensures exists p :: Underway(s, a, p, m) {
      var p := InFlightToken(s, g, m);
      assert TalkOk(s, p, g[p]);
      TokenPacket(s, p, g[p]);
      assert Underway(s, a, p, m);
    }
    forall p, m | Underway(s, a, p, m) ensures p in g && HasMsg(g[p].tok, m) { UnderwayToken(s, g, p, m); }
    forall p | p in a
      ensures a[p].calls.Above?
      ensures (exists m :: Underway(s, a, p, m)) <==>
                (a[p].calls.top.phase.Sent? || a[p].calls.top.phase.Answered?) && !NotYetSent(s, p, a[p])
    {
      PacketWhen(s, g, p);
    }
    forall m, n | InFlight(s, m) && InFlight(s, n) && m.to == n.to && m.dst == n.dst != ID_UNKNOWN ensures m == n {
      OneAddressee(s, g, m, n);
    }
  }

  /** Single token: a polite run has one run of the call stacks such that in every
      state the packets in flight and the calls on the way correspond one to one. */
  lemma SingleToken(tr: seq<State>, es: seq<Step>)
    requires PoliteRun(tr, es)
    ensures exists a: seq<Stacks> :: StackRun(a, tr, es) && forall i | 0 <= i < |tr| :: OneEach(tr[i], a[i])
  {
    hide StackStep, Next, Polite, Rel, OneEach;
    var gs := TalksOfRun(tr, es, |es|);
    var a := seq(|gs|, k requires 0 <= k < |gs| => View(gs[k]));
    assert a[0] == View(map[]) == map[];
    assert StackRun(a, tr, es);
    forall i | 0 <= i < |tr| ensures OneEach(tr[i], a[i]) {
      InvRun(tr, es, i);
      TokensOne(tr[i], gs[i]);
    }
  }

  /** The receive thread never finds an untaken message in the mailbox it is about
      to fill, so one slot is enough: the addressed context exists, is in use, and
      its owner waits. */
  lemma MailboxNeverOverwritten(tr: seq<State>, es: seq<Step>, i: nat, side: Side)
    requires PoliteRun(tr, es) && i < |tr| && CanRoute(tr[i], side) && Addressed(tr[i].rx.At(side).value)
    ensures var c := Cid(side, tr[i].rx.At(side).value.dst);
            && c in tr[i].ctx && tr[i].ctx[c].slot == Empty && tr[i].ctx[c].uses > 0
            && exists t :: Holds(tr[i], t, c.n) && t.side == side && InWait(tr[i], t)
  {
    hide StackStep, Next, Polite;
    var gs := TalksOfRun(tr, es, i);
    InvRun(tr, es, i);
    ReceiverReady(tr[i], gs[i], side);
  }

  lemma ReceiverReady(s: State, g: Talks, side: Side)
    requires Inv(s) && Rel(s, g) && CanRoute(s, side) && Addressed(s.rx.At(side).value)
    ensures var c := Cid(side, s.rx.At(side).value.dst);
            && c in s.ctx && s.ctx[c].slot == Empty && s.ctx[c].uses > 0
            && exists t :: Holds(s, t, c.n) && t.side == side && InWait(s, t)
  {
    var m := s.rx.At(side).value;
    var p :| Carries(g, p, InRx(m));
    var v := g[p];
    hide TalkOk;
    assert TalkOk(s, p, v);
    TalkDepth(s, p, v, m);
    var t := DestOf(s, p, v);
    TalkAddressed(s, side, m, p, v, t);
    assert InWait(s, t);
  }

  /** Only the command of a new conversation leaves the destination open. */
  lemma TalkDepth(s: State, p: Tid, v: Talk, m: Msg)
    requires TalkOk(s, p, v) && v.tok == InRx(m) && Addressed(m)
    ensures v.calls.Above? && (v.calls.top.phase.Answered? || v.calls.below.Above?)
  {
  }

  // ------------------------------------------- who is to move

  /** Thread t runs a decoder, can send or can wake up. */
  predicate Ready(s: State, t: Tid) {
    InSrv(s, t) || CanSend(s, t) || CanTake(s, t)
  }

  /** While the packet of a conversation is with neither transport, receive thread
      nor pool, one of its two threads is ready. */
  lemma RestingReady(s: State, p: Tid, v: Talk) returns (t: Tid)
    requires Inv(s) && TalkOk(s, p, v) && (v.tok.NoToken? || v.tok.Unsent? || v.tok.InHandled? || v.tok.InSlot?)
    ensures Party(p, v.server, t) && Ready(s, t)
  {
    var ini := v.calls.top.byInitiator;
    var toInit := if v.tok.NoToken? then !ini else if v.tok.InSlot? then TowardsInitiator(v) else ini;
    t := if toInit then p else v.server.value;
    assert ThreadOk(s, t) && PartyOk(s, t, v, toInit);
  }

  lemma TokenPlaced(s: State, p: Tid, v: Talk)
    requires TalkOk(s, p, v)
    ensures Placed(s, v.tok)
  {
  }

  /** The receive thread can go on with the packet of a conversation, or a thread of
      its side keeps it from the mailbox and runs a decoder. */
  lemma RxDecoder(s: State, g: Talks, p: Tid, m: Msg)
    requires Inv(s) && Rel(s, g) && p in g && g[p].tok == InRx(m)
    ensures CanRoute(s, m.to) || exists t :: InTalk(g, p, t) && InSrv(s, t) && t.side == m.to
  {
    hide TalkOk;
    var v := g[p];
    assert TalkOk(s, p, v);
    if !CanRoute(s, m.to) {
      RxPlaced(s, p, v, m);
      TalkDepth(s, p, v, m);
      var t := DestOf(s, p, v);
      BusyReceiver(s, p, v, m, t);
      assert InTalk(g, p, t) && InSrv(s, t);
    }
  }

  lemma RxPlaced(s: State, p: Tid, v: Talk, m: Msg)
    requires TalkOk(s, p, v) && v.tok == InRx(m)
    ensures s.rx.At(m.to) == Some(m)
  {
  }

  /** A thread that keeps the receive thread from its mailbox is still inside the
      decoder that has answered. */
  lemma BusyReceiver(s: State, p: Tid, v: Talk, m: Msg, t: Tid)
    requires v.calls.Above? && TalkOk(s, p, v) && v.tok == InRx(m) && !CanRoute(s, m.to)
    requires Addressee(p, v, t) && Party(p, v.server, t) && t in s.thr && ThreadOk(s, t)
    ensures InSrv(s, t) && t.side == m.to
  {
  }
}
