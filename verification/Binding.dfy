/** The group binding handshake between two peers: INIT packets in an unreliable,
    reordering transport, the receive thread, the single static internal_task slot
    with its consumed event, and the pool threads that run the tasks. */
module Binding {
  import opened Common
  import opened Groups

  /** An INIT packet that passed the parser and the version check. */
  datatype InitMsg = InitMsg(to: Side, strid: Strid, src: nat, dst: nat)

  /** One peer. `waiting`: the receive thread waits for internal_task_consumed;
      `queued`: the slot was passed to the pool and not copied yet; `running`: the
      copies that pool threads work on. `posted`, `copied`, `finished`, `signals`
      are history (`signals` since the last unbind). */
  datatype Node = Node(
    peer: Peer,
    slot: Task,
    queued: bool,
    consumed: bool,
    waiting: bool,
    running: multiset<Task>,
    posted: seq<Task>,
    copied: seq<Task>,
    finished: multiset<Task>,
    signals: nat)

  /** `sent` is history: the strids for which a side has sent an INIT. */
  datatype Net = Net(node: PerSide<Node>, wire: multiset<InitMsg>, sent: set<(Side, Strid)>)

  datatype Move =
    | SendInit(side: Side, i: nat)
    | Recv(m: InitMsg)
    | RecvBad(side: Side, err: int)
    | Copy(side: Side)
    | Wake(side: Side)
    | RunTask(side: Side, task: Task)
    | Lose(m: InitMsg)
    | Unbind(side: Side)

  predicate IsReply(task: Task) {
    task.GroupInit? && task.reply
  }

  /** The packet group_init_send builds for group i. */
  function InitOf(n: Node, side: Side, i: nat): InitMsg
    requires i < |n.peer.groups| && i < |n.peer.dst|
  {
    InitMsg(Other(side), n.peer.groups[i].strid, i, n.peer.dst[i])
  }

  predicate CanMove(w: Net, v: Move) {
    match v
    case SendInit(side, i) => i < |w.node.At(side).peer.groups| && i < |w.node.At(side).peer.dst|
    case Recv(m) => m in w.wire && !w.node.At(m.to).waiting && |w.node.At(m.to).peer.dst| == |w.node.At(m.to).peer.groups|
    case RecvBad(side, _) => !w.node.At(side).waiting
    case Copy(side) => w.node.At(side).queued
    case Wake(side) => w.node.At(side).waiting && w.node.At(side).consumed
    case RunTask(side, task) =>
      && task in w.node.At(side).running
      && (IsReply(task) ==> task.group < |w.node.At(side).peer.groups| && task.group < |w.node.At(side).peer.dst|)
    case Lose(m) => m in w.wire
    case Unbind(_) => true
  }

  /** The receive thread writes the static slot, sends it to the pool and waits. */
  function Post(n: Node, task: Task): Node {
    n.(slot := task, queued := true, waiting := true, posted := n.posted + [task],
       signals := n.signals + One(task.GroupInit? && task.signal))
  }

  function Received(n: Node, m: InitMsg): Node
    requires |n.peer.dst| == |n.peer.groups|
  {
    match Find(n.peer.groups, m.strid)
    case None => Post(n, RecvError(EFAULT, None))
    case Some(i) =>
      var (peer, task) := Handle(n.peer, i, m.src, m.dst);
      if task.Some? then Post(n.(peer := peer), task.value) else n.(peer := peer)
  }

  /** A pool thread copies the slot and sets the consumed event. */
  function Copied(n: Node): Node {
    n.(queued := false, consumed := true, running := n.running + multiset{n.slot}, copied := n.copied + [n.slot])
  }

  function Woken(n: Node): Node {
    n.(waiting := false, consumed := false)
  }

  function Ran(n: Node, task: Task): Node {
    n.(running := n.running - multiset{task}, finished := n.finished + multiset{task})
  }

  function Unbound(n: Node): Node {
    n.(peer := n.peer.(dst := seq(|n.peer.dst|, _ => ID_UNKNOWN), bound := 0), signals := 0)
  }

  function Transmit(w: Net, side: Side, m: InitMsg): Net {
    w.(wire := w.wire + multiset{m}, sent := w.sent + {(side, m.strid)})
  }

  function Moved(w: Net, v: Move): Net
    requires CanMove(w, v)
  {
    match v
    case SendInit(side, i) => Transmit(w, side, InitOf(w.node.At(side), side, i))
    case Recv(m) => w.(wire := w.wire - multiset{m}, node := w.node.With(m.to, Received(w.node.At(m.to), m)))
    case RecvBad(side, err) => w.(node := w.node.With(side, Post(w.node.At(side), RecvError(err, None))))
    case Copy(side) => w.(node := w.node.With(side, Copied(w.node.At(side))))
    case Wake(side) => w.(node := w.node.With(side, Woken(w.node.At(side))))
    case RunTask(side, task) =>
      var r := w.(node := w.node.With(side, Ran(w.node.At(side), task)));
      if IsReply(task) then Transmit(r, side, InitOf(w.node.At(side), side, task.group)) else r
    case Lose(m) => w.(wire := w.wire - multiset{m})
    case Unbind(side) => w.(node := w.node.With(side, Unbound(w.node.At(side))))
  }

  predicate NodeStart(n: Node) {
    && |n.peer.groups| <= 255 && |n.peer.dst| == |n.peer.groups| && DistinctStrids(n.peer.groups)
    && (forall i | 0 <= i < |n.peer.dst| :: n.peer.dst[i] == ID_UNKNOWN)
    && n == Node(n.peer.(bound := 0), n.slot, false, false, false, multiset{}, [], [], multiset{}, 0)
  }

  predicate Start(w: Net) {
    NodeStart(w.node.At(Local)) && NodeStart(w.node.At(Remote)) && w.wire == multiset{} && w.sent == {}
  }

  ghost predicate IsRun(tr: seq<Net>, vs: seq<Move>) {
    && |tr| == |vs| + 1 && Start(tr[0])
    && forall i | 0 <= i < |vs| :: CanMove(tr[i], vs[i]) && tr[i + 1] == Moved(tr[i], vs[i])
  }

  // ------------------------------------------------ one peer: slot, counter, signal

  /** The slot protocol, the task ledger and the exact counter. */
  ghost predicate NodeOk(n: Node) {
    && CounterOk(n.peer)
    && (n.queued ==> n.waiting && !n.consumed) && (n.consumed ==> n.waiting)
    && (n.waiting ==> n.queued || n.consumed)
    && n.posted == (if n.queued then n.copied + [n.slot] else n.copied)
    && multiset(n.copied) == n.running + n.finished
    && (forall t: Task | t in n.posted && t.GroupInit? :: t.group < |n.peer.groups|)
    && n.signals == One(AllReady(n.peer))
  }

  lemma PostOk(n: Node, n0: Node, task: Task)
    requires NodeOk(n0) && !n0.waiting && n == n0.(peer := n.peer) && CounterOk(n.peer) && n.peer.groups == n0.peer.groups
    requires task.GroupInit? ==> task.group < |n.peer.groups|
    requires One(AllReady(n.peer)) == One(AllReady(n0.peer)) + One(task.GroupInit? && task.signal)
    ensures NodeOk(Post(n, task))
  {
  }

  lemma ReceivedOk(n: Node, m: InitMsg)
    requires NodeOk(n) && !n.waiting && m.src < ID_UNKNOWN
    ensures NodeOk(Received(n, m)) && Received(n, m).peer.groups == n.peer.groups
  {
    match Find(n.peer.groups, m.strid)
    case None => PostOk(n, n, RecvError(EFAULT, None));
    case Some(i) =>
      HandleExact(n.peer, i, m.src, m.dst);
      var (peer, task) := Handle(n.peer, i, m.src, m.dst);
      if task.Some? { PostOk(n.(peer := peer), n, task.value); }
  }

  lemma CopiedOk(n: Node)
    requires NodeOk(n) && n.queued
    ensures NodeOk(Copied(n))
  {
  }

  lemma RanOk(n: Node, task: Task)
    requires NodeOk(n) && task in n.running
    ensures NodeOk(Ran(n, task))
  {
  }

  lemma UnboundOk(n: Node)
    requires NodeOk(n)
    ensures NodeOk(Unbound(n))
  {
    NoneBound(n.peer.groups, Unbound(n).peer.dst);
  }

  // ------------------------------------------------ both peers: agreement

  /** The group of the other side with the same strid. */
  function Namesake(w: Net, side: Side, i: nat): Option<nat>
    requires i < |w.node.At(side).peer.groups|
  {
    Find(w.node.At(Other(side)).peer.groups, w.node.At(side).peer.groups[i].strid)
  }

  /** A packet carries the sender's id for its strid, and the receiver's or none. */
  ghost predicate MsgOk(w: Net, m: InitMsg) {
    && Find(w.node.At(Other(m.to)).peer.groups, m.strid) == Some(m.src)
    && (m.dst == ID_UNKNOWN || Find(w.node.At(m.to).peer.groups, m.strid) == Some(m.dst))
  }

  /** A known remote id is the id of the namesake. */
  ghost predicate Agrees(w: Net, side: Side) {
    forall i | 0 <= i < |w.node.At(side).peer.groups| && i < |w.node.At(side).peer.dst| ::
      w.node.At(side).peer.dst[i] == ID_UNKNOWN || Namesake(w, side, i) == Some(w.node.At(side).peer.dst[i])
  }

  ghost predicate BindInv(w: Net) {
    && NodeOk(w.node.At(Local)) && NodeOk(w.node.At(Remote))
    && Agrees(w, Local) && Agrees(w, Remote)
    && forall m | m in w.wire :: MsgOk(w, m)
  }

  /** A step keeps the constant part of both peers. */
  predicate SameGroups(w: Net, w': Net) {
    && w'.node.At(Local).peer.groups == w.node.At(Local).peer.groups
    && w'.node.At(Remote).peer.groups == w.node.At(Remote).peer.groups
  }

  /** Only the node of one side changes, and its ids not at all. */
  lemma IdsKept(w: Net, w': Net, side: Side)
    requires BindInv(w) && w'.node.At(Other(side)) == w.node.At(Other(side)) && NodeOk(w'.node.At(side))
    requires w'.node.At(side).peer.groups == w.node.At(side).peer.groups
    requires w'.node.At(side).peer.dst == w.node.At(side).peer.dst
    requires forall m | m in w'.wire :: m in w.wire || MsgOk(w, m)
    ensures BindInv(w') && SameGroups(w, w')
  {
    assert side == Local || side == Remote;
    forall m | m in w'.wire ensures MsgOk(w', m) { assert MsgOk(w, m); assert m.to == side || m.to == Other(side); }
    assert Agrees(w, Local) && Agrees(w, Remote);
  }

  lemma InitMsgOk(w: Net, side: Side, i: nat)
    requires BindInv(w) && i < |w.node.At(side).peer.groups|
    ensures MsgOk(w, InitOf(w.node.At(side), side, i)) && i < ID_UNKNOWN
  {
    assert side == Local || side == Remote;
    FindOwn(w.node.At(side).peer.groups, i);
  }

  lemma NodeSizes(n: Node)
    requires NodeOk(n)
    ensures |n.peer.dst| == |n.peer.groups| <= 255 && DistinctStrids(n.peer.groups)
  {
  }

  /** The id learned from a packet is the namesake's. */
  lemma RecvAgrees(w: Net, m: InitMsg)
    requires BindInv(w) && CanMove(w, Recv(m))
    ensures Agrees(Moved(w, Recv(m)), m.to)
  {
    hide NodeOk, PeerOk;
    var w' := Moved(w, Recv(m));
    var n := w.node.At(m.to);
    assert m.to == Local || m.to == Remote;
    NodeSizes(n);
    assert MsgOk(w, m) && Agrees(w, m.to);
    forall i | 0 <= i < |n.peer.groups|
      ensures w'.node.At(m.to).peer.dst[i] == ID_UNKNOWN || Namesake(w', m.to, i) == Some(w'.node.At(m.to).peer.dst[i])
    {
      assert Namesake(w', m.to, i) == Namesake(w, m.to, i);
    }
  }

  /** One node changes and agrees again; packets only disappear. */
  lemma OneAgrees(w: Net, w': Net, side: Side)
    requires BindInv(w) && w'.node.At(Other(side)) == w.node.At(Other(side)) && w'.wire <= w.wire
    requires NodeOk(w'.node.At(side)) && w'.node.At(side).peer.groups == w.node.At(side).peer.groups
    requires Agrees(w', side)
    ensures BindInv(w') && SameGroups(w, w')
  {
    hide NodeOk;
    assert side == Local || side == Remote;
    assert Agrees(w, Other(side));
    assert Agrees(w', Other(side));
    forall x | x in w'.wire ensures MsgOk(w', x) { assert MsgOk(w, x); assert x.to == side || x.to == Other(side); }
  }

  lemma RecvOk(w: Net, m: InitMsg)
    requires BindInv(w) && CanMove(w, Recv(m))
    ensures BindInv(Moved(w, Recv(m))) && SameGroups(w, Moved(w, Recv(m)))
  {
    RecvAgrees(w, m);
    assert m.to == Local || m.to == Remote;
    assert MsgOk(w, m) && NodeOk(w.node.At(m.to));
    NodeSizes(w.node.At(Other(m.to)));
    hide NodeOk, PeerOk, Received, BindInv, Agrees, Namesake;
    ReceivedOk(w.node.At(m.to), m);
    OneAgrees(w, Moved(w, Recv(m)), m.to);
  }

  lemma UnbindOk(w: Net, side: Side)
    requires BindInv(w)
    ensures BindInv(Moved(w, Unbind(side))) && SameGroups(w, Moved(w, Unbind(side)))
  {
    var w' := Moved(w, Unbind(side));
    assert side == Local || side == Remote;
    UnboundOk(w.node.At(side));
    assert Agrees(w, Other(side));
    assert Agrees(w', side) && Agrees(w', Other(side));
    forall x | x in w'.wire ensures MsgOk(w', x) { assert MsgOk(w, x); assert x.to == side || x.to == Other(side); }
  }

  lemma RunOk(w: Net, side: Side, task: Task)
    requires BindInv(w) && CanMove(w, RunTask(side, task))
    ensures BindInv(Moved(w, RunTask(side, task))) && SameGroups(w, Moved(w, RunTask(side, task)))
  {
    hide Agrees, MsgOk, NodeOk;
    assert side == Local || side == Remote;
    RanOk(w.node.At(side), task);
    if IsReply(task) { InitMsgOk(w, side, task.group); }
    IdsKept(w, Moved(w, RunTask(side, task)), side);
  }

  lemma BindStep(w: Net, v: Move)
    requires BindInv(w) && CanMove(w, v)
    ensures BindInv(Moved(w, v)) && SameGroups(w, Moved(w, v))
  {
    hide Agrees, MsgOk, AllReady;
    var w' := Moved(w, v);
    match v
    case SendInit(side, i) =>
      InitMsgOk(w, side, i);
      IdsKept(w, w', side);
    case Recv(m) => RecvOk(w, m);
    case RecvBad(side, err) =>
      assert side == Local || side == Remote;
      PostOk(w.node.At(side), w.node.At(side), RecvError(err, None));
      IdsKept(w, w', side);
    case Copy(side) =>
      assert side == Local || side == Remote;
      CopiedOk(w.node.At(side));
      IdsKept(w, w', side);
    case Wake(side) =>
      assert side == Local || side == Remote;
      IdsKept(w, w', side);
    case RunTask(side, task) => RunOk(w, side, task);
    case Lose(m) => IdsKept(w, w', Local);
    case Unbind(side) => UnbindOk(w, side);
  }

  lemma StartOk(w: Net)
    requires Start(w)
    ensures BindInv(w)
  {
    NoneBound(w.node.At(Local).peer.groups, w.node.At(Local).peer.dst);
    NoneBound(w.node.At(Remote).peer.groups, w.node.At(Remote).peer.dst);
  }

  lemma {:induction false} BindRun(tr: seq<Net>, vs: seq<Move>, i: nat)
    requires IsRun(tr, vs) && i < |tr|
    ensures BindInv(tr[i]) && SameGroups(tr[0], tr[i])
  {
    hide BindInv;
    if i == 0 {
      StartOk(tr[0]);
    } else {
      BindRun(tr, vs, i - 1);
      BindStep(tr[i - 1], vs[i - 1]);
    }
  }

  /** Binding agreement, in every state of every run (loss, reordering and unbind
      included): a known remote id is below the peer's group count and names there
      the group with the same strid, so what a group sends is received by its
      namesake. */
  lemma BindingAgreement(tr: seq<Net>, vs: seq<Move>, k: nat, side: Side, i: nat)
    requires IsRun(tr, vs) && k < |tr| && i < |tr[k].node.At(side).peer.groups|
    ensures |tr[k].node.At(side).peer.dst| == |tr[k].node.At(side).peer.groups|
    ensures var mine, other := tr[k].node.At(side).peer, tr[k].node.At(Other(side)).peer;
            mine.dst[i] != ID_UNKNOWN ==>
              mine.dst[i] < |other.groups| && other.groups[mine.dst[i]].strid == mine.groups[i].strid
  {
    BindRun(tr, vs, k);
    assert side == Local || side == Remote;
    assert Agrees(tr[k], side);
  }

  /** Ready counter, in every state of every run: it is the number of wait-on-init
      groups with a known remote id, never above their total, and since the last
      unbind the ready signal was requested once if all are bound, else never. */
  lemma ReadyCounterExact(tr: seq<Net>, vs: seq<Move>, k: nat, side: Side)
    requires IsRun(tr, vs) && k < |tr|
    ensures var n := tr[k].node.At(side);
            var waiting := set g: nat | g < |n.peer.groups| && n.peer.groups[g].wait;
            && |n.peer.dst| == |n.peer.groups|
            && n.peer.bound == |set g | g in waiting && n.peer.dst[g] != 0xFF| <= |waiting|
            && n.signals == (if waiting != {} && (forall g | g in waiting :: n.peer.dst[g] != 0xFF) then 1 else 0)
  {
    BindRun(tr, vs, k);
    assert side == Local || side == Remote;
    var p := tr[k].node.At(side).peer;
    BoundAtMost(p.groups, p.dst);
    var waiting := set g: nat | g < |p.groups| && p.groups[g].wait;
    assert waiting == Waiting(p.groups);
    assert Bound(p.groups, p.dst) == set g | g in waiting && p.dst[g] != 0xFF;
    if AllReady(p) {
      var g :| 0 <= g < |p.groups| && p.groups[g].wait;
      assert g in waiting;
    } else if waiting != {} {
      var g :| g in waiting;
      assert p.groups[g].wait;
    }
  }

  /** Task handoff, in every state of every run: the slot is rewritten only when
      its last contents have been copied, every posted task is copied once, in
      order and with the contents posted, and every copy runs once. */
  lemma TaskHandoff(tr: seq<Net>, vs: seq<Move>, k: nat, side: Side)
    requires IsRun(tr, vs) && k < |tr|
    ensures var n := tr[k].node.At(side);
            && n.posted == (if n.queued then n.copied + [n.slot] else n.copied)
            && multiset(n.copied) == n.running + n.finished
            && (!n.waiting ==> !n.queued && !n.consumed)
            && (!n.queued && n.running == multiset{} ==> multiset(n.posted) == n.finished)
    ensures k < |vs| && tr[k + 1].node.At(side).slot != tr[k].node.At(side).slot ==> !tr[k].node.At(side).queued
  {
    BindRun(tr, vs, k);
    assert side == Local || side == Remote;
    var n := tr[k].node.At(side);
    if k < |vs| {
      SlotWrites(tr[k], vs[k], side);
    }
  }

  lemma SlotWrites(w: Net, v: Move, side: Side)
    requires BindInv(w) && CanMove(w, v)
    ensures Moved(w, v).node.At(side).slot != w.node.At(side).slot ==> !w.node.At(side).queued
  {
    assert side == Local || side == Remote;
    match v
    case Recv(m) => assert side == m.to || side == Other(m.to);
    case RecvBad(x, _) => assert side == x || side == Other(x);
    case Copy(x) => assert side == x || side == Other(x);
    case Wake(x) => assert side == x || side == Other(x);
    case RunTask(x, _) => assert side == x || side == Other(x);
    case Unbind(x) => assert side == x || side == Other(x);
    case _ =>
  }

  // ------------------------------------------------ both peers: convergence

  predicate Known(w: Net, side: Side, i: nat) {
    i < |w.node.At(side).peer.dst| && w.node.At(side).peer.dst[i] != ID_UNKNOWN
  }

  predicate Carries(m: InitMsg, to: Side, strid: Strid) {
    m.to == to && m.strid == strid
  }

  ghost predicate OnWire(w: Net, to: Side, strid: Strid) {
    exists m :: m in w.wire && Carries(m, to, strid)
  }

  predicate AnswersFor(task: Task, i: nat) {
    IsReply(task) && task.group == i
  }

  /** A reply for group i is posted or running. */
  ghost predicate ReplyDue(n: Node, i: nat) {
    (n.queued && AnswersFor(n.slot, i)) || exists t :: t in n.running && AnswersFor(t, i)
  }

  /** Groups i of `side` and j of the other side have the same strid. */
  predicate Twins(w: Net, side: Side, i: nat, j: nat) {
    && i < |w.node.At(side).peer.groups| && j < |w.node.At(Other(side)).peer.groups|
    && w.node.At(side).peer.groups[i].strid == w.node.At(Other(side)).peer.groups[j].strid
  }

  /** What an INIT of `side` for group i sets in motion. */
  ghost predicate Progress(w: Net, side: Side, i: nat, j: nat)
    requires Twins(w, side, i, j)
  {
    var x := w.node.At(side).peer.groups[i].strid;
    && ((side, x) in w.sent ==> OnWire(w, Other(side), x) || Known(w, Other(side), j))
    && (Known(w, side, i) ==> Known(w, Other(side), j) || OnWire(w, Other(side), x) || ReplyDue(w.node.At(side), i))
  }

  ghost predicate Converging(w: Net) {
    && (forall side: Side, i: nat, j: nat | Twins(w, side, i, j) :: Progress(w, side, i, j))
    && (forall m | m in w.wire && m.dst != ID_UNKNOWN :: Known(w, Other(m.to), m.src))
  }

  predicate Lossless(v: Move) {
    !v.Lose? && !v.Unbind?
  }

  ghost predicate RepliesKept(w: Net, w': Net, side: Side) {
    forall i | ReplyDue(w.node.At(side), i) :: ReplyDue(w'.node.At(side), i)
  }

  /** A step of one side that neither takes a packet from the wire nor changes an
      id, and forgets no reply. */
  lemma ConvergeQuiet(w: Net, w': Net, side: Side)
    requires Converging(w) && SameGroups(w, w') && w'.sent == w.sent && w'.wire == w.wire
    requires w'.node.At(Other(side)) == w.node.At(Other(side)) && w'.node.At(side).peer.dst == w.node.At(side).peer.dst
    requires RepliesKept(w, w', side)
    ensures Converging(w')
  {
    forall x: Side, i: nat ensures Known(w', x, i) <==> Known(w, x, i) { assert x == side || x == Other(side); }
    forall x: Side, i: nat, j: nat | Twins(w', x, i, j) ensures Progress(w', x, i, j) {
      assert x == Local || x == Remote;
      assert Twins(w, x, i, j) && Progress(w, x, i, j);
      assert x == side || x == Other(side);
      assert OnWire(w, Other(x), w.node.At(x).peer.groups[i].strid) ==> OnWire(w', Other(x), w.node.At(x).peer.groups[i].strid);
    }
  }

  lemma ConvergeSend(w: Net, side: Side, i: nat)
    requires Converging(w) && i < |w.node.At(side).peer.groups| && i < |w.node.At(side).peer.dst|
    ensures Converging(Transmit(w, side, InitOf(w.node.At(side), side, i)))
  {
    var m := InitOf(w.node.At(side), side, i);
    var w' := Transmit(w, side, m);
    assert m in w'.wire && Carries(m, Other(side), m.strid);
    forall to, x | OnWire(w, to, x) ensures OnWire(w', to, x) {
      var k :| k in w.wire && Carries(k, to, x);
      assert k in w'.wire;
    }
    forall x: Side, a: nat, b: nat | Twins(w', x, a, b) ensures Progress(w', x, a, b) {
      assert Twins(w, x, a, b) && Progress(w, x, a, b);
    }
    forall k | k in w'.wire && k.dst != ID_UNKNOWN ensures Known(w', Other(k.to), k.src) {
      assert k == m || k in w.wire;
    }
  }

  /** Receiving binds the group; a packet that does not know the receiver's id
      leaves a reply behind. */
  lemma ReceivedFacts(n: Node, m: InitMsg)
    requires NodeOk(n) && !n.waiting
    ensures forall i | ReplyDue(n, i) :: ReplyDue(Received(n, m), i)
    ensures match Find(n.peer.groups, m.strid)
            case None => Received(n, m).peer == n.peer
            case Some(r) =>
              && Received(n, m).peer.dst == n.peer.dst[r := m.src]
              && (m.dst == ID_UNKNOWN ==> ReplyDue(Received(n, m), r))
  {
    forall i | ReplyDue(n, i) ensures ReplyDue(Received(n, m), i) {
      var t :| t in n.running && AnswersFor(t, i);
      assert t in Received(n, m).running;
    }
  }

  /** The pair of the received packet: now bound here, and there it is bound, or
      an INIT or a reply is under way. */
  lemma RecvPair(w: Net, w': Net, m: InitMsg, r: nat, b: nat)
    requires Converging(w) && SameGroups(w, w') && Twins(w, m.to, r, b) && Twins(w, Other(m.to), b, r)
    requires w'.sent == w.sent && w'.wire == w.wire - multiset{m} && m in w.wire
    requires m.src == b && Known(w', m.to, r) && m.strid == w.node.At(m.to).peer.groups[r].strid
    requires w'.node.At(Other(m.to)) == w.node.At(Other(m.to))
    requires m.dst == ID_UNKNOWN ==> ReplyDue(w'.node.At(m.to), r)
    ensures Twins(w', m.to, r, b) && Progress(w', m.to, r, b)
    ensures Twins(w', Other(m.to), b, r) && Progress(w', Other(m.to), b, r)
  {
    var side := m.to;
    assert side == Local || side == Remote;
    var x := m.strid;
    assert Progress(w, side, r, b);
    if OnWire(w, Other(side), x) {
      var k :| k in w.wire && Carries(k, Other(side), x);
      assert k in w'.wire;
    }
    assert m.dst != ID_UNKNOWN ==> Known(w, Other(side), b);
    assert Known(w, Other(side), b) <==> Known(w', Other(side), b);
  }

  /** A pair with another strid does not notice the packet. */
  lemma OtherPair(w: Net, w': Net, m: InitMsg, x: Side, a: nat, b: nat)
    requires Converging(w) && SameGroups(w, w') && Twins(w, x, a, b)
    requires w'.sent == w.sent && w'.wire == w.wire - multiset{m} && w.node.At(x).peer.groups[a].strid != m.strid
    requires Known(w, x, a) <==> Known(w', x, a)
    requires Known(w, Other(x), b) <==> Known(w', Other(x), b)
    requires ReplyDue(w.node.At(x), a) ==> ReplyDue(w'.node.At(x), a)
    ensures Twins(w', x, a, b) && Progress(w', x, a, b)
  {
    assert x == Local || x == Remote;
    var strid := w.node.At(x).peer.groups[a].strid;
    assert Progress(w, x, a, b);
    if OnWire(w, Other(x), strid) {
      var k :| k in w.wire && Carries(k, Other(x), strid);
      assert k in w'.wire;
    }
  }

  /** How receiving m changes what is known, index by index. */
  lemma RecvKnown(w: Net, m: InitMsg)
    requires BindInv(w) && CanMove(w, Recv(m))
    ensures var w' := Moved(w, Recv(m));
            && SameGroups(w, w') && w'.node.At(Other(m.to)) == w.node.At(Other(m.to))
            && (forall i | ReplyDue(w.node.At(m.to), i) :: ReplyDue(w'.node.At(m.to), i))
            && (match Find(w.node.At(m.to).peer.groups, m.strid)
                case None => forall x: Side, i: nat :: Known(w, x, i) <==> Known(w', x, i)
                case Some(r) =>
                  && Known(w', m.to, r) && (m.dst == ID_UNKNOWN ==> ReplyDue(w'.node.At(m.to), r))
                  && Twins(w, m.to, r, m.src)
                  && forall x: Side, i: nat | !(x == m.to && i == r) :: Known(w, x, i) <==> Known(w', x, i))
  {
    hide NodeOk, ReplyDue, Agrees;
    var w' := Moved(w, Recv(m));
    assert m.to == Local || m.to == Remote;
    BindStep(w, Recv(m));
    ReceivedFacts(w.node.At(m.to), m);
    assert MsgOk(w, m);
    NodeSizes(w.node.At(m.to));
    NodeSizes(w.node.At(Other(m.to)));
    forall x: Side, i: nat
      ensures !(x == m.to && Find(w.node.At(m.to).peer.groups, m.strid) == Some(i)) ==> (Known(w, x, i) <==> Known(w', x, i))
    {
      assert x == m.to || x == Other(m.to);
    }
  }

  lemma ConvergeRecv(w: Net, m: InitMsg)
    requires BindInv(w) && Converging(w) && CanMove(w, Recv(m))
    ensures Converging(Moved(w, Recv(m)))
  {
    hide BindInv, ReplyDue, OnWire, Known;
    var w' := Moved(w, Recv(m));
    var side := m.to;
    RecvKnown(w, m);
    forall x: Side, a: nat, b: nat | Twins(w', x, a, b) ensures Progress(w', x, a, b) {
      RecvAnyPair(w, m, x, a, b);
    }
    forall k | k in w'.wire && k.dst != ID_UNKNOWN ensures Known(w', Other(k.to), k.src) {
      assert k in w.wire && Known(w, Other(k.to), k.src);
      assert Find(w.node.At(m.to).peer.groups, m.strid).Some? ==>
          Known(w', m.to, Find(w.node.At(m.to).peer.groups, m.strid).value);
    }
  }

  lemma RecvAnyPair(w: Net, m: InitMsg, x: Side, a: nat, b: nat)
    requires BindInv(w) && Converging(w) && CanMove(w, Recv(m)) && Twins(Moved(w, Recv(m)), x, a, b)
    ensures Progress(Moved(w, Recv(m)), x, a, b)
  {
    hide NodeOk, Converging, Progress, ReplyDue, OnWire, Agrees, Received, Known;
    var w' := Moved(w, Recv(m));
    RecvKnown(w, m);
    assert x == Local || x == Remote;
    assert m.to == x || m.to == Other(x);
    NodeSizes(w.node.At(x));
    NodeSizes(w.node.At(Other(x)));
    FindOwn(w.node.At(x).peer.groups, a);
    FindOwn(w.node.At(Other(x)).peer.groups, b);
    assert MsgOk(w, m);
    if w.node.At(x).peer.groups[a].strid == m.strid {
      if x == m.to { RecvPair(w, w', m, a, b); } else { RecvPair(w, w', m, b, a); }
    } else {
      OtherPair(w, w', m, x, a, b);
    }
  }

  lemma ConvergeCopy(w: Net, side: Side)
    requires BindInv(w) && Converging(w) && CanMove(w, Copy(side))
    ensures Converging(Moved(w, Copy(side)))
  {
    var w' := Moved(w, Copy(side));
    var n := w.node.At(side);
    assert side == Local || side == Remote;
    BindStep(w, Copy(side));
    forall i | ReplyDue(n, i) ensures ReplyDue(w'.node.At(side), i) {
      if n.queued && AnswersFor(n.slot, i) {
        assert n.slot in w'.node.At(side).running;
      } else {
        var t :| t in n.running && AnswersFor(t, i);
        assert t in w'.node.At(side).running;
      }
    }
    ConvergeQuiet(w, w', side);
  }

  lemma ConvergeBad(w: Net, side: Side, err: int)
    requires BindInv(w) && Converging(w) && CanMove(w, RecvBad(side, err))
    ensures Converging(Moved(w, RecvBad(side, err)))
  {
    var w' := Moved(w, RecvBad(side, err));
    var n := w.node.At(side);
    assert side == Local || side == Remote;
    BindStep(w, RecvBad(side, err));
    forall i | ReplyDue(n, i) ensures ReplyDue(w'.node.At(side), i) {
      var t :| t in n.running && AnswersFor(t, i);
      assert t in w'.node.At(side).running;
    }
    ConvergeQuiet(w, w', side);
  }

  /** A reply leaves the task list and is on the wire from then on. */
  lemma ConvergeRun(w: Net, side: Side, task: Task)
    requires BindInv(w) && Converging(w) && CanMove(w, RunTask(side, task))
    ensures Converging(Moved(w, RunTask(side, task)))
  {
    hide BindInv;
    var w' := Moved(w, RunTask(side, task));
    var sent := if IsReply(task) then Transmit(w, side, InitOf(w.node.At(side), side, task.group)) else w;
    assert side == Local || side == Remote;
    if IsReply(task) {
      ConvergeSend(w, side, task.group);
      var m := InitOf(w.node.At(side), side, task.group);
      assert m in w'.wire && Carries(m, Other(side), m.strid);
    }
    forall x: Side, i: nat ensures Known(w', x, i) <==> Known(sent, x, i) { assert x == side || x == Other(side); }
    forall x: Side, a: nat, b: nat | Twins(w', x, a, b) ensures Progress(w', x, a, b) {
      assert x == Local || x == Remote;
      assert x == side || x == Other(side);
      assert Twins(sent, x, a, b) && Progress(sent, x, a, b);
      RunPair(w, sent, side, task, x, a, b);
    }
  }

  lemma RunPair(w: Net, sent: Net, side: Side, task: Task, x: Side, a: nat, b: nat)
    requires CanMove(w, RunTask(side, task)) && (x == side || x == Other(side))
    requires sent == if IsReply(task) then Transmit(w, side, InitOf(w.node.At(side), side, task.group)) else w
    requires Twins(sent, x, a, b) && Progress(sent, x, a, b) && Twins(Moved(w, RunTask(side, task)), x, a, b)
    requires forall y: Side, i: nat :: Known(Moved(w, RunTask(side, task)), y, i) <==> Known(sent, y, i)
    ensures Progress(Moved(w, RunTask(side, task)), x, a, b)
  {
    var w' := Moved(w, RunTask(side, task));
    assert w'.wire == sent.wire && w'.sent == sent.sent;
    var strid := w.node.At(x).peer.groups[a].strid;
    assert OnWire(sent, Other(x), strid) <==> OnWire(w', Other(x), strid);
    if x == side && ReplyDue(w.node.At(x), a) && !AnswersFor(task, a) {
      if !(w.node.At(x).queued && AnswersFor(w.node.At(x).slot, a)) {
        var t :| t in w.node.At(x).running && AnswersFor(t, a);
        assert t in w'.node.At(x).running;
      }
    }
    if x == side && AnswersFor(task, a) {
      var m := InitOf(w.node.At(side), side, task.group);
      assert m in w'.wire && Carries(m, Other(side), strid);
    }
  }

  lemma ConvergeStep(w: Net, v: Move)
    requires BindInv(w) && Converging(w) && CanMove(w, v) && Lossless(v)
    ensures Converging(Moved(w, v))
  {
    hide Converging, NodeOk, Agrees, MsgOk, ReplyDue;
    match v
    case SendInit(side, i) => ConvergeSend(w, side, i);
    case Recv(m) => ConvergeRecv(w, m);
    case RecvBad(side, err) => ConvergeBad(w, side, err);
    case Copy(side) => ConvergeCopy(w, side);
    case Wake(side) => ConvergeWake(w, side);
    case RunTask(side, task) => ConvergeRun(w, side, task);
  }

  lemma ConvergeWake(w: Net, side: Side)
    requires Converging(w) && CanMove(w, Wake(side))
    ensures Converging(Moved(w, Wake(side)))
  {
    var w' := Moved(w, Wake(side));
    assert side == Local || side == Remote;
    forall i | ReplyDue(w.node.At(side), i) ensures ReplyDue(w'.node.At(side), i) {
      if !(w.node.At(side).queued && AnswersFor(w.node.At(side).slot, i)) {
        var t :| t in w.node.At(side).running && AnswersFor(t, i);
        assert t in w'.node.At(side).running;
      }
    }
    ConvergeQuiet(w, w', side);
  }

  lemma StartConverges(w: Net)
    requires Start(w)
    ensures Converging(w)
  {
    forall x: Side, a: nat, b: nat | Twins(w, x, a, b) ensures Progress(w, x, a, b) {
      assert x == Local || x == Remote;
    }
  }

  lemma {:induction false} ConvergeAlong(tr: seq<Net>, vs: seq<Move>, k: nat)
    requires IsRun(tr, vs) && k < |tr| && forall i | 0 <= i < |vs| :: Lossless(vs[i])
    ensures Converging(tr[k])
  {
    hide Converging, BindInv;
    if k == 0 {
      StartConverges(tr[0]);
    } else {
      ConvergeAlong(tr, vs, k - 1);
      BindRun(tr, vs, k - 1);
      ConvergeStep(tr[k - 1], vs[k - 1]);
    }
  }

  /** No INIT packet and no internal task is left. */
  predicate Quiescent(w: Net) {
    && w.wire == multiset{}
    && !w.node.At(Local).queued && w.node.At(Local).running == multiset{}
    && !w.node.At(Remote).queued && w.node.At(Remote).running == multiset{}
  }

  /** Handshake convergence: in a run without loss and unbind, once packets and
      tasks are drained, a group that exists on both sides and for which either
      side has sent an INIT is bound on both sides, each to the other's id. */
  lemma HandshakeConverges(tr: seq<Net>, vs: seq<Move>, k: nat, side: Side, i: nat, j: nat)
    requires IsRun(tr, vs) && k < |tr| && (forall n | 0 <= n < |vs| :: Lossless(vs[n]))
    requires Quiescent(tr[k]) && Twins(tr[k], side, i, j)
    requires var x := tr[k].node.At(side).peer.groups[i].strid; (side, x) in tr[k].sent || (Other(side), x) in tr[k].sent
    ensures var mine, other := tr[k].node.At(side).peer, tr[k].node.At(Other(side)).peer;
            i < |mine.dst| && j < |other.dst| && mine.dst[i] == j && other.dst[j] == i
  {
    var w := tr[k];
    ConvergeAlong(tr, vs, k);
    BindRun(tr, vs, k);
    assert side == Local || side == Remote;
    assert Twins(w, Other(side), j, i) && Other(Other(side)) == side;
    assert Progress(w, side, i, j) && Progress(w, Other(side), j, i);
    assert Known(w, side, i) && Known(w, Other(side), j);
    FindOwn(w.node.At(side).peer.groups, i);
    FindOwn(w.node.At(Other(side)).peer.groups, j);
    assert Agrees(w, side) && Agrees(w, Other(side));
  }
}
