/** The handshake comes to an end by itself: what INIT packets and tasks are under
    way is used up, whatever the order, loss included. */
module Drain {
  import opened Common
  import opened Groups
  import opened Binding

  // ------------------------------------------------ what a received INIT leaves to do

  /** In all runs, a received INIT for a known strid binds its group and posts a task
      exactly when the group was unbound, the sender does not know this side's id,
      or the last wait-on-init group has become bound. It makes a reply due exactly
      when the sender does not know this side's id. */
  lemma RecvPosts(tr: seq<Net>, vs: seq<Move>, k: nat)
    requires IsRun(tr, vs) && k < |vs| && vs[k].Recv?
    ensures var m := vs[k].m;
            var n, n' := tr[k].node.At(m.to), tr[k + 1].node.At(m.to);
            && PeerOk(n.peer) && PeerOk(n'.peer)
            && match Find(n.peer.groups, m.strid)
               case None => n'.peer == n.peer && n'.posted == n.posted + [RecvError(EFAULT, None)]
               case Some(r) =>
                 var unbound, asks, last := n.peer.dst[r] == 0xFF, m.dst == 0xFF, AllReady(n'.peer) && !AllReady(n.peer);
                 && n'.peer.dst == n.peer.dst[r := m.src]
                 && n'.posted == n.posted + (if unbound || asks || last then [GroupInit(r, unbound, asks, last)] else [])
                 && (ReplyDue(n', r) <==> asks || ReplyDue(n, r))
  {
    var m := vs[k].m;
    BindRun(tr, vs, k);
    BindRun(tr, vs, k + 1);
    assert m.to == Local || m.to == Remote;
    assert MsgOk(tr[k], m);
    SourceValid(tr[k], m);
    ReceivedTask(tr[k].node.At(m.to), m);
  }

  lemma SourceValid(w: Net, m: InitMsg)
    requires BindInv(w) && MsgOk(w, m)
    ensures m.src < 0xFF
  {
    assert m.to == Local || m.to == Remote;
    NodeSizes(w.node.At(Other(m.to)));
  }

  lemma ReceivedTask(n: Node, m: InitMsg)
    requires NodeOk(n) && !n.waiting && m.src < ID_UNKNOWN
    ensures var n' := Received(n, m);
            && PeerOk(n'.peer) && n'.running == n.running && n'.consumed == n.consumed
            && (n'.queued <==> n'.posted != n.posted)
            && match Find(n.peer.groups, m.strid)
               case None => n'.peer == n.peer && n'.posted == n.posted + [RecvError(EFAULT, None)]
                            && n'.slot == RecvError(EFAULT, None)
               case Some(r) =>
                 var unbound, asks, last := n.peer.dst[r] == 0xFF, m.dst == 0xFF, AllReady(n'.peer) && !AllReady(n.peer);
                 var task := GroupInit(r, unbound, asks, last);
                 && n'.peer.dst == n.peer.dst[r := m.src] && (n'.queued ==> n'.slot == task)
                 && n'.posted == n.posted + (if unbound || asks || last then [task] else [])
                 && (ReplyDue(n', r) <==> asks || ReplyDue(n, r))
  {
    match Find(n.peer.groups, m.strid)
    case None =>
    case Some(r) =>
      HandleTask(n.peer, r, m.src, m.dst);
      var n' := Received(n, m);
      if m.dst == ID_UNKNOWN { assert n'.queued && AnswersFor(n'.slot, r); }
  }

  // ------------------------------------------------ the measure

  function MsgWeight(m: InitMsg): nat {
    if m.dst == ID_UNKNOWN then 8 else 4
  }

  function TaskWeight(dst: seq<nat>, t: Task): nat {
    if !IsReply(t) then 1 else if t.group < |dst| && dst[t.group] != ID_UNKNOWN then 5 else 9
  }

  ghost function WireWeight(ms: multiset<InitMsg>): nat
    decreases |ms|
  {
    if ms == multiset{} then 0 else var m :| m in ms; MsgWeight(m) + WireWeight(ms - multiset{m})
  }

  ghost function TasksWeight(dst: seq<nat>, ts: multiset<Task>): nat
    decreases |ts|
  {
    if ts == multiset{} then 0 else var t :| t in ts; TaskWeight(dst, t) + TasksWeight(dst, ts - multiset{t})
  }

  lemma {:induction false} WireTake(ms: multiset<InitMsg>, m: InitMsg)
    requires m in ms
    ensures WireWeight(ms) == MsgWeight(m) + WireWeight(ms - multiset{m})
    decreases |ms|
  {
    var x :| x in ms && WireWeight(ms) == MsgWeight(x) + WireWeight(ms - multiset{x});
    if x != m {
      WireTake(ms - multiset{x}, m);
      WireTake(ms - multiset{m}, x);
      assert ms - multiset{x} - multiset{m} == ms - multiset{m} - multiset{x};
    }
  }

  lemma {:induction false} TasksTake(dst: seq<nat>, ts: multiset<Task>, t: Task)
    requires t in ts
    ensures TasksWeight(dst, ts) == TaskWeight(dst, t) + TasksWeight(dst, ts - multiset{t})
    decreases |ts|
  {
    var x :| x in ts && TasksWeight(dst, ts) == TaskWeight(dst, x) + TasksWeight(dst, ts - multiset{x});
    if x != t {
      TasksTake(dst, ts - multiset{x}, t);
      TasksTake(dst, ts - multiset{t}, x);
      assert ts - multiset{x} - multiset{t} == ts - multiset{t} - multiset{x};
    }
  }

  lemma WireAdd(ms: multiset<InitMsg>, m: InitMsg)
    ensures WireWeight(ms + multiset{m}) == WireWeight(ms) + MsgWeight(m)
  {
    WireTake(ms + multiset{m}, m);
    assert ms + multiset{m} - multiset{m} == ms;
  }

  lemma TasksAdd(dst: seq<nat>, ts: multiset<Task>, t: Task)
    ensures TasksWeight(dst, ts + multiset{t}) == TasksWeight(dst, ts) + TaskWeight(dst, t)
  {
    TasksTake(dst, ts + multiset{t}, t);
    assert ts + multiset{t} - multiset{t} == ts;
  }

  /** A newly known id makes no task heavier. */
  lemma {:induction false} TasksKnown(dst: seq<nat>, i: nat, v: nat, ts: multiset<Task>)
    requires i < |dst| && v != ID_UNKNOWN
    ensures TasksWeight(dst[i := v], ts) <= TasksWeight(dst, ts)
    decreases |ts|
  {
    if ts != multiset{} {
      var t :| t in ts;
      TasksTake(dst, ts, t);
      TasksTake(dst[i := v], ts, t);
      TasksKnown(dst, i, v, ts - multiset{t});
    }
  }

  ghost function NodeWeight(n: Node): nat {
    (if n.queued then 2 + TaskWeight(n.peer.dst, n.slot) else 0) + One(n.consumed) + TasksWeight(n.peer.dst, n.running)
  }

  ghost function Weight(w: Net): nat {
    WireWeight(w.wire) + NodeWeight(w.node.At(Local)) + NodeWeight(w.node.At(Remote))
  }

  lemma WeightSide(w: Net, side: Side)
    ensures Weight(w) == WireWeight(w.wire) + NodeWeight(w.node.At(side)) + NodeWeight(w.node.At(Other(side)))
  {
  }

  // ------------------------------------------------ one move

  /** The moves of the protocol itself. */
  predicate Internal(v: Move) {
    v.Recv? || v.Copy? || v.Wake? || v.RunTask?
  }

  /** What comes from outside: an INIT of nrf_rpc_bind, or a packet that is refused. */
  function Input(v: Move): nat {
    if v.SendInit? then 8 else if v.RecvBad? then 3 else 0
  }

  lemma RecvLighter(n: Node, m: InitMsg)
    requires NodeOk(n) && !n.waiting && m.src < ID_UNKNOWN
    ensures NodeWeight(Received(n, m)) + 1 <= NodeWeight(n) + MsgWeight(m)
  {
    var n' := Received(n, m);
    ReceivedTask(n, m);
    match Find(n.peer.groups, m.strid)
    case None =>
    case Some(r) => TasksKnown(n.peer.dst, r, m.src, n.running);
  }

  lemma CopyLighter(n: Node)
    requires NodeOk(n) && n.queued
    ensures NodeWeight(Copied(n)) + 1 <= NodeWeight(n)
  {
    TasksAdd(n.peer.dst, n.running, n.slot);
  }

  lemma RunLighter(n: Node, task: Task)
    requires task in n.running
    ensures NodeWeight(Ran(n, task)) + TaskWeight(n.peer.dst, task) == NodeWeight(n)
  {
    TasksTake(n.peer.dst, n.running, task);
  }

  /** A reply that is sent weighs less than the task, since it names the remote id
      once that is known. */
  lemma ReplyLighter(n: Node, side: Side, task: Task)
    requires IsReply(task) && task.group < |n.peer.groups| && task.group < |n.peer.dst|
    ensures MsgWeight(InitOf(n, side, task.group)) + 1 <= TaskWeight(n.peer.dst, task)
  {
  }

  lemma DrainStep(w: Net, v: Move)
    requires BindInv(w) && CanMove(w, v) && !v.Unbind?
    ensures One(Internal(v)) + Weight(Moved(w, v)) <= Weight(w) + Input(v)
  {
    hide NodeOk, Agrees, MsgOk, WireWeight, TasksWeight, NodeWeight, Received, Weight;
    var w' := Moved(w, v);
    match v
    case SendInit(side, i) =>
      WeightSide(w, side);
      WeightSide(w', side);
      WireAdd(w.wire, InitOf(w.node.At(side), side, i));
    case Recv(m) =>
      assert MsgOk(w, m);
      SourceValid(w, m);
      assert m.to == Local || m.to == Remote;
      WeightSide(w, m.to);
      WeightSide(w', m.to);
      WireTake(w.wire, m);
      RecvLighter(w.node.At(m.to), m);
    case RecvBad(side, err) => BadStep(w, side, err);
    case Copy(side) =>
      assert side == Local || side == Remote;
      WeightSide(w, side);
      WeightSide(w', side);
      CopyLighter(w.node.At(side));
    case Wake(side) => WakeStep(w, side);
    case RunTask(side, task) =>
      WeightSide(w, side);
      WeightSide(w', side);
      RunLighter(w.node.At(side), task);
      if IsReply(task) {
        ReplyLighter(w.node.At(side), side, task);
        WireAdd(w.wire, InitOf(w.node.At(side), side, task.group));
      }
    case Lose(m) => WireTake(w.wire, m); WeightSide(w, Local); WeightSide(w', Local);
  }

  lemma BadStep(w: Net, side: Side, err: int)
    requires BindInv(w) && CanMove(w, RecvBad(side, err))
    ensures Weight(Moved(w, RecvBad(side, err))) <= Weight(w) + 3
  {
    hide TasksWeight, WireWeight;
    WeightSide(w, side);
    WeightSide(Moved(w, RecvBad(side, err)), side);
  }

  lemma WakeStep(w: Net, side: Side)
    requires BindInv(w) && CanMove(w, Wake(side))
    ensures Weight(Moved(w, Wake(side))) + 1 <= Weight(w)
  {
    hide TasksWeight, WireWeight;
    WeightSide(w, side);
    WeightSide(Moved(w, Wake(side)), side);
  }

  // ------------------------------------------------ whole runs

  /** The protocol's own moves in vs[i..j], and the weight of what came from outside. */
  ghost function OwnMoves(vs: seq<Move>, i: nat, j: nat): nat
    requires i <= j <= |vs|
  {
    if i == j then 0 else OwnMoves(vs, i, j - 1) + One(Internal(vs[j - 1]))
  }

  ghost function Inputs(vs: seq<Move>, i: nat, j: nat): nat
    requires i <= j <= |vs|
  {
    if i == j then 0 else Inputs(vs, i, j - 1) + Input(vs[j - 1])
  }

  /** From any state of any run, while nobody unbinds: the number of packets received,
      tasks copied and run, and wake-ups is bounded by what is under way and what
      comes from outside. */
  lemma {:induction false} HandshakeDrains(tr: seq<Net>, vs: seq<Move>, i: nat, j: nat)
    requires IsRun(tr, vs) && i <= j < |tr| && forall k | i <= k < j :: !vs[k].Unbind?
    ensures OwnMoves(vs, i, j) + Weight(tr[j]) <= Weight(tr[i]) + Inputs(vs, i, j)
  {
    hide Weight, BindInv, CanMove, Moved, Start;
    if i < j {
      HandshakeDrains(tr, vs, i, j - 1);
      BindRun(tr, vs, j - 1);
      DrainStep(tr[j - 1], vs[j - 1]);
    }
  }

  /** In every state of every run the protocol has a move of its own, unless no packet
      and no task is left. */
  lemma HandshakeGoesOn(tr: seq<Net>, vs: seq<Move>, k: nat)
    requires IsRun(tr, vs) && k < |tr|
    ensures (exists v :: Internal(v) && CanMove(tr[k], v)) || Quiescent(tr[k])
  {
    var w := tr[k];
    BindRun(tr, vs, k);
    if w.wire != multiset{} {
      var m :| m in w.wire;
      assert m.to == Local || m.to == Remote;
      NodeGoesOn(w, m.to);
      assert !w.node.At(m.to).waiting ==> CanMove(w, Recv(m));
    }
    NodeGoesOn(w, Local);
    NodeGoesOn(w, Remote);
  }

  lemma NodeGoesOn(w: Net, side: Side)
    requires BindInv(w)
    ensures var n := w.node.At(side);
            n.waiting || n.running != multiset{} || n.queued ==> exists v :: Internal(v) && CanMove(w, v)
    ensures |w.node.At(side).peer.dst| == |w.node.At(side).peer.groups|
  {
    var n := w.node.At(side);
    assert side == Local || side == Remote;
    if n.queued {
      assert Internal(Copy(side)) && CanMove(w, Copy(side));
    } else if n.waiting {
      assert Internal(Wake(side)) && CanMove(w, Wake(side));
    } else if n.running != multiset{} {
      var t :| t in n.running;
      assert t in multiset(n.copied);
      assert t in n.posted;
      assert Internal(RunTask(side, t)) && CanMove(w, RunTask(side, t));
    }
  }
}
