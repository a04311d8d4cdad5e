/** The handshake takes place: between any two peers, for any group they share. */
module HandshakeRun {
  import opened Common
  import opened Groups
  import opened Binding

  // ------------------------------------------------ the start

  function Fresh(groups: seq<GroupDef>): Node {
    Node(Peer(groups, seq(|groups|, _ => ID_UNKNOWN), 0), RecvError(0, None), false, false, false, multiset{}, [], [],
         multiset{}, 0)
  }

  /** Any two tables that nrf_rpc_setup accepts can start. */
  lemma AnyPeersStart(a: seq<GroupDef>, b: seq<GroupDef>) returns (w: Net)
    requires |a| <= 255 && |b| <= 255 && DistinctStrids(a) && DistinctStrids(b)
    ensures Start(w) && w.node.At(Local).peer.groups == a && w.node.At(Remote).peer.groups == b
  {
    w := Net(PerSide(Fresh(a), Fresh(b)), multiset{}, {});
  }

  // ------------------------------------------------ a run step by step

  datatype Trip = Trip(tr: seq<Net>, vs: seq<Move>)

  ghost predicate TripOk(r: Trip) {
    |r.tr| == |r.vs| + 1 && IsRun(r.tr, r.vs) && forall i | 0 <= i < |r.vs| :: Lossless(r.vs[i])
  }

  function Last(r: Trip): Net
    requires |r.tr| == |r.vs| + 1
  {
    r.tr[|r.vs|]
  }

  lemma Go(r: Trip, v: Move) returns (r': Trip)
    requires TripOk(r) && CanMove(Last(r), v) && Lossless(v)
    ensures TripOk(r') && Last(r') == Moved(Last(r), v) && r'.tr[0] == r.tr[0] && r'.vs == r.vs + [v]
    ensures BindInv(Last(r')) && SameGroups(Last(r), Last(r'))
  {
    hide CanMove, Moved, Start, BindInv;
    BindRun(r.tr, r.vs, |r.vs|);
    BindStep(Last(r), v);
    r' := Trip(r.tr + [Moved(Last(r), v)], r.vs + [v]);
    forall i | 0 <= i < |r'.vs| ensures CanMove(r'.tr[i], r'.vs[i]) && r'.tr[i + 1] == Moved(r'.tr[i], r'.vs[i]) {
      assert i < |r.vs| ==> CanMove(r.tr[i], r.vs[i]) && r.tr[i + 1] == Moved(r.tr[i], r.vs[i]);
    }
  }

  /** Nothing is left to do at a side. */
  predicate Calm(n: Node) {
    !n.queued && !n.waiting && n.running == multiset{}
  }

  /** A packet is received and its task, if any, is copied, run and consumed: the side
      is calm again, and its reply, if due, is the only packet on the wire. */
  lemma Digest(r: Trip, m: InitMsg, i: nat) returns (r': Trip)
    requires TripOk(r) && BindInv(Last(r)) && Last(r).wire == multiset{m}
    requires Calm(Last(r).node.At(m.to)) && Find(Last(r).node.At(m.to).peer.groups, m.strid) == Some(i)
    requires m.src < 0xFF
    ensures TripOk(r') && r'.tr[0] == r.tr[0] && BindInv(Last(r')) && SameGroups(Last(r), Last(r'))
    ensures |r'.vs| >= |r.vs|
    ensures Calm(Last(r').node.At(m.to)) && Last(r').node.At(Other(m.to)) == Last(r).node.At(Other(m.to))
    ensures Last(r).sent <= Last(r').sent
    ensures |Last(r').node.At(m.to).peer.dst| == |Last(r).node.At(m.to).peer.groups| > i
    ensures Last(r').node.At(m.to).peer.dst[i] == m.src
    ensures Last(r').wire ==
              if m.dst == 0xFF then multiset{InitMsg(Other(m.to), m.strid, i, m.src)} else multiset{}
  {
    var side := m.to;
    var w := Last(r);
    assert side == Local || side == Remote;
    NodeSizes(w.node.At(side));
    var n := w.node.At(side);
    HandleTask(n.peer, i, m.src, m.dst);
    r' := Go(r, Recv(m));
    var n1 := Last(r').node.At(side);
    assert n1 == Received(n, m) && Last(r').wire == multiset{};
    if n1.queued {
      r' := Work(r', side, n1.slot, i);
    }
  }

  lemma Work(r: Trip, side: Side, task: Task, i: nat) returns (r': Trip)
    requires TripOk(r) && BindInv(Last(r)) && Last(r).wire == multiset{}
    requires var n := Last(r).node.At(side);
             n.queued && n.waiting && n.slot == task && n.running == multiset{} && task.GroupInit? && task.group == i
             && i < |n.peer.groups| == |n.peer.dst|
    ensures TripOk(r') && r'.tr[0] == r.tr[0] && BindInv(Last(r')) && SameGroups(Last(r), Last(r'))
    ensures |r'.vs| >= |r.vs|
    ensures Calm(Last(r').node.At(side)) && Last(r').node.At(Other(side)) == Last(r).node.At(Other(side))
    ensures Last(r').node.At(side).peer == Last(r).node.At(side).peer && Last(r).sent <= Last(r').sent
    ensures var p := Last(r).node.At(side).peer;
            Last(r').wire ==
              if task.reply then multiset{InitMsg(Other(side), p.groups[i].strid, i, p.dst[i])} else multiset{}
  {
    hide BindInv, IsRun;
    assert side == Local || side == Remote;
    r' := Go(r, Copy(side));
    assert Last(r').node.At(side).running == multiset{task};
    r' := Go(r', Wake(side));
    r' := Go(r', RunTask(side, task));
    assert Last(r').node.At(side).running == multiset{};
  }

  /** Any two peers, any group they share, announced by either of them: there is a run
      without loss to a quiet state in which the group is bound on both sides. */
  lemma AnyGroupBinds(a: seq<GroupDef>, b: seq<GroupDef>, i: nat, j: nat, side: Side) returns (r: Trip)
    requires |a| <= 255 && |b| <= 255 && DistinctStrids(a) && DistinctStrids(b)
    requires i < |a| && j < |b| && a[i].strid == b[j].strid
    ensures TripOk(r) && Last(r).node.At(Local).peer.groups == a && Last(r).node.At(Remote).peer.groups == b
    ensures Quiescent(Last(r)) && |Last(r).node.At(Local).peer.dst| == |a| && |Last(r).node.At(Remote).peer.dst| == |b|
    ensures Last(r).node.At(Local).peer.dst[i] == j && Last(r).node.At(Remote).peer.dst[j] == i
  {
    hide BindInv, Agrees;
    var w := AnyPeersStart(a, b);
    r := Trip([w], []);
    StartOk(w);
    FindOwn(a, i);
    FindOwn(b, j);
    var mine := if side == Local then i else j;
    var other := if side == Local then j else i;
    r := Go(r, SendInit(side, mine));
    var m := InitMsg(Other(side), a[i].strid, mine, 0xFF);
    assert Last(r).wire == multiset{m};
    r := Digest(r, m, other);
    var reply := InitMsg(side, a[i].strid, other, mine);
    assert Last(r).wire == multiset{reply};
    r := Digest(r, reply, mine);
  }
}
