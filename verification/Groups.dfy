/** Groups of one peer: ids, binding to the remote ids, and the counter of bound
    groups that nrf_rpc_bind waits for. */
module Groups {
  import opened Common

  type Strid = seq<bv8>

  /** The constant part of a group: its strid and its WAIT_ON_INIT and INITIATOR
      flags. The id of a group is its index. */
  datatype GroupDef = GroupDef(strid: Strid, wait: bool, initiator: bool)

  /** `dst` are the dst_group_id fields, `bound` is initialized_group_count. */
  datatype Peer = Peer(groups: seq<GroupDef>, dst: seq<nat>, bound: nat)

  /** The contents of the GROUP_INIT and RECV_ERROR tasks. */
  datatype Task =
    | GroupInit(group: nat, first: bool, reply: bool, signal: bool)
    | RecvError(err: int, errGroup: Option<nat>)

  // ------------------------------------------------ specification

  /** The groups with WAIT_ON_INIT. */
  function Waiting(groups: seq<GroupDef>): set<nat> {
    set i: nat | i < |groups| && groups[i].wait
  }

  /** Those of them whose remote id is known. */
  function Bound(groups: seq<GroupDef>, dst: seq<nat>): set<nat>
    requires |groups| == |dst|
  {
    set i: nat | i < |groups| && groups[i].wait && dst[i] != ID_UNKNOWN
  }

  predicate DistinctStrids(groups: seq<GroupDef>) {
    forall i, j | 0 <= i < j < |groups| :: groups[i].strid != groups[j].strid
  }

  /** Index i is the first group with this strid. */
  predicate IsFirst(groups: seq<GroupDef>, strid: Strid, i: nat) {
    i < |groups| && groups[i].strid == strid && forall k | 0 <= k < i :: groups[k].strid != strid
  }

  function Find(groups: seq<GroupDef>, strid: Strid): (r: Option<nat>)
    ensures r.Some? ==> IsFirst(groups, strid, r.value)
    ensures r.None? ==> forall k | 0 <= k < |groups| :: groups[k].strid != strid
  {
    FindFrom(groups, strid, 0)
  }

  function FindFrom(groups: seq<GroupDef>, strid: Strid, from: nat): (r: Option<nat>)
    requires from <= |groups| && forall k | 0 <= k < from :: groups[k].strid != strid
    ensures r.Some? ==> IsFirst(groups, strid, r.value)
    ensures r.None? ==> forall k | 0 <= k < |groups| :: groups[k].strid != strid
    decreases |groups| - from
  {
    if from == |groups| then None
    else if groups[from].strid == strid then Some(from)
    else FindFrom(groups, strid, from + 1)
  }

  lemma FindOwn(groups: seq<GroupDef>, i: nat)
    requires DistinctStrids(groups) && i < |groups|
    ensures Find(groups, groups[i].strid) == Some(i)
  {
  }

  ghost predicate PeerOk(p: Peer) {
    && |p.groups| <= 255 && |p.dst| == |p.groups|
    && DistinctStrids(p.groups)
  }

  /** init_packet_handle for a well-formed packet of a known group: `src` and `dst`
      are the group ids in its header, uint8 arithmetic on the counter. */
  function Handle(p: Peer, i: nat, src: nat, dst: nat): (r: (Peer, Option<Task>))
    requires |p.dst| == |p.groups| && i < |p.groups|
  {
    var first := p.dst[i] == ID_UNKNOWN;
    var counts := first && p.groups[i].wait;
    var bound := if counts then (p.bound + 1) % 256 else p.bound;
    var signal := counts && bound == |Waiting(p.groups)| % 256;
    var reply := dst == ID_UNKNOWN;
    (p.(dst := p.dst[i := src], bound := bound),
     if first || reply || signal then Some(GroupInit(i, first, reply, signal)) else None)
  }

  // ------------------------------------------------ the counter

  function One(b: bool): nat { if b then 1 else 0 }

  lemma SubsetSize(a: set<nat>, b: set<nat>)
    requires a <= b
    ensures |a| <= |b| && (|a| == |b| ==> a == b)
  {
    assert b == a + (b - a);
  }

  lemma {:induction false} BelowSize(a: set<nat>, n: nat)
    requires forall i | i in a :: i < n
    ensures |a| <= n
  {
    if n > 0 {
      BelowSize(a - {n - 1}, n - 1);
      SubsetSize(a, (a - {n - 1}) + {n - 1});
    }
  }

  lemma BoundAtMost(groups: seq<GroupDef>, dst: seq<nat>)
    requires |groups| == |dst|
    ensures |Bound(groups, dst)| <= |Waiting(groups)| <= |groups|
  {
    SubsetSize(Bound(groups, dst), Waiting(groups));
    BelowSize(Waiting(groups), |groups|);
  }

  lemma BoundMembers(groups: seq<GroupDef>, dst: seq<nat>, i: nat, v: nat)
    requires |groups| == |dst| && i < |groups|
    ensures var before, after := Bound(groups, dst), Bound(groups, dst[i := v]);
            && (i in before <==> groups[i].wait && dst[i] != ID_UNKNOWN)
            && after == if groups[i].wait && v != ID_UNKNOWN then before + {i} else before - {i}
  {
    var before, after := Bound(groups, dst), Bound(groups, dst[i := v]);
    forall k: nat ensures k in after <==> (if k == i then groups[i].wait && v != ID_UNKNOWN else k in before) {}
  }

  lemma BoundUpdate(groups: seq<GroupDef>, dst: seq<nat>, i: nat, v: nat)
    requires |groups| == |dst| && i < |groups|
    ensures |Bound(groups, dst[i := v])| + One(groups[i].wait && dst[i] != ID_UNKNOWN)
            == |Bound(groups, dst)| + One(groups[i].wait && v != ID_UNKNOWN)
  {
    BoundMembers(groups, dst, i, v);
    hide Bound;
    AddRemoveSize(Bound(groups, dst), i);
  }

  lemma AddRemoveSize(a: set<nat>, i: nat)
    ensures |a + {i}| == |a| + One(i !in a) && |a - {i}| + One(i in a) == |a|
  {
    if i in a {
      assert a + {i} == a;
    } else {
      assert a - {i} == a;
    }
  }

  /** The counter is the number of wait-on-init groups with a known remote id. */
  ghost predicate CounterOk(p: Peer) {
    PeerOk(p) && p.bound == |Bound(p.groups, p.dst)|
  }

  /** There are wait-on-init groups, and all of them know their remote id. */
  ghost predicate AllReady(p: Peer)
    requires PeerOk(p)
  {
    && (exists i :: 0 <= i < |p.groups| && p.groups[i].wait)
    && (forall i | 0 <= i < |p.groups| && p.groups[i].wait :: p.dst[i] != ID_UNKNOWN)
  }

  /** All are ready exactly when the counter reaches a total that is not zero. */
  lemma ReadyIff(p: Peer)
    requires PeerOk(p)
    ensures AllReady(p) <==> |Waiting(p.groups)| > 0 && |Bound(p.groups, p.dst)| == |Waiting(p.groups)|
  {
    var waiting, bound := Waiting(p.groups), Bound(p.groups, p.dst);
    SubsetSize(bound, waiting);
    if AllReady(p) {
      assert bound == waiting;
      var i :| 0 <= i < |p.groups| && p.groups[i].wait;
      assert i in waiting;
    } else if |waiting| > 0 && |bound| == |waiting| {
      var i: nat :| i in waiting;
      assert p.groups[i].wait;
      forall k | 0 <= k < |p.groups| && p.groups[k].wait ensures p.dst[k] != ID_UNKNOWN { assert k in bound; }
    }
  }

  /** Ready-counter exactness: an INIT packet with a valid source id keeps the
      counter exact, and it requests the ready signal exactly when it binds the
      last wait-on-init group. */
  lemma HandleExact(p: Peer, i: nat, src: nat, dst: nat)
    requires CounterOk(p) && i < |p.groups| && src < ID_UNKNOWN
    ensures var (p', task) := Handle(p, i, src, dst);
            && CounterOk(p') && p'.bound <= |Waiting(p.groups)|
            && (AllReady(p) ==> AllReady(p'))
            && ((task.Some? && task.value.signal) <==> (AllReady(p') && !AllReady(p)))
  {
    var p' := Handle(p, i, src, dst).0;
    BoundUpdate(p.groups, p.dst, i, src);
    BoundAtMost(p.groups, p.dst);
    BoundAtMost(p.groups, p.dst[i := src]);
    ReadyIff(p);
    ReadyIff(p');
    if p.dst[i] == ID_UNKNOWN && p.groups[i].wait { assert !AllReady(p); }
  }

  /** What an INIT packet for group i leaves to do: a task exactly when the group was
      unbound, when the sender does not know this side's id, or when the last
      wait-on-init group has become bound; and the task says which. */
  lemma HandleTask(p: Peer, i: nat, src: nat, dst: nat)
    requires CounterOk(p) && i < |p.groups| && src < ID_UNKNOWN
    ensures var (p', task) := Handle(p, i, src, dst);
            && p' == p.(dst := p.dst[i := src], bound := p'.bound)
            && PeerOk(p')
            && (var unbound, asks, last := p.dst[i] == 0xFF, dst == 0xFF, AllReady(p') && !AllReady(p);
                && (task == None <==> !unbound && !asks && !last)
                && (task.Some? ==> task.value == GroupInit(i, unbound, asks, last)))
  {
    HandleExact(p, i, src, dst);
  }

  /** Exactly the packets with source id 255 for a wait-on-init group break the
      counter: an unbound group stays unbound and is counted, a bound one becomes
      unbound and stays counted. */
  lemma CounterBreaksIff(p: Peer, i: nat, src: nat, dst: nat)
    requires CounterOk(p) && i < |p.groups| && src <= ID_UNKNOWN
    ensures CounterOk(Handle(p, i, src, dst).0) <==> !(src == ID_UNKNOWN && p.groups[i].wait)
  {
    BoundUpdate(p.groups, p.dst, i, src);
    BoundAtMost(p.groups, p.dst);
    if src < ID_UNKNOWN {
      HandleExact(p, i, src, dst);
    }
  }

  // ------------------------------------------------ the code

  /** The static state of one peer: group_count, waiting_group_count,
      initialized_group_count and the mutable part of every group. */
  class GroupTable {
    const groups: seq<GroupDef>
    const srcId: array<nat>
    const dstId: array<nat>
    var groupCount: nat
    var waitingCount: nat
    var boundCount: nat

    ghost predicate Sized()
      reads this
    {
      srcId.Length == dstId.Length == |groups| && srcId != dstId
    }

    /** What nrf_rpc_setup establishes and everything later keeps. */
    ghost predicate Ready()
      reads this, srcId
    {
      && Sized() && |groups| <= 255 && groupCount == |groups|
      && waitingCount == |set i: nat | i < |groups| && groups[i].wait|
      && forall i | 0 <= i < |groups| :: srcId[i] == i
    }

    ghost function AsPeer(): Peer
      reads this, dstId
    {
      Peer(groups, dstId[..], boundCount)
    }

    constructor (groups: seq<GroupDef>)
      ensures Sized() && this.groups == groups && groupCount == 0 && boundCount == 0 && fresh(srcId) && fresh(dstId)
      ensures forall i | 0 <= i < |groups| :: dstId[i] == ID_UNKNOWN
    {
      this.groups := groups;
      srcId := new nat[|groups|](_ => ID_UNKNOWN);
      dstId := new nat[|groups|](_ => ID_UNKNOWN);
      groupCount, waitingCount, boundCount := 0, 0, 0;
    }

    /** nrf_rpc_setup, the loop over the groups with its uint8 counters. */
    method Setup() returns (err: int)
      requires Sized()
      modifies this`groupCount, this`waitingCount, srcId
      ensures err == if |groups| <= 255 then 0 else ENOMEM
      ensures err == 0 ==> Ready()
      ensures err != 0 ==> groupCount == old(groupCount) && forall i | 0 <= i < 255 :: srcId[i] == i
    {
      var groupId, waitCount := 0, 0;
      var i := 0;
      while i < |groups|
        invariant i <= |groups| && i <= 255 && groupId == i && groupCount == old(groupCount)
        invariant waitCount == |Waiting(groups[..i])| <= i
        invariant forall k | 0 <= k < i :: srcId[k] == k
      {
        if groupId >= 0xFF {
          return ENOMEM;
        }
        srcId[i] := groupId;
        groupId := (groupId + 1) % 256;
        assert Waiting(groups[..i + 1]) == Waiting(groups[..i]) + (if groups[i].wait then {i} else {});
        if groups[i].wait {
          waitCount := (waitCount + 1) % 256;
        }
        i := i + 1;
      }
      assert groups[..|groups|] == groups;
      assert Waiting(groups) == set i: nat | i < |groups| && groups[i].wait;
      groupCount := groupId;
      waitingCount := waitCount;
      err := 0;
    }

    /** group_from_id. */
    method GroupFromId(id: nat) returns (r: Option<nat>)
      requires Ready()
      ensures r == if id < |groups| then Some(id) else None
      ensures id == ID_UNKNOWN ==> r == None
    {
      r := if id >= groupCount then None else Some(id);
    }

    /** group_from_strid. */
    method GroupFromStrid(strid: Strid) returns (r: Option<nat>)
      ensures r == Find(groups, strid)
    {
      var i := 0;
      while i < |groups|
        invariant i <= |groups| && forall k | 0 <= k < i :: groups[k].strid != strid
      {
        if |groups[i].strid| == |strid| && groups[i].strid == strid {
          return Some(i);
        }
        i := i + 1;
      }
      return None;
    }

    /** init_packet_handle after parsing: the version is checked, the group is
        looked up, bound and counted, and a task is spawned if needed. */
    method InitPacketHandle(versionOk: bool, strid: Strid, src: nat, dst: nat) returns (err: int, task: Option<Task>)
      requires Ready()
      modifies this`boundCount, dstId
      ensures Ready()
      ensures !versionOk ==> err == EPROTONOSUPPORT && task == None && AsPeer() == old(AsPeer())
      ensures versionOk && Find(groups, strid).None? ==> err == EFAULT && task == None && AsPeer() == old(AsPeer())
      ensures versionOk && Find(groups, strid).Some? ==>
                err == 0 && (AsPeer(), task) == Handle(old(AsPeer()), Find(groups, strid).value, src, dst)
    {
      task := None;
      if !versionOk {
        return EPROTONOSUPPORT, None;
      }
      var found := GroupFromStrid(strid);
      if found.None? {
        return EFAULT, None;
      }
      var g := found.value;
      var first := dstId[g] == ID_UNKNOWN;
      dstId[g] := src;
      var signal := false;
      if first && groups[g].wait {
        boundCount := (boundCount + 1) % 256;
        signal := boundCount == waitingCount;
      }
      var reply := dst == ID_UNKNOWN;
      if first || reply || signal {
        task := Some(GroupInit(g, first, reply, signal));
      }
      err := 0;
      BoundAtMost(groups, dstId[..]);
      assert Waiting(groups) == set i: nat | i < |groups| && groups[i].wait;
      assert dstId[..] == old(dstId[..])[g := src];
    }

    /** nrf_rpc_unbind. */
    method Unbind()
      requires Sized()
      modifies this`boundCount, dstId
      ensures boundCount == 0 && forall i | 0 <= i < |groups| :: dstId[i] == ID_UNKNOWN
    {
      boundCount := 0;
      var i := 0;
      while i < |groups|
        invariant i <= |groups| && boundCount == 0 && forall k | 0 <= k < i :: dstId[k] == ID_UNKNOWN
      {
        dstId[i] := ID_UNKNOWN;
        i := i + 1;
      }
    }
  }

  /** With no group bound the count is zero: unbind restores exactness. */
  lemma NoneBound(groups: seq<GroupDef>, dst: seq<nat>)
    requires |groups| == |dst| && forall i | 0 <= i < |dst| :: dst[i] == ID_UNKNOWN
    ensures |Bound(groups, dst)| == 0
  {
    assert Bound(groups, dst) == {};
  }
}
