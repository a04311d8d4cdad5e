/** How much protocol traffic a packet can cause when the application sends
    nothing: acknowledgements, error reports and INIT replies. */
module Traffic {
  import opened Common
  import Groups

  datatype Packet =
    | Evt(id: nat, group: nat)
    | Cmd(id: nat, ctx: nat, group: nat)
    | Rsp(ctx: nat, group: nat)
    | Ack(group: nat)
    | Err(group: nat)
    | Init(known: Option<nat>, src: nat, dst: nat)  // `known`: the local group of the strid, if parsed and supported
    | Junk                                          // too short, or of no known type

  /** Something that still has to be processed on a side: a packet on the wire to
      it, a packet in its pool queue or in a mailbox, or an internal task. */
  datatype Item =
    | Wire(to: Side, p: Packet)
    | Pooled(side: Side, p: Packet)
    | Boxed(side: Side, p: Packet)
    | ErrorTask(side: Side, group: Option<nat>)
    | InitTask(side: Side, g: nat, reply: bool)

  /** Number of groups and contexts, and the ids that have a decoder. */
  datatype Config = Config(groups: PerSide<nat>, ctxs: PerSide<nat>,
                           cmds: set<(Side, nat, nat)>, evts: set<(Side, nat, nat)>)

  /** `dst`: the dst_group_id of every group. */
  datatype World = World(items: seq<Item>, dst: PerSide<seq<nat>>)

  predicate HasGroup(p: Packet) {
    !p.Init? && !p.Junk?
  }

  /** simple_send of an ERR or ACK; the transport may refuse it. */
  predicate Sends(side: Side, p: Packet, out: seq<Item>) {
    out == [] || out == [Wire(Other(side), p)]
  }

  /** receive_handler, by packet type. */
  ghost predicate Receives(c: Config, dst: PerSide<seq<nat>>, to: Side, p: Packet, out: seq<Item>, dst': PerSide<seq<nat>>) {
    match p
    case Junk => dst' == dst && out == [ErrorTask(to, None)]
    case Init(None, _, _) => dst' == dst && out == [ErrorTask(to, None)]
    case Init(Some(g), src, d) =>
      && g < |dst.At(to)|
      && dst' == dst.With(to, dst.At(to)[g := src])
      && (out == [InitTask(to, g, d == ID_UNKNOWN)] || (out == [] && d != ID_UNKNOWN))
    case _ =>
      && HasGroup(p) && dst' == dst
      && (|| (out == [] && !p.Err?)                                     // stopped
          || (p.group >= c.groups.At(to) && out == [ErrorTask(to, None)])
          || (p.group < c.groups.At(to) && Accepts(c, to, p, out)))
  }

  predicate Accepts(c: Config, to: Side, p: Packet, out: seq<Item>)
    requires HasGroup(p)
  {
    match p
    case Ack(_) => out == []
    case Err(_) => out == []
    case Evt(_, _) => out == [Pooled(to, p)]
    case Cmd(_, ctx, g) =>
      if ctx == ID_UNKNOWN then out == [Pooled(to, p)]
      else if ctx >= c.ctxs.At(to) then out == [ErrorTask(to, Some(g))]
      else out == [] || out == [Boxed(to, p)]
    case Rsp(ctx, g) =>
      if ctx >= c.ctxs.At(to) then out == [ErrorTask(to, Some(g))]
      else out == [] || out == [Boxed(to, p)]
    case _ => false
  }

  /** handler_execute: an unknown id is reported to the sender. */
  ghost predicate Executes(c: Config, dst: PerSide<seq<nat>>, side: Side, p: Packet, out: seq<Item>) {
    match p
    case Cmd(id, _, g) =>
      if (side, g, id) in c.cmds then out == []
      else g < |dst.At(side)| && Sends(side, Err(dst.At(side)[g]), out)
    case Evt(id, g) =>
      && g < |dst.At(side)|
      && exists a, b ::
           && out == a + b
           && (if (side, g, id) in c.evts then a == [] else Sends(side, Err(dst.At(side)[g]), a))
           && Sends(side, Ack(dst.At(side)[g]), b)
    case _ => out == []
  }

  /** Processing item x yields the items `out`. */
  ghost predicate Yields(c: Config, dst: PerSide<seq<nat>>, x: Item, out: seq<Item>, dst': PerSide<seq<nat>>) {
    match x
    case Wire(to, p) => Receives(c, dst, to, p, out, dst')
    case Pooled(side, p) => dst' == dst && Executes(c, dst, side, p, out)
    case Boxed(side, p) => dst' == dst && Executes(c, dst, side, p, out)
    case ErrorTask(side, None) => dst' == dst && out == []
    case ErrorTask(side, Some(g)) =>
      dst' == dst && g < |dst.At(side)| && Sends(side, Err(dst.At(side)[g]), out)
    case InitTask(side, g, reply) =>
      && dst' == dst && g < |dst.At(side)|
      && (if !reply then out == []
          else out == [] || exists known :: out == [Wire(Other(side), Init(known, g, dst.At(side)[g]))])
  }

  /** One item, at any position (the order of processing is free), is processed. */
  ghost predicate Step(c: Config, w: World, k: nat, out: seq<Item>, w': World) {
    && k < |w.items| && Yields(c, w.dst, w.items[k], out, w'.dst)
    && w'.items == w.items[..k] + w.items[k + 1..] + out
  }

  /** What the handshake does with an INIT for a known group is one of the things
      receive_handler may do here. */
  lemma HandleReceives(c: Config, p: Groups.Peer, dst: PerSide<seq<nat>>, to: Side, i: nat, src: nat, d: nat)
    requires p.dst == dst.At(to) && |p.groups| == |p.dst| && i < |p.groups|
    ensures var (p', task) := Groups.Handle(p, i, src, d);
            var out := if task.Some? && task.value.GroupInit? then [InitTask(to, i, task.value.reply)] else [];
            Receives(c, dst, to, Init(Some(i), src, d), out, dst.With(to, p'.dst))
  {
  }

  /** The reactions do occur: an event is acknowledged, after an error report if no
      decoder knows it; a command is reported if no decoder knows it, or if it or a
      response names a context that does not exist; a packet for an unknown group
      or of no known form is only reported locally. */
  lemma Reactions(c: Config, dst: PerSide<seq<nat>>, to: Side, id: nat, g: nat, ctx: nat)
    requires g < |dst.At(to)| && g < c.groups.At(to)
    ensures var back := dst.At(to)[g];
            && Yields(c, dst, Wire(to, Evt(id, g)), [Pooled(to, Evt(id, g))], dst)
            && Yields(c, dst, Wire(to, Cmd(id, 0xFF, g)), [Pooled(to, Cmd(id, 0xFF, g))], dst)
            && Yields(c, dst, Pooled(to, Evt(id, g)),
                      (if (to, g, id) in c.evts then [] else [Wire(Other(to), Err(back))]) + [Wire(Other(to), Ack(back))], dst)
            && ((to, g, id) !in c.cmds ==> Yields(c, dst, Pooled(to, Cmd(id, 0xFF, g)), [Wire(Other(to), Err(back))], dst))
            && ((to, g, id) !in c.cmds ==> Yields(c, dst, Boxed(to, Cmd(id, ctx, g)), [Wire(Other(to), Err(back))], dst))
            && Yields(c, dst, ErrorTask(to, Some(g)), [Wire(Other(to), Err(back))], dst)
    ensures c.ctxs.At(to) <= ctx ==> Yields(c, dst, Wire(to, Rsp(ctx, g)), [ErrorTask(to, Some(g))], dst)
    ensures c.ctxs.At(to) <= ctx && ctx != 0xFF ==> Yields(c, dst, Wire(to, Cmd(id, ctx, g)), [ErrorTask(to, Some(g))], dst)
    ensures ctx < c.ctxs.At(to) && ctx != 0xFF ==> Yields(c, dst, Wire(to, Cmd(id, ctx, g)), [Boxed(to, Cmd(id, ctx, g))], dst)
    ensures Yields(c, dst, Wire(to, Evt(id, c.groups.At(to))), [ErrorTask(to, None)], dst)
    ensures Yields(c, dst, Wire(to, Junk), [ErrorTask(to, None)], dst) && Yields(c, dst, ErrorTask(to, None), [], dst)
    ensures Yields(c, dst, Wire(to, Ack(g)), [], dst) && Yields(c, dst, Wire(to, Err(g)), [], dst)
  {
    var err := if (to, g, id) in c.evts then [] else [Wire(Other(to), Err(dst.At(to)[g]))];
    var ack := [Wire(Other(to), Ack(dst.At(to)[g]))];
    assert Sends(to, Ack(dst.At(to)[g]), ack);
    assert (to, g, id) !in c.evts ==> Sends(to, Err(dst.At(to)[g]), err);
  }

  // ------------------------------------------------ the measure

  /** What an item can cause, itself included, while every INIT packet names its
      source group. */
  function Weight(x: Item): nat {
    match x
    case Wire(_, Evt(_, _)) => 6
    case Wire(_, Cmd(_, _, _)) => 4
    case Wire(_, Rsp(_, _)) => 4
    case Wire(_, Init(_, _, dst)) => if dst == ID_UNKNOWN then 4 else 2
    case Wire(_, _) => 2
    case Pooled(_, Evt(_, _)) => 5
    case Boxed(_, Evt(_, _)) => 5
    case Pooled(_, _) => 3
    case Boxed(_, _) => 3
    case ErrorTask(_, g) => if g.Some? then 3 else 1
    case InitTask(_, _, reply) => if reply then 3 else 1
  }

  /** An INIT packet with source id 255: it unbinds the group it names. */
  predicate Anonymous(x: Item) {
    x.Wire? && x.p.Init? && x.p.src == ID_UNKNOWN
  }

  /** An item that leads to an INIT reply. */
  predicate Asks(x: Item) {
    (x.Wire? && x.p.Init? && x.p.dst == ID_UNKNOWN) || (x.InitTask? && x.reply)
  }

  predicate Bound(dst: PerSide<seq<nat>>, side: Side, g: nat) {
    g < |dst.At(side)| && dst.At(side)[g] != ID_UNKNOWN
  }

  /** The reply will itself ask for a reply, as things stand. */
  predicate AsksBack(dst: PerSide<seq<nat>>, x: Item) {
    Asks(x) && (if x.Wire? then Anonymous(x) else !Bound(dst, x.side, x.g))
  }

  /** What is summed over the items of a world. */
  datatype Scale = Valid | Surplus(dst: PerSide<seq<nat>>) | Replies | Anonymity

  function Mass(sc: Scale, x: Item): nat {
    match sc
    case Valid => Weight(x)
    case Surplus(dst) => if AsksBack(dst, x) then 2 else 0
    case Replies => if Asks(x) then 1 else 0
    case Anonymity => if Anonymous(x) then 1 else 0
  }

  function Total(sc: Scale, items: seq<Item>): nat {
    if items == [] then 0 else Mass(sc, items[0]) + Total(sc, items[1..])
  }

  /** The measure: each anonymous INIT can turn every pending reply into one that
      asks back. */
  function Measure(w: World): nat {
    Total(Valid, w.items) + Total(Surplus(w.dst), w.items) + 2 * Total(Replies, w.items) * Total(Anonymity, w.items)
  }

  lemma {:induction false} TotalAppend(sc: Scale, a: seq<Item>, b: seq<Item>)
    ensures Total(sc, a + b) == Total(sc, a) + Total(sc, b)
  {
    if a == [] {
      assert a + b == b;
    } else {
      assert (a + b)[1..] == a[1..] + b;
      TotalAppend(sc, a[1..], b);
    }
  }

  lemma TotalOne(sc: Scale, x: Item)
    ensures Total(sc, [x]) == Mass(sc, x)
  {
    assert [x][1..] == [];
  }

  /** One item of a sequence weighed apart from the others. */
  lemma TotalSplit(sc: Scale, items: seq<Item>, k: nat)
    requires k < |items|
    ensures Total(sc, items) == Total(sc, items[..k] + items[k + 1..]) + Mass(sc, items[k])
  {
    var a, b := items[..k], items[k + 1..];
    assert items == a + ([items[k]] + b);
    TotalAppend(sc, a, [items[k]] + b);
    TotalAppend(sc, [items[k]], b);
    TotalAppend(sc, a, b);
    TotalOne(sc, items[k]);
  }

  /** nrf_rpc_setup admits at most 255 groups. */
  ghost predicate Fits(dst: PerSide<seq<nat>>) {
    |dst.At(Local)| <= 255 && |dst.At(Remote)| <= 255
  }

  predicate SameGroups(dst: PerSide<seq<nat>>, dst': PerSide<seq<nat>>) {
    |dst'.At(Local)| == |dst.At(Local)| && |dst'.At(Remote)| == |dst.At(Remote)|
  }

  /** What processing item x gives is lighter than x, asks for no more replies, is
      never anonymous, and asks back only if x did. */
  predicate Lighter(dst: PerSide<seq<nat>>, x: Item, out: seq<Item>, dst': PerSide<seq<nat>>) {
    && Total(Valid, out) + Total(Surplus(dst'), out) < Mass(Valid, x) + Mass(Surplus(dst), x)
    && Total(Replies, out) <= Mass(Replies, x)
    && Total(Anonymity, out) == 0
    && Total(Surplus(dst'), out) <= Mass(Surplus(dst), x)
  }

  lemma YieldsLess(c: Config, dst: PerSide<seq<nat>>, x: Item, out: seq<Item>, dst': PerSide<seq<nat>>)
    requires Yields(c, dst, x, out, dst') && Fits(dst)
    ensures Lighter(dst, x, out, dst') && SameGroups(dst, dst')
    ensures forall side, g | Bound(dst, side, g) && !Anonymous(x) :: Bound(dst', side, g)
  {
    match x
    case Wire(to, p) => ReceivesLess(c, dst, to, p, out, dst');
    case Pooled(side, p) => ExecutesLess(c, dst, side, p, out);
    case Boxed(side, p) => ExecutesLess(c, dst, side, p, out);
    case ErrorTask(side, g) =>
      if g.Some? { SendsLess(dst, side, Err(dst.At(side)[g.value]), out); }
    case InitTask(side, g, _) =>
      assert side == Local || side == Remote;
      if out != [] { OneItem(dst', out); }
  }

  lemma OneItem(dst: PerSide<seq<nat>>, out: seq<Item>)
    requires |out| == 1
    ensures forall sc :: Total(sc, out) == Mass(sc, out[0])
  {
    assert out == [out[0]];
    forall sc ensures Total(sc, out) == Mass(sc, out[0]) { TotalOne(sc, out[0]); }
  }

  lemma ReceivesLess(c: Config, dst: PerSide<seq<nat>>, to: Side, p: Packet, out: seq<Item>, dst': PerSide<seq<nat>>)
    requires Receives(c, dst, to, p, out, dst')
    ensures Lighter(dst, Wire(to, p), out, dst') && SameGroups(dst, dst')
    ensures forall side, g | Bound(dst, side, g) && !Anonymous(Wire(to, p)) :: Bound(dst', side, g)
  {
    assert to == Local || to == Remote;
    if out != [] { OneItem(dst', out); }
  }

  /** Packets other than INIT carry no surplus. */
  ghost predicate Harmless(out: seq<Item>, most: nat) {
    && Total(Valid, out) <= most && Total(Replies, out) == 0 && Total(Anonymity, out) == 0
    && forall dst :: Total(Surplus(dst), out) == 0
  }

  lemma SendsLess(dst: PerSide<seq<nat>>, side: Side, p: Packet, out: seq<Item>)
    requires Sends(side, p, out) && (p.Err? || p.Ack?)
    ensures Harmless(out, 2)
  {
    if out != [] { OneItem(dst, out); }
  }

  lemma ExecutesLess(c: Config, dst: PerSide<seq<nat>>, side: Side, p: Packet, out: seq<Item>)
    requires Executes(c, dst, side, p, out)
    ensures Harmless(out, if p.Evt? then 4 else 2)
  {
    match p
    case Evt(id, g) =>
      var a, b :| && out == a + b
                  && (if (side, g, id) in c.evts then a == [] else Sends(side, Err(dst.At(side)[g]), a))
                  && Sends(side, Ack(dst.At(side)[g]), b);
      assert Sends(side, Err(dst.At(side)[g]), a);
      SendsLess(dst, side, Err(dst.At(side)[g]), a);
      SendsLess(dst, side, Ack(dst.At(side)[g]), b);
      forall sc ensures Total(sc, out) == Total(sc, a) + Total(sc, b) { TotalAppend(sc, a, b); }
    case Cmd(id, _, g) =>
      if (side, g, id) !in c.cmds { SendsLess(dst, side, Err(dst.At(side)[g]), out); }
    case _ =>
  }

  /** What waits elsewhere gains surplus only from an anonymous INIT, and then at
      most 2 for each reply that is due. */
  lemma {:induction false} OthersSurplus(dst: PerSide<seq<nat>>, dst': PerSide<seq<nat>>, items: seq<Item>,
                                         anonymous: bool)
    requires forall side, g | Bound(dst, side, g) && !anonymous :: Bound(dst', side, g)
    ensures Total(Surplus(dst'), items) <=
              Total(Surplus(dst), items) + (if anonymous then 2 * Total(Replies, items) else 0)
  {
    if items != [] {
      OthersSurplus(dst, dst', items[1..], anonymous);
    }
  }

  lemma MeasureArithmetic(r: nat, rx: nat, ro: nat, n: nat, nx: nat)
    requires ro <= rx && nx <= 1
    ensures 2 * (r + ro) * n + (if nx == 1 then 2 * r else 0) <= 2 * (r + rx) * (n + nx)
  {
    assert (r + ro) * n <= (r + rx) * n;
    assert (r + rx) * (n + nx) == (r + rx) * n + (r + rx) * nx;
  }

  /** Every step strictly lowers the measure, whatever ids the packets carry. */
  lemma StepDecreases(c: Config, w: World, k: nat, out: seq<Item>, w': World)
    requires Fits(w.dst) && Step(c, w, k, out, w')
    ensures Fits(w'.dst) && Measure(w') < Measure(w)
    ensures WorldOk(w) ==> WorldOk(w')
  {
    hide Lighter, Mass, Yields, Bound;
    var x := w.items[k];
    YieldsLess(c, w.dst, x, out, w'.dst);
    LighterStep(w, k, out, w');
  }

  lemma LighterStep(w: World, k: nat, out: seq<Item>, w': World)
    requires k < |w.items| && w'.items == w.items[..k] + w.items[k + 1..] + out
    requires Lighter(w.dst, w.items[k], out, w'.dst)
    requires forall side, g | Bound(w.dst, side, g) && !Anonymous(w.items[k]) :: Bound(w'.dst, side, g)
    ensures Measure(w') < Measure(w)
    ensures WorldOk(w) ==> WorldOk(w')
  {
    var x, rest := w.items[k], w.items[..k] + w.items[k + 1..];
    forall sc
      ensures Total(sc, w.items) == Total(sc, rest) + Mass(sc, x)
      ensures Total(sc, w'.items) == Total(sc, rest) + Total(sc, out)
    {
      TotalSplit(sc, w.items, k);
      TotalAppend(sc, rest, out);
    }
    OthersSurplus(w.dst, w'.dst, rest, Anonymous(x));
    MeasureArithmetic(Total(Replies, rest), Mass(Replies, x), Total(Replies, out),
                      Total(Anonymity, rest), Mass(Anonymity, x));
  }

  ghost predicate IsRun(c: Config, tr: seq<World>, ks: seq<nat>, outs: seq<seq<Item>>) {
    && |tr| == |ks| + 1 == |outs| + 1
    && forall i | 0 <= i < |ks| :: Step(c, tr[i], ks[i], outs[i], tr[i + 1])
  }

  /** No storm: from any packets and tasks whatever, the protocol by itself takes
      at most as many steps as the measure says. */
  lemma {:induction false} TrafficBounded(c: Config, tr: seq<World>, ks: seq<nat>, outs: seq<seq<Item>>)
    requires IsRun(c, tr, ks, outs) && Fits(tr[0].dst)
    ensures |ks| + Measure(tr[|ks|]) <= Measure(tr[0])
    ensures Fits(tr[|ks|].dst) && (WorldOk(tr[0]) ==> WorldOk(tr[|ks|]))
    decreases |ks|
  {
    hide Step, WorldOk, Measure;
    if |ks| > 0 {
      var n := |ks| - 1;
      TrafficBounded(c, tr[..n + 1], ks[..n], outs[..n]);
      assert tr[..n + 1][0] == tr[0] && tr[..n + 1][n] == tr[n];
      StepDecreases(c, tr[n], ks[n], outs[n], tr[n + 1]);
    }
  }

  /** No INIT packet is anonymous, and a reply is due only from a bound group. */
  ghost predicate WorldOk(w: World) {
    Total(Surplus(w.dst), w.items) == 0 && Total(Anonymity, w.items) == 0
  }

  ghost predicate ItemOk(dst: PerSide<seq<nat>>, x: Item) {
    match x
    case Wire(_, Init(_, src, _)) => src != ID_UNKNOWN
    case InitTask(side, g, reply) => reply ==> Bound(dst, side, g)
    case _ => true
  }

  lemma {:induction false} ItemsOk(dst: PerSide<seq<nat>>, items: seq<Item>)
    ensures Total(Surplus(dst), items) == 0 && Total(Anonymity, items) == 0 <==>
            forall k | 0 <= k < |items| :: ItemOk(dst, items[k])
  {
    if items != [] {
      ItemsOk(dst, items[1..]);
      if forall k | 0 <= k < |items| :: ItemOk(dst, items[k]) {
        forall k | 0 <= k < |items[1..]| ensures ItemOk(dst, items[1..][k]) { assert ItemOk(dst, items[k + 1]); }
      }
      if forall k | 0 <= k < |items[1..]| :: ItemOk(dst, items[1..][k]) {
        forall k | 0 < k < |items| ensures ItemOk(dst, items[k]) { assert items[k] == items[1..][k - 1]; }
      }
      assert Total(Surplus(dst), items) == 0 && Total(Anonymity, items) == 0 <==>
             ItemOk(dst, items[0]) && Total(Surplus(dst), items[1..]) == 0 && Total(Anonymity, items[1..]) == 0;
    }
  }

  /** While INIT packets name their source groups, the number of steps is at most
      the plain weight of what is under way. */
  lemma ValidTrafficLinear(c: Config, tr: seq<World>, ks: seq<nat>, outs: seq<seq<Item>>)
    requires IsRun(c, tr, ks, outs) && Fits(tr[0].dst)
    requires forall k | 0 <= k < |tr[0].items| :: ItemOk(tr[0].dst, tr[0].items[k])
    ensures |ks| + Total(Valid, tr[|ks|].items) <= Total(Valid, tr[0].items)
    ensures forall k | 0 <= k < |tr[|ks|].items| :: ItemOk(tr[|ks|].dst, tr[|ks|].items[k])
  {
    TrafficBounded(c, tr, ks, outs);
    ItemsOk(tr[0].dst, tr[0].items);
    ItemsOk(tr[|ks|].dst, tr[|ks|].items);
  }

  // ------------------------------------------------ an anonymous INIT costs more

  const ONE_GROUP := Config(PerSide(1, 1), PerSide(0, 0), {}, {})

  function Alone(x: Item, local: nat, remote: nat): World {
    World([x], PerSide([local], [remote]))
  }

  /** One anonymous INIT that asks for a reply, between peers with one group: */
  const W0 := Alone(Wire(Local, Init(Some(0), ID_UNKNOWN, ID_UNKNOWN)), ID_UNKNOWN, ID_UNKNOWN)
  const W1 := Alone(InitTask(Local, 0, true), ID_UNKNOWN, ID_UNKNOWN)
  const W2 := Alone(Wire(Remote, Init(Some(0), 0, ID_UNKNOWN)), ID_UNKNOWN, ID_UNKNOWN)
  const W3 := Alone(InitTask(Remote, 0, true), ID_UNKNOWN, 0)
  const W4 := Alone(Wire(Local, Init(Some(0), 0, 0)), ID_UNKNOWN, 0)
  const W5 := Alone(InitTask(Local, 0, false), 0, 0)
  const W6 := World([], PerSide([0], [0]))

  lemma AloneStep(w: World, w': World)
    requires |w.items| == 1 && Yields(ONE_GROUP, w.dst, w.items[0], w'.items, w'.dst)
    ensures Step(ONE_GROUP, w, 0, w'.items, w')
  {
    assert w.items[..0] + w.items[1..] + w'.items == w'.items;
  }

  lemma AloneReply(side: Side, w: World, w': World)
    requires w.items == [InitTask(side, 0, true)] && w'.dst == w.dst && |w.dst.At(side)| == 1
    requires w'.items == [Wire(Other(side), Init(Some(0), 0, w.dst.At(side)[0]))]
    ensures Step(ONE_GROUP, w, 0, w'.items, w')
  {
    AloneStep(w, w');
  }

  /** ... it takes six steps where its plain weight is four. */
  lemma AnonymousInitCostsMore() returns (tr: seq<World>, ks: seq<nat>, outs: seq<seq<Item>>)
    ensures IsRun(ONE_GROUP, tr, ks, outs) && tr[0] == W0 && |ks| == 6 && Total(Valid, W0.items) == 4
  {
    tr, ks := [W0, W1, W2, W3, W4, W5, W6], [0, 0, 0, 0, 0, 0];
    outs := [W1.items, W2.items, W3.items, W4.items, W5.items, W6.items];
    TotalOne(Valid, W0.items[0]);
    assert [ID_UNKNOWN][0 := 0] == [0] && [ID_UNKNOWN][0 := ID_UNKNOWN] == [ID_UNKNOWN];
    AloneStep(W0, W1);
    AloneReply(Local, W1, W2);
    AloneStep(W2, W3);
    AloneReply(Remote, W3, W4);
    AloneStep(W4, W5);
    AloneStep(W5, W6);
    hide Step;
  }
}
