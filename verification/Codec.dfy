/** The wire format: the 5-byte header with its packed first byte, and the
    payload of an INIT packet with its packed version byte. */
module Codec {
  import opened Common

  const HEADER_SIZE: nat := 5
  const TYPE_INIT: bv8 := 0x04
  const TYPE_CMD: bv8 := 0x80
  const UNKNOWN: bv8 := 0xFF
  const PROTOCOL_VERSION: bv8 := 0

  datatype Header = Header(dst: bv8, src: bv8, kind: bv8, id: bv8, srcGroup: bv8, dstGroup: bv8)

  datatype Decoded<+T> = Ok(value: T) | Bad(err: int)

  // ------------------------------------------------ header

  /** header_encode: every packet but a command; `src` is not on the wire. */
  function EncodeHeader(h: Header): seq<bv8> {
    [h.kind, h.id, h.dst, h.srcGroup, h.dstGroup]
  }

  /** The first byte of a command. */
  function CmdByte(src: bv8): bv8 {
    TYPE_CMD | src
  }

  /** header_cmd_encode: the source context shares the byte of the type. */
  function EncodeCmdHeader(h: Header): seq<bv8> {
    [CmdByte(h.src), h.id, h.dst, h.srcGroup, h.dstGroup]
  }

  /** header_decode. */
  function DecodeHeader(packet: seq<bv8>): Decoded<Header> {
    if |packet| < HEADER_SIZE then Bad(EBADMSG)
    else if packet[0] & 0x80 != 0 then
      Ok(Header(packet[2], packet[0] & 0x7F, packet[0] & 0x80, packet[1], packet[3], packet[4]))
    else
      Ok(Header(packet[2], UNKNOWN, packet[0], packet[1], packet[3], packet[4]))
  }

  method HeaderEncode(packet: array<bv8>, h: Header)
    requires packet.Length >= HEADER_SIZE
    modifies packet
    ensures packet[..] == EncodeHeader(h) + old(packet[HEADER_SIZE..])
    ensures packet[0] == h.kind && packet[1] == h.id && packet[2] == h.dst
    ensures packet[3] == h.srcGroup && packet[4] == h.dstGroup
  {
    packet[0] := h.kind;
    packet[1] := h.id;
    packet[2] := h.dst;
    packet[3] := h.srcGroup;
    packet[4] := h.dstGroup;
  }

  method HeaderCmdEncode(packet: array<bv8>, h: Header)
    requires packet.Length >= HEADER_SIZE
    modifies packet
    ensures packet[..] == EncodeCmdHeader(h) + old(packet[HEADER_SIZE..])
    ensures packet[0] == 0x80 | h.src && packet[1] == h.id && packet[2] == h.dst
    ensures packet[3] == h.srcGroup && packet[4] == h.dstGroup
  {
    assert CmdByte(h.src) == 0x80 | h.src;
    hide CmdByte;
    packet[0] := CmdByte(h.src);
    packet[1] := h.id;
    packet[2] := h.dst;
    packet[3] := h.srcGroup;
    packet[4] := h.dstGroup;
  }

  /** The bytes of both kinds of headers, one by one. */
  lemma HeaderBytes(h: Header, payload: seq<bv8>)
    ensures var p := EncodeHeader(h) + payload;
            |p| == 5 + |payload| && p[0] == h.kind && p[1] == h.id && p[2] == h.dst && p[3] == h.srcGroup
            && p[4] == h.dstGroup && p[5..] == payload
    ensures var p := EncodeCmdHeader(h) + payload;
            |p| == 5 + |payload| && p[0] == 0x80 | h.src && p[1] == h.id && p[2] == h.dst && p[3] == h.srcGroup
            && p[4] == h.dstGroup && p[5..] == payload
  {
  }

  /** What any sequence of bytes is decoded to: an error exactly when it is too short,
      else the fields at their places, with the source context of a command in the
      low bits of the first byte and no source context for any other type. */
  lemma DecodedFields(packet: seq<bv8>)
    ensures DecodeHeader(packet) == Bad(-77) <==> |packet| < 5
    ensures |packet| >= 5 ==>
              var d := DecodeHeader(packet);
              && d.Ok? && d.value.id == packet[1] && d.value.dst == packet[2]
              && d.value.srcGroup == packet[3] && d.value.dstGroup == packet[4]
              && (if packet[0] >= 0x80 then d.value.kind == 0x80 && d.value.src == packet[0] - 0x80
                  else d.value.kind == packet[0] && d.value.src == 0xFF)
  {
    if |packet| >= 5 {
      TypeByte(packet[0]);
      SourceByte(packet[0]);
    }
  }

  lemma SourceByte(b: bv8)
    ensures b >= 0x80 ==> b & 0x7F == b - 0x80 && b & 0x80 == 0x80
  {
  }

  /** A command header survives the wire, whatever follows it, exactly when its
      context id is below 128; it always arrives as a command. */
  lemma CmdRoundTrip(h: Header, payload: seq<bv8>)
    requires h.kind == TYPE_CMD
    ensures DecodeHeader(EncodeCmdHeader(h) + payload) == Ok(h) <==> h.src < 0x80
    ensures var d := DecodeHeader(EncodeCmdHeader(h) + payload); d.Ok? && d.value.kind == TYPE_CMD
    ensures var d := DecodeHeader(EncodeCmdHeader(h) + payload); d.Ok? && d.value == h.(src := h.src & 0x7F)
  {
    var p := EncodeCmdHeader(h) + payload;
    assert p[0] == TYPE_CMD | h.src && p[1] == h.id && p[2] == h.dst && p[3] == h.srcGroup && p[4] == h.dstGroup;
    PackedByte(h.src);
  }

  lemma PackedByte(src: bv8)
    ensures (0x80 | src) & 0x80 == 0x80 && (0x80 | src) & 0x7F == src & 0x7F
    ensures src & 0x7F == src <==> src < 0x80
  {
  }

  /** A header of any other type survives exactly when the type byte has no top
      bit (the source context is not on the wire), and only then is it told from
      a command. */
  lemma HeaderRoundTrip(h: Header, payload: seq<bv8>)
    ensures DecodeHeader(EncodeHeader(h) + payload) == Ok(h.(src := UNKNOWN)) <==> h.kind < 0x80
    ensures var d := DecodeHeader(EncodeHeader(h) + payload); d.Ok? && (d.value.kind == TYPE_CMD <==> h.kind >= 0x80)
  {
    var p := EncodeHeader(h) + payload;
    assert p[0] == h.kind && p[1] == h.id && p[2] == h.dst && p[3] == h.srcGroup && p[4] == h.dstGroup;
    TypeByte(h.kind);
  }

  lemma TypeByte(b: bv8)
    ensures b & 0x80 != 0 <==> b >= 0x80
    ensures b & 0x80 == 0 || b & 0x80 == 0x80
    ensures b & 0x7F != 0xFF
  {
  }

  /** No two packets built by the two encoders are confused: equal headers on the
      wire mean equal kind, id, destination and groups, and for commands equal
      source contexts. */
  lemma EncodersInjective(a: Header, b: Header, x: seq<bv8>, y: seq<bv8>)
    requires a.src < 0x80 && b.src < 0x80
    ensures EncodeCmdHeader(a) + x == EncodeCmdHeader(b) + y ==> a.(kind := b.kind) == b && x == y
    ensures EncodeHeader(a) + x == EncodeHeader(b) + y ==> a.(src := b.src) == b && x == y
    ensures b.kind < 0x80 ==> EncodeCmdHeader(a) + x != EncodeHeader(b) + y
  {
    var p, q, r := EncodeCmdHeader(a) + x, EncodeCmdHeader(b) + y, EncodeHeader(b) + y;
    var o := EncodeHeader(a) + x;
    PackedByte(a.src);
    PackedByte(b.src);
    TypeByte(b.kind);
    assert p[0] == TYPE_CMD | a.src && r[0] == b.kind;
    if p == q {
      assert p[0] == q[0] && p[1] == q[1] && p[2] == q[2] && p[3] == q[3] && p[4] == q[4];
      assert p[HEADER_SIZE..] == x && q[HEADER_SIZE..] == y;
    }
    if o == r {
      assert o[0] == r[0] && o[1] == r[1] && o[2] == r[2] && o[3] == r[3] && o[4] == r[4];
      assert o[HEADER_SIZE..] == x && r[HEADER_SIZE..] == y;
    }
  }

  // ------------------------------------------------ INIT packets

  datatype InitData = InitData(minVersion: bv8, maxVersion: bv8, strid: seq<bv8>)

  /** The packed byte: the minimum in the low nibble, the maximum in the high one. */
  function PackVersions(min: bv8, max: bv8): bv8 {
    (min & 0x0F) | ((max & 0x0F) << 4)
  }

  /** group_init_send. */
  function EncodeInit(srcGroup: bv8, dstGroup: bv8, strid: seq<bv8>): seq<bv8> {
    EncodeHeader(Header(UNKNOWN, UNKNOWN, TYPE_INIT, 0, srcGroup, dstGroup))
    + [PackVersions(PROTOCOL_VERSION, PROTOCOL_VERSION)] + strid
  }

  /** init_packet_parse. */
  function ParseInit(packet: seq<bv8>): Decoded<InitData> {
    if |packet| < HEADER_SIZE + 1 then Bad(EBADMSG)
    else if |packet| == HEADER_SIZE + 1 then Bad(EBADMSG)
    else Ok(InitData(packet[5] & 0x0F, (packet[5] >> 4) & 0x0F, packet[6..]))
  }

  /** protocol_version_check. */
  predicate VersionOk(d: InitData) {
    d.minVersion <= PROTOCOL_VERSION <= d.maxVersion
  }

  lemma NibbleRoundTrip(min: bv8, max: bv8)
    requires min < 0x10 && max < 0x10
    ensures PackVersions(min, max) & 0x0F == min && (PackVersions(min, max) >> 4) & 0x0F == max
  {
  }

  /** The bytes of an INIT packet. Its type is that of no other kind of packet. */
  lemma InitBytes(srcGroup: bv8, dstGroup: bv8, strid: seq<bv8>)
    ensures EncodeInit(srcGroup, dstGroup, strid) == [0x04, 0, 0xFF, srcGroup, dstGroup, 0x00] + strid
    ensures var kind := EncodeInit(srcGroup, dstGroup, strid)[0];
            kind != 0x00 && kind != 0x01 && kind != 0x02 && kind != 0x03 && kind < 0x80
  {
    var p := EncodeInit(srcGroup, dstGroup, strid);
    assert PackVersions(PROTOCOL_VERSION, PROTOCOL_VERSION) == 0;
    assert p == [0x04, 0, 0xFF, srcGroup, dstGroup] + [0] + strid;
    assert [0x04, 0, 0xFF, srcGroup, dstGroup] + [0] == [0x04, 0, 0xFF, srcGroup, dstGroup, 0x00];
  }

  /** What any sequence of bytes is parsed to as an INIT packet: an error exactly
      without a strid. The version check accepts exactly the ranges that contain
      version 0, that is, those whose low nibble is zero. */
  lemma ParsedFields(packet: seq<bv8>)
    ensures ParseInit(packet) == Bad(-77) <==> |packet| <= 6
    ensures |packet| > 6 ==>
              var d := ParseInit(packet);
              && d.Ok? && d.value.strid == packet[6..]
              && d.value.minVersion + 16 * d.value.maxVersion == packet[5]
              && d.value.minVersion < 16 && d.value.maxVersion < 16
              && (VersionOk(d.value) <==> d.value.minVersion == 0)
  {
    if |packet| > 6 { Nibbles(packet[5]); }
  }

  lemma Nibbles(b: bv8)
    ensures (b & 0x0F) + 16 * ((b >> 4) & 0x0F) == b && b & 0x0F < 16 && (b >> 4) & 0x0F < 16
  {
  }

  /** An INIT packet comes back with its header, its version range and its strid
      and passes the version check, exactly when the strid is not empty. */
  lemma InitRoundTrip(srcGroup: bv8, dstGroup: bv8, strid: seq<bv8>)
    ensures var p := EncodeInit(srcGroup, dstGroup, strid);
            DecodeHeader(p) == Ok(Header(UNKNOWN, UNKNOWN, TYPE_INIT, 0, srcGroup, dstGroup))
    ensures var d := ParseInit(EncodeInit(srcGroup, dstGroup, strid));
            && (strid == [] ==> d == Bad(EBADMSG))
            && (strid != [] ==> d == Ok(InitData(PROTOCOL_VERSION, PROTOCOL_VERSION, strid)) && VersionOk(d.value))
  {
    var h := Header(UNKNOWN, UNKNOWN, TYPE_INIT, 0, srcGroup, dstGroup);
    var rest := [PackVersions(PROTOCOL_VERSION, PROTOCOL_VERSION)] + strid;
    var p := EncodeInit(srcGroup, dstGroup, strid);
    assert p == EncodeHeader(h) + rest;
    HeaderRoundTrip(h, rest);
    NibbleRoundTrip(PROTOCOL_VERSION, PROTOCOL_VERSION);
    assert p[5] == rest[0];
    if strid != [] {
      assert p[6..] == strid;
    }
  }

  /** group_init_send writing into the buffer it allocated. */
  method GroupInitSend(srcGroup: bv8, dstGroup: bv8, strid: seq<bv8>) returns (packet: array<bv8>)
    ensures fresh(packet) && packet[..] == EncodeInit(srcGroup, dstGroup, strid)
    ensures packet[..] == [0x04, 0, 0xFF, srcGroup, dstGroup, 0x00] + strid
  {
    packet := new bv8[HEADER_SIZE + 1 + |strid|];
    HeaderEncode(packet, Header(UNKNOWN, UNKNOWN, TYPE_INIT, 0, srcGroup, dstGroup));
    packet[5] := PackVersions(PROTOCOL_VERSION, PROTOCOL_VERSION);
    var i := 0;
    while i < |strid|
      invariant i <= |strid|
      invariant packet[..6] == EncodeInit(srcGroup, dstGroup, [])
      invariant packet[6..6 + i] == strid[..i]
    {
      packet[6 + i] := strid[i];
      i := i + 1;
    }
    assert packet[..] == packet[..6] + packet[6..6 + |strid|];
    InitBytes(srcGroup, dstGroup, strid);
  }
}
