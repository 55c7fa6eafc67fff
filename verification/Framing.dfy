/** The two-byte header between a node and its controller, and the tagging of
    inter-controller (ICC) frames. */
module Framing {
  import opened Text
  import opened PeerTable

  type Packet = seq<Byte>

  const VERSION: Byte := 3          // kIpopVer
  const CONTROL: Byte := 1          // kTincanControl
  const DATA: Byte := 2             // kTincanPacket
  const ICC_CONTROL: Byte := 3      // kICCControl
  const ICC_PACKET: Byte := 4       // kICCPacket
  const HEADER := 40                // two 20-byte identities
  const FRAME_HEADER := 2           // version and type
  const MAC_OFFSET := 5             // kICCMacOffset
  const NULL_PEER := "00000000000000000000"

  /** `is_icc`: the five bytes 00-69-70-6f-70 behind the header. */
  predicate IsIcc(p: Packet)
    requires |p| > HEADER + 6
  {
    p[HEADER..HEADER + 5] == [0, 0x69, 0x70, 0x6f, 0x70]
  }

  predicate IccFrame(p: Packet) {
    |p| > HEADER + 6 && IsIcc(p)
  }

  /** The type byte of a frame whose destination lookup missed.  The buffer is not
      initialised: `junk` is what it held, and an ICC frame whose sixth MAC byte is
      neither 3 nor 4 keeps it. */
  function MissTag(p: Packet, junk: Byte): Byte {
    if IccFrame(p) then
      if p[HEADER + MAC_OFFSET] == ICC_PACKET then ICC_PACKET
      else if p[HEADER + MAC_OFFSET] == ICC_CONTROL then ICC_CONTROL
      else junk
    else DATA
  }

  function Frame(tag: Byte, p: Packet): seq<Byte> {
    [VERSION, tag] + p
  }

  /** The type byte is set on every path. */
  predicate WellTagged(p: Packet) {
    IccFrame(p) ==> p[HEADER + MAC_OFFSET] in {ICC_CONTROL, ICC_PACKET}
  }

  /** The source and destination keys of a packet: 8 bytes of each identity. */
  function SourceKey(p: Packet): string
    requires |p| >= HEADER
  {
    HexEncode(p[..SHORT_LEN])
  }

  function DestKey(p: Packet): string
    requires |p| >= HEADER
  {
    HexEncode(p[ID_BYTES..ID_BYTES + SHORT_LEN])
  }

  /** The whole destination identity. */
  function DestUid(p: Packet): string
    requires |p| >= HEADER
  {
    HexEncode(p[ID_BYTES..HEADER])
  }

  /** The keys are the prefixes of the two whole identities: of bytes 0 to 19 for the
      source, of bytes 20 to 39 for the destination. */
  lemma KeysArePrefixes(p: Packet)
    requires |p| >= HEADER
    ensures SourceKey(p) == Prefix(HexEncode(p[..20]))
    ensures DestKey(p) == Prefix(HexEncode(p[20..40]))
    ensures DestUid(p) == HexEncode(p[20..40])
  {
    ShortKeyIsPrefix(p[..20]);
    assert p[..20][..SHORT_LEN] == p[..SHORT_LEN];
    ShortKeyIsPrefix(p[20..40]);
    assert p[20..40][..SHORT_LEN] == p[ID_BYTES..ID_BYTES + SHORT_LEN];
  }

  /** `dest.compare(0, 3, kNullPeerId) == 0`: three characters against all twenty. */
  predicate NullTest(dest: string)
    requires |dest| >= 3
  {
    Compare(dest[..3], NULL_PEER) == 0
  }

  /** The null test of the router never succeeds. */
  lemma NullTestNeverMatches(dest: string)
    requires |dest| >= 3
    ensures !NullTest(dest)
  {
    CompareTotal(dest[..3], NULL_PEER);
    assert |dest[..3]| != |NULL_PEER|;
  }

  // ---------- the sequential router ----------

  /** What the tables answer about one packet: whether its destination key is known,
      and then whether the transport found is writable and which channel it has;
      `junk` is what a new buffer held. */
  datatype View<+C> = View(found: bool, writable: bool, channel: Option<C>, junk: Byte)

  datatype Outcome<+C> = Dropped | SentOn(channel: C, packet: Packet) | Forwarded(frame: seq<Byte>)

  /** The decision of `HandlePacket`, given the answers. */
  function Route<C>(p: Packet, v: View<C>): Outcome<C> {
    if |p| < HEADER then Dropped
    else if !v.found then Forwarded(Frame(MissTag(p, v.junk), p))
    else if v.writable && v.channel.Some? then SentOn(v.channel.value, p)
    else Forwarded(Frame(DATA, p))
  }

  // ---------- the controller side ----------

  /** Where the controller side of a node sends an incoming message. */
  datatype Delivery = ToTap(packet: Packet) | ToSendQueue(packet: Packet) | ToControl(message: seq<Byte>)

  /** Type dispatch; a version mismatch is only logged. */
  function Dispatch(msg: seq<Byte>): Delivery
    requires |msg| >= FRAME_HEADER
  {
    if msg[1] == DATA then ToTap(msg[FRAME_HEADER..])
    else if msg[1] == ICC_CONTROL || msg[1] == ICC_PACKET then ToSendQueue(msg[FRAME_HEADER..])
    else ToControl(msg)
  }

  /** The packet reaches a packet queue unchanged. */
  predicate Delivers(d: Delivery, p: Packet) {
    d == ToTap(p) || d == ToSendQueue(p)
  }

  /** The bytes of a frame after a miss: version 3, then the sixth MAC byte of an ICC
      packet if it is 3 or 4, whatever the buffer held if it is not, and 2 for the other
      packets; then the packet.  ICC packets have MAC 00-69-70-6f-70 behind the header. */
  lemma MissFrameBytes(p: Packet, junk: Byte)
    ensures var icc := |p| > 46 && p[40] == 0 && p[41] == 0x69 && p[42] == 0x70 && p[43] == 0x6f && p[44] == 0x70;
            && Frame(MissTag(p, junk), p) ==
                 [3, if !icc then 2 else if p[45] == 3 || p[45] == 4 then p[45] else junk] + p
            && (IccFrame(p) <==> icc)
            && (WellTagged(p) <==> icc ==> p[45] == 3 || p[45] == 4)
  {
    if |p| > 46 {
      assert p[HEADER..HEADER + 5] == [p[40], p[41], p[42], p[43], p[44]];
    }
  }

  /** One ICC packet and its frame, in full. */
  lemma IccFrameShown(junk: Byte)
    ensures var p: Packet := seq(40, _ => 7) + [0, 0x69, 0x70, 0x6f, 0x70, 4, 9];
            Frame(MissTag(p, junk), p) == [3, 4] + p && Dispatch([3, 4] + p) == ToSendQueue(p)
  {
    var p: Packet := seq(40, _ => 7) + [0, 0x69, 0x70, 0x6f, 0x70, 4, 9];
    MissFrameBytes(p, junk);
    FrameRoundTrip(p, junk);
  }

  /** The type byte decides where a message goes: 2 to the tap, 3 and 4 to the send queue,
      both without the header; everything else, 1 above all, whole to the control
      dispatch. */
  lemma DispatchByType(version: Byte, tag: Byte, m: seq<Byte>)
    ensures Dispatch([version, tag] + m) ==
              if tag == 2 then ToTap(m) else if tag in {3, 4} then ToSendQueue(m) else ToControl([version, tag] + m)
    ensures Frame(CONTROL, m) == [3, 1] + m && Dispatch(Frame(CONTROL, m)) == ToControl(Frame(CONTROL, m))
    ensures Frame(DATA, m) == [3, 2] + m && Dispatch(Frame(DATA, m)) == ToTap(m)
  {
    assert ([version, tag] + m)[FRAME_HEADER..] == m;
    assert Frame(DATA, m)[FRAME_HEADER..] == m;
  }

  /** A well-tagged frame hands the receiving node exactly the original packet: to
      the send queue if it is an ICC frame, to the tap otherwise. */
  lemma FrameRoundTrip(p: Packet, junk: Byte)
    requires WellTagged(p)
    ensures Dispatch(Frame(MissTag(p, junk), p)) == if IccFrame(p) then ToSendQueue(p) else ToTap(p)
  {
    assert Frame(MissTag(p, junk), p)[FRAME_HEADER..] == p;
  }

  /** Forwarding is lossless whatever the buffer held, exactly when the frame is
      well tagged. */
  lemma LosslessIffWellTagged(p: Packet)
    ensures (forall junk :: Delivers(Dispatch(Frame(MissTag(p, junk), p)), p)) <==> WellTagged(p)
  {
    if WellTagged(p) {
      forall junk ensures Delivers(Dispatch(Frame(MissTag(p, junk), p)), p) {
        FrameRoundTrip(p, junk);
      }
    } else {
      assert !Delivers(Dispatch(Frame(MissTag(p, 0), p)), p);
    }
  }

  /** Such a frame exists: an ICC packet of 47 bytes with MAC 00-69-70-6f-70-05, sent
      from a buffer that held 1, is taken for a control message. */
  lemma IllTaggedPacketIsLost() returns (p: Packet, junk: Byte)
    ensures |p| == 47 && IccFrame(p) && !WellTagged(p)
    ensures !Delivers(Dispatch(Frame(MissTag(p, junk), p)), p)
  {
    junk := CONTROL;
    p := seq(HEADER, _ => 0) + [0, 0x69, 0x70, 0x6f, 0x70, 5, 0];
    assert p[HEADER..HEADER + 5] == [0, 0x69, 0x70, 0x6f, 0x70];
    assert p[HEADER + MAC_OFFSET] == 5;
  }

  /** Full identities are unambiguous: packets with one `DestUid` have the same twenty
      destination bytes. */
  lemma DestUidUnambiguous(p: Packet, q: Packet)
    requires |p| >= HEADER && |q| >= HEADER && DestUid(p) == DestUid(q)
    ensures p[ID_BYTES..HEADER] == q[ID_BYTES..HEADER]
  {
    HexEncodeInjective(p[ID_BYTES..HEADER], q[ID_BYTES..HEADER]);
  }

  /** A well-tagged ICC packet that misses again at the next node is framed byte for
      byte as before, whatever either buffer held. */
  lemma ReframeIsIdentity(p: Packet, junk: Byte, junk': Byte)
    requires IccFrame(p) && WellTagged(p)
    ensures var first := Dispatch(Frame(MissTag(p, junk), p));
            first.ToSendQueue?
            && Frame(MissTag(first.packet, junk'), first.packet) == Frame(MissTag(p, junk), p)
  {
    FrameRoundTrip(p, junk);
  }
}
