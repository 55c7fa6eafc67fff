/** The connection manager and the controller access as objects, run one call at a
    time.  Each method is proved against the functions that the interleaved system and
    the codecs are built from. */
module Manager {
  import opened Text
  import opened Framing
  import opened PeerTable
  import opened Candidates
  import opened Roles

  const CON_RESP := "con_resp"
  const FPR_NULL := "00:00:00:00:00:00:00:00:00:00:00:00:00:00:00:00:00:00:00:00"

  class Channel {
    var sent: seq<Packet>

    constructor ()
      ensures sent == []
    {
      sent := [];
    }

    method SendPacket(p: Packet)
      modifies this
      ensures sent == old(sent) + [p]
    {
      sent := sent + [p];
    }
  }

  class Transport {
    var writable: bool
    var channel: Channel?
    var calls: seq<Call>
    var remote: seq<Candidate>

    constructor ()
      ensures calls == [] && remote == [] && !writable && channel != null && fresh(channel)
    {
      writable, calls, remote := false, [], [];
      channel := new Channel();
    }
  }

  class DatagramSocket {
    var sent: seq<seq<Byte>>

    method SendTo(msg: array<Byte>)
      modifies this
      ensures sent == old(sent) + [msg[..]]
    {
      sent := sent + [msg[..]];
    }
  }

  class PeerState {
    const uid: string
    const overlayId: int
    const fingerprint: string
    const connectionSecurity: string
    const transport: Transport
    var candidates: seq<Candidate>
    var candidateList: seq<string>      // std::set<std::string>, in its order

    constructor (uid: string, fingerprint: string, overlayId: int, security: string, transport: Transport)
      ensures this.uid == uid && this.fingerprint == fingerprint && this.overlayId == overlayId
      ensures connectionSecurity == security
      ensures this.transport == transport && candidates == [] && candidateList == []
    {
      this.uid, this.fingerprint, this.overlayId := uid, fingerprint, overlayId;
      connectionSecurity, this.transport := security, transport;
      candidates, candidateList := [], [];
    }
  }

  datatype Notice = Notice(overlayId: int, uid: string, data: string, kind: string)

  class ConnectionManager {
    const forwardSocket: DatagramSocket
    const tapName: string
    var fingerprint: string
    var hasLocalFingerprint: bool       // local_fingerprint_ is not null
    var tincanId: string
    var tincanIp4: string
    var tincanIp6: string
    var uidMap: map<string, PeerState>
    var shortUidMap: map<string, Transport>
    var transportMap: map<Transport, string>
    var sendQueue: seq<Packet>          // g_send_queue
    var recvQueue: seq<Packet>          // g_recv_queue
    var signals: nat                    // MSG_QUEUESIGNALs posted
    var notices: seq<Notice>            // given to the signal sender

    ghost function Indices(): Index<Transport>
      reads this
    {
      Index(map u | u in uidMap :: uidMap[u].transport, transportMap, shortUidMap)
    }

    ghost predicate Valid()
      reads this
    {
      && Inverse(Indices()) && ShortsLive(Indices())
      && forall u :: u in uidMap ==> uidMap[u].uid == u
    }

    constructor (forwardSocket: DatagramSocket, tapName: string)
      ensures Valid() && Indices() == EmptyIndex() && tincanId == ""
      ensures this.forwardSocket == forwardSocket && this.tapName == tapName
      ensures fingerprint == FPR_NULL && !hasLocalFingerprint
      ensures sendQueue == [] && recvQueue == [] && signals == 0 && notices == []
    {
      this.forwardSocket, this.tapName := forwardSocket, tapName;
      fingerprint, hasLocalFingerprint := FPR_NULL, false;
      tincanIp4, tincanIp6 := "172.31.0.100", "fd50:0dbc:41f2:4a3c:0000:0000:0000:0000";
      tincanId, uidMap, shortUidMap, transportMap := "", map[], map[], map[];
      sendQueue, recvQueue, signals, notices := [], [], 0, [];
    }

    // ---------- links ----------

    /** The identity is written once, and only with forty characters; the addresses and
        the fingerprint of the new certificate, if one was made, come with it. */
    method Setup(uid: string, ip4: string, ip6: string, certificate: Option<string>)
      modifies this`tincanId, this`fingerprint, this`hasLocalFingerprint, this`tincanIp4, this`tincanIp6
      ensures var accepted := old(tincanId) == "" && |uid| == ID_SIZE;
              && tincanId == (if accepted then uid else old(tincanId))
              && tincanIp4 == (if accepted then ip4 else old(tincanIp4))
              && tincanIp6 == (if accepted then ip6 else old(tincanIp6))
              && hasLocalFingerprint == (if accepted then certificate.Some? else old(hasLocalFingerprint))
              && fingerprint == (if accepted && certificate.Some? then certificate.value else old(fingerprint))
    {
      if tincanId != "" || |uid| != ID_SIZE { return; }
      tincanId := uid;
      hasLocalFingerprint := certificate.Some?;
      if certificate.Some? {
        fingerprint := certificate.value;
      }
      tincanIp4 := ip4;
      tincanIp6 := ip6;
    }

    method SetupTransport(peer: PeerState)
      modifies peer.transport`calls
      ensures peer.transport.calls == old(peer.transport.calls) + SetupCalls(tincanId, peer.uid)
      ensures Below(peer.uid, tincanId) ==>
                peer.transport.calls == old(peer.transport.calls)
                  + [SetIceRole(Controlling), SetLocal(Actpass, Offer), SetRemote(Answer)]
      ensures Below(tincanId, peer.uid) ==>
                peer.transport.calls == old(peer.transport.calls)
                  + [SetIceRole(Controlled), SetRemote(Offer), SetLocal(Active, Answer)]
      ensures peer.uid == tincanId ==>
                peer.transport.calls == old(peer.transport.calls)
                  + [SetIceRole(Controlled), SetRemote(Offer), SetLocal(Actpass, Answer)]
    {
      CompareIsLexicographic(peer.uid, tincanId);
      var t, before := peer.transport, peer.transport.calls;
      var role := Actpass;
      if Compare(peer.uid, tincanId) > 0 {
        role := Active;
      }
      if Compare(peer.uid, tincanId) < 0 {
        t.calls := t.calls + [SetIceRole(Controlling)];
        t.calls := t.calls + [SetLocal(role, Offer)];
        t.calls := t.calls + [SetRemote(Answer)];
      } else {
        t.calls := t.calls + [SetIceRole(Controlled)];
        t.calls := t.calls + [SetRemote(Offer)];
        t.calls := t.calls + [SetLocal(role, Answer)];
      }
      assert t.calls == before + SetupCalls(tincanId, peer.uid);
    }

    method InsertTransportMap(key: string, t: Transport)
      modifies this`shortUidMap
      ensures Indices() == InsertShort(old(Indices()), key, t)
    {
      shortUidMap := shortUidMap[key := t];
    }

    method DeleteTransportMap(key: string)
      modifies this`shortUidMap
      ensures Indices() == DeleteShort(old(Indices()), key)
    {
      if key in shortUidMap {
        shortUidMap := shortUidMap - {key};
      }
      assert shortUidMap == old(shortUidMap) - {key};
    }

    /** Enters a new peer into the three maps, in the order of the source. */
    method Register(peer: PeerState)
      requires Valid() && peer.uid !in uidMap && peer.transport !in transportMap
      modifies this`uidMap, this`transportMap, this`shortUidMap
      ensures Valid() && uidMap == old(uidMap)[peer.uid := peer]
      ensures Indices() == Create(old(Indices()), peer.uid, peer.transport)
    {
      var uid := peer.uid;
      uidMap := uidMap[uid := peer];
      transportMap := transportMap[peer.transport := uid];
      InsertTransportMap(Prefix(uid), peer.transport);
      assert Indices().uids == old(Indices().uids)[uid := peer.transport];
      CreateKeepsIndices(old(Indices()), uid, peer.transport);
    }

    method CreateTransport(uid: string, fpr: string, overlayId: int, secEnabled: bool) returns (ok: bool)
      requires Valid()
      modifies this`uidMap, this`transportMap, this`shortUidMap
      ensures Valid()
      ensures ok <==> uid !in old(uidMap) && uid != tincanId
      ensures !ok ==> uidMap == old(uidMap) && Indices() == old(Indices())
      ensures ok ==> uid in uidMap && uidMap == old(uidMap)[uid := uidMap[uid]]
      ensures ok ==> fresh(uidMap[uid]) && fresh(uidMap[uid].transport)
      ensures ok ==> Indices() == Create(old(Indices()), uid, uidMap[uid].transport)
      ensures ok ==> if Below(uid, tincanId) then Leads(uidMap[uid].transport.calls)
                     else Follows(uidMap[uid].transport.calls)
      ensures ok ==> uidMap[uid].fingerprint == fpr && uidMap[uid].overlayId == overlayId
      ensures ok && !secEnabled ==> uidMap[uid].connectionSecurity == "none"
      ensures ok && !hasLocalFingerprint ==> uidMap[uid].connectionSecurity == "none"
      ensures ok && fpr == FPR_NULL ==> uidMap[uid].connectionSecurity == "none"
      ensures ok && secEnabled && hasLocalFingerprint && fpr != FPR_NULL ==> uidMap[uid].connectionSecurity == "dtls"
      ensures ok ==> uidMap[uid].candidates == [] && uidMap[uid].candidateList == []
    {
      if uid in uidMap || tincanId == uid {
        return false;
      }
      var security := "none";
      if secEnabled && hasLocalFingerprint && fpr != FPR_NULL {
        security := "dtls";
      }
      var transport := new Transport();
      var peer := new PeerState(uid, fpr, overlayId, security, transport);
      SetupTransport(peer);
      DistinctUidsComplement(tincanId, uid);
      Register(peer);
      ok := true;
    }

    method DestroyTransport(uid: string) returns (ok: bool)
      requires Valid()
      modifies this`uidMap, this`transportMap, this`shortUidMap
      ensures Valid()
      ensures ok <==> uid in old(uidMap)
      ensures !ok ==> uidMap == old(uidMap) && Indices() == old(Indices())
      ensures ok ==> uidMap == old(uidMap) - {uid} && Indices() == Destroy(old(Indices()), uid)
    {
      if uid !in uidMap {
        return false;
      }
      DeleteTransportMap(Prefix(uid));
      var peer: PeerState := uidMap[uid];
      transportMap := transportMap - {peer.transport};
      uidMap := uidMap - {uid};
      assert Indices().uids == old(Indices().uids) - {uid};
      DestroyKeepsIndices(old(Indices()), uid);
      ok := true;
    }

    // ---------- candidates ----------

    /** The peer a callback of this transport finds. */
    function PeerOf(transport: Transport): PeerState
      requires Valid() && transport in transportMap
      reads this
    {
      uidMap[transportMap[transport]]
    }

    /** Signals come only for registered transports. */
    method OnCandidatesReady(transport: Transport, cs: seq<Candidate>)
      requires Valid() && transport in transportMap
      modifies PeerOf(transport)`candidateList
      ensures var peer := PeerOf(transport);
              peer.candidateList == Gather(old(peer.candidateList), cs, tapName)
    {
      var peer := uidMap[transportMap[transport]];
      ghost var before := peer.candidateList;
      var i := 0;
      while i < |cs|
        invariant 0 <= i <= |cs|
        invariant peer.candidateList == Gather(before, cs[..i], tapName)
      {
        assert cs[..i + 1][..i] == cs[..i];
        if cs[i].network != tapName {
          peer.candidateList := Candidates.Insert(peer.candidateList, Print(cs[i]));
        }
        i := i + 1;
      }
      assert cs[..|cs|] == cs;
    }

    method OnCandidatesAllocationDone(transport: Transport)
      requires Valid() && transport in transportMap
      modifies this`notices
      ensures var peer := PeerOf(transport);
              notices == old(notices)
                + [Notice(peer.overlayId, peer.uid, Message(fingerprint, peer.candidateList), CON_RESP)]
      ensures var list, data := PeerOf(transport).candidateList, notices[|notices| - 1].data;
              && fingerprint <= data
              && (fingerprint != "" && NoSpace(fingerprint) && (forall w :: w in list ==> w != "" && NoSpace(w)) ==>
                    Words(data) == [fingerprint] + list)
    {
      var peer := uidMap[transportMap[transport]];
      var list, data := peer.candidateList, fingerprint;
      var i := 0;
      while i < |list|
        invariant 0 <= i <= |list|
        invariant data == Message(fingerprint, list[..i])
        invariant notices == old(notices)
      {
        assert list[..i + 1] == list[..i] + [list[i]];
        SpacedSnoc(list[..i], list[i]);
        data := data + " ";
        data := data + list[i];
        i := i + 1;
      }
      assert list[..|list|] == list;
      var notice := Notice(peer.overlayId, transportMap[transport], data, CON_RESP);
      notices := notices + [notice];
      if fingerprint != "" && NoSpace(fingerprint) && forall w :: w in list ==> w != "" && NoSpace(w) {
        MessageWords(fingerprint, list);
      }
    }

    /** The extraction loop: one word at a time until the stream fails. */
    static method ReadCandidates(peer: PeerState, text: string)
      requires peer.candidates == []
      modifies peer`candidates
      ensures peer.candidates == Parse(text)
    {
      var rest, good := text, true;
      while good
        invariant peer.candidates + Left(rest, good) == Parse(text)
        decreases |rest|, good
      {
        ParseStep(rest, peer.candidates);
        rest := SkipSpace(rest);
        var word := rest[..WordLength(rest)];
        good := word != "";
        rest := rest[WordLength(rest)..];
        var fields := Split(word, DELIM);
        if |fields| >= FIELDS {
          peer.candidates := peer.candidates + [FromFields(fields)];
        }
      }
    }

    /** The second call for a peer that already has candidates does nothing. */
    method CreateConnections(uid: string, text: string) returns (ok: bool)
      requires Valid()
      modifies if uid in uidMap then {uidMap[uid], uidMap[uid].transport} else {}
      ensures ok <==> uid in uidMap && old(uidMap[uid].candidates) == []
      ensures ok ==> uidMap[uid].candidates == Parse(text) && uidMap[uid].transport.remote == Parse(text)
      ensures uid in uidMap ==> uidMap[uid].candidateList == old(uidMap[uid].candidateList)
      ensures uid in uidMap && !ok ==> uidMap[uid].candidates == old(uidMap[uid].candidates)
                                       && uidMap[uid].transport.remote == old(uidMap[uid].transport.remote)
    {
      if uid !in uidMap { return false; }
      var peer: PeerState := uidMap[uid];
      if |peer.candidates| > 0 { return false; }
      ReadCandidates(peer, text);
      peer.transport.remote := peer.candidates;
      ok := true;
    }

    // ---------- packets ----------

    /** Copies the packet behind the header and sends the buffer to the controller. */
    method Forward(msg: array<Byte>, data: Packet)
      requires msg.Length == |data| + FRAME_HEADER
      modifies msg, forwardSocket
      ensures forwardSocket.sent == old(forwardSocket.sent) + [[old(msg[0]), old(msg[1])] + data]
    {
      forall i | 0 <= i < |data| {
        msg[FRAME_HEADER + i] := data[i];
      }
      assert msg[..] == [old(msg[0]), old(msg[1])] + data;
      forwardSocket.SendTo(msg);
    }

    /** The channel a packet would leave on. */
    ghost function ChannelFor(data: Packet): set<object>
      reads this, if |data| >= HEADER && DestKey(data) in shortUidMap then {shortUidMap[DestKey(data)]} else {}
    {
      if |data| >= HEADER && DestKey(data) in shortUidMap && shortUidMap[DestKey(data)].channel != null
      then {shortUidMap[DestKey(data)].channel} else {}
    }

    /** What the tables answer about a packet; `junk` is what a new buffer holds. */
    ghost function TableView(data: Packet, junk: Byte): View<Channel>
      reads this, if |data| >= HEADER && DestKey(data) in shortUidMap then {shortUidMap[DestKey(data)]} else {}
    {
      if |data| >= HEADER && DestKey(data) in shortUidMap then
        var t := shortUidMap[DestKey(data)];
        View(true, t.writable, if t.channel == null then None else Some(t.channel), junk)
      else View(false, false, None, junk)
    }

    /** Routes one packet: the two kinds of logs show what the sequential router decides on
        the answers of the tables. */
    method HandlePacket(data: Packet) returns (ghost junk: Byte)
      modifies forwardSocket, ChannelFor(data)
      ensures var o := Route(data, old(TableView(data, junk)));
              forwardSocket.sent == old(forwardSocket.sent) + if o.Forwarded? then [o.frame] else []
      ensures forall c: Channel :: c in old(ChannelFor(data)) ==>
                c.sent == old(c.sent)
                          + if Route(data, old(TableView(data, junk))) == SentOn(c, data) then [data] else []
      ensures |data| < 40 ==> forwardSocket.sent == old(forwardSocket.sent)
      ensures |data| >= 40 && Prefix(HexEncode(data[20..40])) in shortUidMap ==>
                var t := shortUidMap[Prefix(HexEncode(data[20..40]))];
                && (!t.writable ==> forwardSocket.sent == old(forwardSocket.sent) + [[3, 2] + data])
                && (t.writable && t.channel != null ==>
                      forwardSocket.sent == old(forwardSocket.sent) && t.channel.sent == old(t.channel.sent) + [data])
    {
      junk := 0;
      if |data| >= HEADER {
        KeysArePrefixes(data);
      }
      if |data| < HEADER { return; }
      var dest := DestKey(data);
      NullTestNeverMatches(dest);
      if NullTest(dest) || dest !in shortUidMap {
        var msg := new Byte[|data| + FRAME_HEADER];
        junk := msg[1];
        msg[0] := VERSION;
        if |data| > HEADER + 6 && IsIcc(data) {
          if data[HEADER + MAC_OFFSET] == ICC_PACKET {
            msg[1] := ICC_PACKET;
          } else if data[HEADER + MAC_OFFSET] == ICC_CONTROL {
            msg[1] := ICC_CONTROL;
          }
        } else {
          msg[1] := DATA;
        }
        assert msg[1] == MissTag(data, junk);
        Forward(msg, data);
        return;
      }
      var t := shortUidMap[dest];
      if t.writable {
        var channel := t.channel;
        if channel != null {
          channel.SendPacket(data);
        } else {
          ForwardData(data);
        }
      } else {
        ForwardData(data);
      }
    }

    method ForwardData(data: Packet)
      modifies forwardSocket
      ensures forwardSocket.sent == old(forwardSocket.sent) + [Frame(DATA, data)]
    {
      var msg := new Byte[|data| + FRAME_HEADER];
      msg[0], msg[1] := VERSION, DATA;
      Forward(msg, data);
    }

    method OnReadPacket(channel: Channel, data: Packet)
      modifies this`recvQueue
      ensures recvQueue ==
                if |data| >= 40 && Prefix(HexEncode(data[..20])) in shortUidMap
                   && shortUidMap[Prefix(HexEncode(data[..20]))].channel == channel
                then old(recvQueue) + [data] else old(recvQueue)
    {
      if |data| < HEADER { return; }
      var source := SourceKey(data);
      KeysArePrefixes(data);
      if source in shortUidMap && shortUidMap[source].channel == channel {
        recvQueue := recvQueue + [data];
      }
    }

    method DoPacketSend(data: Packet) returns (n: nat)
      modifies this`sendQueue, this`signals
      ensures n == |data| && sendQueue == old(sendQueue) + [data] && signals == old(signals) + 1
    {
      sendQueue := sendQueue + [data];
      signals := signals + 1;
      n := |data|;
    }

    /** Runs one posted signal; the queue is never empty then. */
    method HandleQueueSignal() returns (ghost junk: Byte)
      requires signals > 0 && sendQueue != []
      modifies this`sendQueue, this`signals, forwardSocket, ChannelFor(sendQueue[0])
      ensures [old(sendQueue[0])] + sendQueue == old(sendQueue) && signals == old(signals) - 1
      ensures var o := Route(old(sendQueue[0]), old(TableView(sendQueue[0], junk)));
              forwardSocket.sent == old(forwardSocket.sent) + if o.Forwarded? then [o.frame] else []
      ensures forall c: Channel :: c in old(ChannelFor(sendQueue[0])) ==>
                var p := old(sendQueue[0]);
                c.sent == old(c.sent)
                          + if Route(p, old(TableView(sendQueue[0], junk))) == SentOn(c, p) then [p] else []
    {
      var packet := sendQueue[0];
      sendQueue := sendQueue[1..];
      signals := signals - 1;
      junk := HandlePacket(packet);
    }

    /** One attempt to receive: `None` stands for a caller that goes on waiting.  The
        packet is taken off the queue even when it does not fit. */
    method DoPacketRecv(buf: array<Byte>) returns (n: Option<int>)
      modifies this`recvQueue, buf
      ensures n.None? <==> old(recvQueue) == []
      ensures n.None? ==> recvQueue == [] && buf[..] == old(buf[..])
      ensures n.Some? ==> [old(recvQueue[0])] + recvQueue == old(recvQueue)
      ensures n.Some? && |old(recvQueue[0])| > buf.Length ==> n.value == -1 && buf[..] == old(buf[..])
      ensures n.Some? && |old(recvQueue[0])| <= buf.Length ==>
                n.value == |old(recvQueue[0])| && buf[..n.value] == old(recvQueue[0])
    {
      if recvQueue == [] {
        return None;
      }
      var packet := recvQueue[0];
      recvQueue := recvQueue[1..];
      if |packet| > buf.Length {
        return Some(-1);
      }
      forall i | 0 <= i < |packet| {
        buf[i] := packet[i];
      }
      n := Some(|packet|);
    }

    method SendToTap(data: Packet) returns (n: nat)
      modifies this`recvQueue
      ensures n == |data| && recvQueue == old(recvQueue) + [data]
    {
      recvQueue := recvQueue + [data];
      n := |data|;
    }
  }

  /** One legal creation keeps the indices inverse and the short entries live. */
  lemma CreateKeepsIndices<A>(i: Index<A>, u: Uid, t: A)
    requires Inverse(i) && ShortsLive(i) && u !in i.uids && t !in i.transports
    ensures Inverse(Create(i, u, t)) && ShortsLive(Create(i, u, t))
  {
  }

  lemma DestroyKeepsIndices<A>(i: Index<A>, u: Uid)
    requires Inverse(i) && ShortsLive(i) && u in i.uids
    ensures Inverse(Destroy(i, u)) && ShortsLive(Destroy(i, u))
  {
  }

  datatype Family = Inet | Inet6 | OtherFamily

  class ControllerAccess {
    const manager: ConnectionManager
    const socket: DatagramSocket
    const socket6: DatagramSocket
    var control: seq<seq<Byte>>         // messages left to the JSON dispatch

    constructor (manager: ConnectionManager, socket: DatagramSocket, socket6: DatagramSocket)
      ensures this.manager == manager && this.socket == socket && this.socket6 == socket6 && control == []
    {
      this.manager, this.socket, this.socket6, control := manager, socket, socket6, [];
    }

    /** Type dispatch of an incoming datagram. */
    method HandlePacket(msg: seq<Byte>)
      requires |msg| >= FRAME_HEADER
      modifies this`control, manager`recvQueue, manager`sendQueue, manager`signals
      ensures manager.recvQueue == old(manager.recvQueue) + if msg[1] == 2 then [msg[2..]] else []
      ensures manager.sendQueue == old(manager.sendQueue) + if msg[1] in {3, 4} then [msg[2..]] else []
      ensures manager.signals == old(manager.signals) + if msg[1] in {3, 4} then 1 else 0
      ensures control == old(control) + if msg[1] in {2, 3, 4} then [] else [msg]
      ensures match Dispatch(msg)
              case ToTap(p) => manager.recvQueue == old(manager.recvQueue) + [p]
              case ToSendQueue(p) => manager.sendQueue == old(manager.sendQueue) + [p]
              case ToControl(m) => control == old(control) + [m]
    {
      if msg[1] == DATA {
        var _ := manager.SendToTap(msg[FRAME_HEADER..]);
        return;
      }
      if msg[1] == ICC_CONTROL || msg[1] == ICC_PACKET {
        var _ := manager.DoPacketSend(msg[FRAME_HEADER..]);
        return;
      }
      control := control + [msg];
    }

    /** Sends a control message through the socket of the address family, if any. */
    method SendTo(data: seq<Byte>, family: Family)
      requires socket != socket6
      modifies socket, socket6
      ensures socket.sent == old(socket.sent) + if family == Inet then [[3, 1] + data] else []
      ensures socket6.sent == old(socket6.sent) + if family == Inet6 then [[3, 1] + data] else []
    {
      var msg := new Byte[|data| + FRAME_HEADER];
      msg[0] := VERSION;
      msg[1] := CONTROL;
      forall i | 0 <= i < |data| {
        msg[FRAME_HEADER + i] := data[i];
      }
      assert msg[..] == [3, 1] + data;
      if family == Inet {
        socket.SendTo(msg);
      } else if family == Inet6 {
        socket6.SendTo(msg);
      }
    }
  }
}
