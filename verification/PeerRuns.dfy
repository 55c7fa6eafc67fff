/** Whole operations as runs: creating and destroying links completes, and the runs in
    which routing by short keys goes wrong. */
module PeerRuns {
  import opened Text
  import opened Framing
  import opened PeerTable
  import opened PeerSystem
  import opened PeerSafety

  /** No operation in flight, nothing in hand and nothing waiting. */
  predicate Quiet(s: Sys) {
    s.link.LinkIdle? && s.packet.PacketIdle? && s.mailbox == []
  }

  lemma SetSelfCompletes(s: Sys, u: Uid)
    requires Reachable(s) && Quiet(s) && s.self == "" && |u| == ID_SIZE
    ensures Reachable(s.(self := u))
  {
    StepIsReachable(s, SetSelf(u));
  }

  /** The packet thread runs the one closure in its mailbox. */
  lemma ClosureRuns(s: Sys, f: Closure)
    requires Reachable(s) && s.packet.PacketIdle? && s.mailbox == [Invoke(f)]
    ensures Reachable(RunClosure(s.(mailbox := []), f))
  {
    StepIsReachable(s, TakeMessage);
  }

  lemma StoringReachesInsert(s: Sys, u: Uid, t: Addr, c: Chan)
    requires Reachable(s) && Quiet(s) && u !in s.idx.uids && u != s.self && t !in s.heap && t != NIL
    ensures Reachable(s.(heap := s.heap[t := Transport(Some(c), false, u, s.self)],
                         idx := StoreTransport(StoreUid(s.idx, u, t), u, t),
                         link := TransportStored(u, t)))
  {
    StepIsReachable(s, BeginCreate(u, t, c));
    var s1 := s.(heap := s.heap[t := Transport(Some(c), false, u, s.self)], link := Creating(u, t));
    StepIsReachable(s1, DoStoreUid);
    var s2 := s1.(idx := StoreUid(s.idx, u, t), link := UidStored(u, t));
    StepIsReachable(s2, DoStoreTransport);
  }

  /** From any quiet reachable state a run creates the link to any absent uid other than
      the own one, with any transport not in use. */
  lemma CreateCompletes(s: Sys, u: Uid, t: Addr, c: Chan)
    requires Reachable(s) && Quiet(s) && u !in s.idx.uids && u != s.self && t !in s.heap && t != NIL
    ensures Reachable(AfterCreate(s, u, t, c))
  {
    StoringReachesInsert(s, u, t, c);
    var s3 := s.(heap := s.heap[t := Transport(Some(c), false, u, s.self)],
                 idx := StoreTransport(StoreUid(s.idx, u, t), u, t),
                 link := TransportStored(u, t));
    StepIsReachable(s3, PostInsert);
    var s4 := s3.(link := AwaitInsert(u, t), mailbox := [Invoke(Insert(Prefix(u), t))]);
    assert LinkStep(s3, PostInsert) == s4;
    ClosureRuns(s4, Insert(Prefix(u), t));
    assert RunClosure(s4.(mailbox := []), Insert(Prefix(u), t)) == AfterCreate(s, u, t, c);
  }

  function AfterCreate(s: Sys, u: Uid, t: Addr, c: Chan): Sys {
    s.(heap := s.heap[t := Transport(Some(c), false, u, s.self)],
       idx := Create(s.idx, u, t),
       ops := s.ops + [Created(u, t)])
  }

  lemma DeletingReachesErase(s: Sys, u: Uid)
    requires Reachable(s) && Quiet(s) && u in s.idx.uids
    ensures Reachable(s.(idx := DeleteShort(s.idx, Prefix(u)), link := ShortDeleted(u)))
  {
    StepIsReachable(s, BeginDestroy(u));
    var s1 := s.(link := AwaitDelete(u), mailbox := [Invoke(Delete(Prefix(u)))]);
    assert LinkStep(s, BeginDestroy(u)) == s1;
    ClosureRuns(s1, Delete(Prefix(u)));
    assert s1.(mailbox := []) == s.(link := AwaitDelete(u));
  }

  lemma ErasingReachesTeardown(s: Sys, u: Uid, t: Addr)
    requires Reachable(s) && s.link == ShortDeleted(u) && u in s.idx.uids && s.idx.uids[u] == t && t in s.heap
    ensures Reachable(s.(idx := EraseUid(EraseTransport(s.idx, t), u), link := UidErased(t),
                         ops := s.ops + [Destroyed(u)]))
  {
    StepIsReachable(s, DoEraseTransport);
    var s1 := s.(idx := EraseTransport(s.idx, t), link := TransportErased(u, t));
    StepIsReachable(s1, DoEraseUid);
  }

  lemma TearingDownReachesFree(s: Sys, t: Addr)
    requires Reachable(s) && s.link == UidErased(t) && s.packet.PacketIdle? && s.mailbox == [] && t in s.heap
    ensures Reachable(s.(heap := s.heap[t := s.heap[t].(channel := None)], link := TornDown(t)))
  {
    StepIsReachable(s, PostTeardown);
    var s1 := s.(link := AwaitTeardown(t), mailbox := [Invoke(Teardown(t))]);
    assert LinkStep(s, PostTeardown) == s1;
    ClosureRuns(s1, Teardown(t));
  }

  lemma TearingDownFrees(s: Sys, t: Addr)
    requires Reachable(s) && s.link == UidErased(t) && s.packet.PacketIdle? && s.mailbox == [] && t in s.heap
    ensures Reachable(s.(heap := s.heap - {t}, link := LinkIdle))
  {
    TearingDownReachesFree(s, t);
    var s2 := s.(heap := s.heap[t := s.heap[t].(channel := None)], link := TornDown(t));
    StepIsReachable(s2, Free);
    assert s2.heap - {t} == s.heap - {t};
  }

  function AfterDestroy(s: Sys, u: Uid): Sys
    requires u in s.idx.uids
  {
    s.(heap := s.heap - {s.idx.uids[u]}, idx := Destroy(s.idx, u), ops := s.ops + [Destroyed(u)])
  }

  /** And a run destroys any link there is and frees its transport. */
  lemma DestroyCompletes(s: Sys, u: Uid)
    requires Reachable(s) && Quiet(s) && u in s.idx.uids
    ensures Reachable(AfterDestroy(s, u))
  {
    var t := s.idx.uids[u];
    TransportsConserved(s);
    DeletingReachesErase(s, u);
    var s1 := s.(idx := DeleteShort(s.idx, Prefix(u)), link := ShortDeleted(u));
    assert t in s.idx.uids.Values;
    ErasingReachesTeardown(s1, u, t);
    var s2 := s1.(idx := EraseUid(EraseTransport(s1.idx, t), u), link := UidErased(t), ops := s.ops + [Destroyed(u)]);
    TearingDownFrees(s2, t);
    assert s2.(heap := s2.heap - {t}, link := LinkIdle) == AfterDestroy(s, u);
  }

  /** Asking for the statistics of a link takes one round trip and changes nothing. */
  lemma StatsComplete(s: Sys, u: Uid)
    requires Reachable(s) && Quiet(s) && u in s.idx.uids
    ensures LinkEnabled(s, AskStats(u))
    ensures var s1 := LinkStep(s, AskStats(u)); PacketEnabled(s1, TakeMessage) && PacketStep(s1, TakeMessage) == s
  {
    ReachableInv(s);
    HistoryKeepsIndices(s.ops);
    RegisteredHaveChannels(s);
    var s1 := LinkStep(s, AskStats(u));
    assert s1.mailbox == [Invoke(Stats(u))];
    assert s1.(mailbox := s1.mailbox[1..]) == s.(link := AwaitStats(u));
  }

  // ---------- packets that get through ----------

  /** Quiet, and no packet on its way out. */
  predicate Idle(s: Sys) {
    Quiet(s) && s.sendQueue == [] && s.unposted == 0
  }

  function Given(s: Sys, p: Packet): Sys {
    s.(handed := s.handed + [p], sendQueue := [p], packet := Dispatching)
  }

  function Handled(s: Sys, p: Packet, v: View<Chan>, o: Outcome<Chan>): Sys {
    s.(handed := s.handed + [p], seen := v, views := s.views + [v], outcomes := s.outcomes + [o])
  }

  lemma GivenIsReachable(s: Sys, p: Packet)
    requires Reachable(s) && Idle(s)
    ensures Reachable(Given(s, p))
  {
    StepIsReachable(s, AddPacket(p));
    var s1 := s.(handed := s.handed + [p], sendQueue := [p], unposted := 1);
    StepIsReachable(s1, PostSignal);
    var s2 := s1.(unposted := 0, mailbox := [Signal]);
    StepIsReachable(s2, TakeMessage);
    assert s2.(mailbox := s2.mailbox[1..], packet := Dispatching) == Given(s, p);
  }

  /** A packet whose destination is not found, or without a full header, is done with when
      it is taken. */
  lemma MissCompletes(s: Sys, p: Packet, junk: Byte)
    requires Reachable(s) && Idle(s) && (|p| < HEADER || DestKey(p) !in s.idx.shorts)
    ensures var v := View(false, false, None, junk);
            Reachable(Handled(s, p, v, Route(p, v)))
  {
    GivenIsReachable(s, p);
    StepIsReachable(Given(s, p), TakePacket(junk));
    var v := View(false, false, None, junk);
    assert PacketStep(Given(s, p), TakePacket(junk)) == Handled(s, p, v, Route(p, v));
  }

  function Found(s: Sys, p: Packet, v: View<Chan>, k: PacketPc): Sys {
    s.(handed := s.handed + [p], seen := v, packet := k)
  }

  lemma FoundIsReachable(s: Sys, p: Packet, t: Addr, junk: Byte)
    requires Reachable(s) && Idle(s) && |p| >= HEADER && DestKey(p) in s.idx.shorts && t == s.idx.shorts[DestKey(p)]
    ensures Reachable(Found(s, p, View(true, false, None, junk), Looked(p, t)))
  {
    GivenIsReachable(s, p);
    NullTestNeverMatches(DestKey(p));
    StepIsReachable(Given(s, p), TakePacket(junk));
    assert PacketStep(Given(s, p), TakePacket(junk)) == Found(s, p, View(true, false, None, junk), Looked(p, t));
  }

  lemma HitCompletes(s: Sys, p: Packet, t: Addr, c: Chan, junk: Byte)
    requires Reachable(s) && Idle(s) && |p| >= HEADER && DestKey(p) in s.idx.shorts && t == s.idx.shorts[DestKey(p)]
    requires t in s.heap && s.heap[t].channel == Some(c)
    ensures var w := s.heap[t].writable;
            var v := View(true, w, if w then Some(c) else None, junk);
            Reachable(Handled(s, p, v, Route(p, v)))
  {
    FoundIsReachable(s, p, t, junk);
    var s1 := Found(s, p, View(true, false, None, junk), Looked(p, t));
    StepIsReachable(s1, CheckWritable);
    if s.heap[t].writable {
      var s2 := Found(s, p, View(true, true, None, junk), Writable(p, t));
      assert PacketStep(s1, CheckWritable) == s2;
      StepIsReachable(s2, CheckChannel);
      var s3 := Found(s, p, View(true, true, Some(c), junk), HaveChannel(p, t, c));
      assert PacketStep(s2, CheckChannel) == s3;
      StepIsReachable(s3, SendOnChannel);
    }
  }

  /** From any idle reachable state, a packet handed in has a run that handles it: it is
      dropped under 40 bytes; else, with `k` the prefix of its destination identity, it is
      sent unchanged on the channel of the transport registered under `k` if that is
      writable, and forwarded if it is not, or if there is none. */
  lemma SendCompletes(s: Sys, p: Packet, junk: Byte) returns (s': Sys)
    requires Reachable(s) && Idle(s)
    ensures Reachable(s') && Idle(s') && s'.idx == s.idx && s'.heap == s.heap && s'.self == s.self
    ensures |s'.outcomes| == |s.outcomes| + 1 && s.outcomes <= s'.outcomes && s'.handed == s.handed + [p]
    ensures var o := s'.outcomes[|s.outcomes|];
            if |p| < 40 then o == Dropped
            else
              var k := Prefix(HexEncode(p[20..40]));
              if k in s.idx.shorts then
                var t := s.idx.shorts[k];
                && t in s.heap && s.heap[t].channel.Some?
                && o == if s.heap[t].writable then SentOn(s.heap[t].channel.value, p) else Forwarded([3, 2] + p)
              else o == Forwarded(Frame(MissTag(p, junk), p))
  {
    ReachableInv(s);
    RegisteredHaveChannels(s);
    DispatchByType(VERSION, DATA, p);
    if |p| >= HEADER {
      KeysArePrefixes(p);
    }
    var v := View(false, false, None, junk);
    if |p| < HEADER || DestKey(p) !in s.idx.shorts {
      MissCompletes(s, p, junk);
    } else {
      var x := s.heap[s.idx.shorts[DestKey(p)]];
      HitCompletes(s, p, s.idx.shorts[DestKey(p)], x.channel.value, junk);
      v := View(true, x.writable, if x.writable then x.channel else None, junk);
    }
    s' := Handled(s, p, v, Route(p, v));
  }

  lemma DeliveryReachesCheck(s: Sys, c: Chan, p: Packet, t: Addr)
    requires Reachable(s) && Quiet(s) && |p| >= HEADER
    requires SourceKey(p) in s.idx.shorts && s.idx.shorts[SourceKey(p)] == t
    requires t in s.heap && s.heap[t].channel == Some(c)
    ensures Reachable(s.(packet := ReadLooked(c, p, t)))
  {
    StepIsReachable(s, NetworkRead(c, p));
    var s1 := s.(mailbox := [Readable(c, p)]);
    assert OtherStep(s, NetworkRead(c, p)) == s1;
    StepIsReachable(s1, TakeMessage);
    assert PacketStep(s1, TakeMessage) == s.(packet := ReadLooked(c, p, t));
  }

  lemma CheckReachesArrival(s: Sys, c: Chan, p: Packet, t: Addr)
    requires Reachable(s) && s.packet == ReadLooked(c, p, t) && t in s.heap && s.heap[t].channel == Some(c)
    ensures Reachable(s.(packet := PacketIdle, recvQueue := s.recvQueue + [p], arrivals := s.arrivals + [FromPeer(c, p)]))
  {
    StepIsReachable(s, CheckReadChannel);
  }

  /** And a packet that the network delivers on the channel registered for its source is
      read by the tap as it came. */
  lemma ReceiveCompletes(s: Sys, c: Chan, p: Packet, room: nat) returns (s': Sys)
    requires Reachable(s) && Quiet(s) && s.recvQueue == [] && 40 <= |p| <= room
    requires Prefix(HexEncode(p[..20])) in s.idx.shorts
    requires var t := s.idx.shorts[Prefix(HexEncode(p[..20]))]; t in s.heap && s.heap[t].channel == Some(c)
    ensures Reachable(s') && Quiet(s') && s'.idx == s.idx && s'.heap == s.heap
    ensures s'.tapReads == s.tapReads + [TapRead(room, Some(p))]
  {
    KeysArePrefixes(p);
    var t := s.idx.shorts[SourceKey(p)];
    DeliveryReachesCheck(s, c, p, t);
    CheckReachesArrival(s.(packet := ReadLooked(c, p, t)), c, p, t);
    var s1 := s.(recvQueue := [p], arrivals := s.arrivals + [FromPeer(c, p)]);
    StepIsReachable(s1, ReadTap(room));
    s' := OtherStep(s1, ReadTap(room));
  }

  /** So is a packet from the controller, of any length. */
  lemma ControllerPacketCompletes(s: Sys, p: Packet, room: nat) returns (s': Sys)
    requires Reachable(s) && Quiet(s) && s.recvQueue == [] && |p| <= room
    ensures Reachable(s') && Quiet(s') && s'.idx == s.idx && s'.heap == s.heap
    ensures s'.tapReads == s.tapReads + [TapRead(room, Some(p))]
  {
    StepIsReachable(s, ControllerData(p));
    var s1 := s.(recvQueue := [p], arrivals := s.arrivals + [FromController(p)]);
    assert OtherStep(s, ControllerData(p)) == s1;
    StepIsReachable(s1, ReadTap(room));
    s' := OtherStep(s1, ReadTap(room));
  }

  /** From the start: a node set up as `self` links to `peer`, the link becomes writable,
      and the first packet to `peer` is sent on its channel. */
  lemma FirstPacketIsSent(self: Uid, peer: seq<Byte>, p: Packet, c: Chan) returns (s: Sys)
    requires |self| == ID_SIZE && |peer| == ID_BYTES && self != HexEncode(peer)
    requires |p| >= 40 && p[20..40] == peer
    ensures Reachable(s) && s.self == self && HexEncode(peer) in s.idx.uids
    ensures s.handed == [p] && s.outcomes == [SentOn(c, p)]
  {
    StartIsReachable();
    SetSelfCompletes(START, self);
    var u, s1 := HexEncode(peer), START.(self := self);
    CreateCompletes(s1, u, 1, c);
    var s2 := AfterCreate(s1, u, 1, c);
    StepIsReachable(s2, SetWritable(1, true));
    s := SendCompletes(OtherStep(s2, SetWritable(1, true)), p, 0);
  }

  // ---------- where short keys go wrong ----------

  /** A packet to the identity `id`. */
  function PacketTo(id: seq<Byte>): Packet {
    seq(ID_BYTES, _ => 0) + id
  }

  lemma PacketToHasDest(id: seq<Byte>)
    requires |id| == ID_BYTES
    ensures |PacketTo(id)| == HEADER && DestUid(PacketTo(id)) == HexEncode(id)
    ensures DestKey(PacketTo(id)) == Prefix(HexEncode(id))
  {
    var p := PacketTo(id);
    assert p[ID_BYTES..HEADER] == id;
    KeysArePrefixes(p);
  }

  lemma SharedPrefix(a: seq<Byte>, b: seq<Byte>)
    requires |a| == |b| == ID_BYTES && a != b && a[..SHORT_LEN] == b[..SHORT_LEN]
    ensures HexEncode(a) != HexEncode(b) && Prefix(HexEncode(a)) == Prefix(HexEncode(b))
  {
    ShortKeyIsPrefix(a);
    ShortKeyIsPrefix(b);
    if HexEncode(a) == HexEncode(b) {
      HexEncodeInjective(a, b);
    }
  }

  /** Without any collision of registered uids: with only `a` registered, a packet to
      another identity `b` with the same first 8 bytes finds the transport of `a`. */
  lemma StrangerGetsThePacket(a: seq<Byte>, b: seq<Byte>) returns (s: Sys, p: Packet)
    requires |a| == |b| == ID_BYTES && a != b && a[..SHORT_LEN] == b[..SHORT_LEN]
    ensures Reachable(s) && s.link.LinkIdle? && NeverCollided(s.ops)
    ensures |p| >= HEADER && DestUid(p) == HexEncode(b) && DestUid(p) !in s.idx.uids
    ensures HexEncode(a) in s.idx.uids && DestKey(p) in s.idx.shorts
            && s.idx.shorts[DestKey(p)] == s.idx.uids[HexEncode(a)]
    ensures !RoutedByUid(s, p)
  {
    SharedPrefix(a, b);
    PacketToHasDest(b);
    StartIsReachable();
    CreateCompletes(START, HexEncode(a), 1, 1);
    s, p := AfterCreate(START, HexEncode(a), 1, 1), PacketTo(b);
    CollisionSnoc(START.ops, Created(HexEncode(a), 1));
  }

  /** After a collision: `b` is the only registered uid, and yet a packet to it finds
      nothing. */
  lemma SurvivorIsMissed(a: seq<Byte>, b: seq<Byte>) returns (s: Sys, p: Packet)
    requires |a| == |b| == ID_BYTES && a != b && a[..SHORT_LEN] == b[..SHORT_LEN]
    ensures Reachable(s) && s.link.LinkIdle? && s.idx.uids.Keys == {HexEncode(b)}
    ensures |p| >= HEADER && DestUid(p) == HexEncode(b) && DestKey(p) !in s.idx.shorts
    ensures !RoutedByUid(s, p)
  {
    SharedPrefix(a, b);
    PacketToHasDest(b);
    var u, v := HexEncode(a), HexEncode(b);
    StartIsReachable();
    CreateCompletes(START, u, 1, 1);
    var s1 := AfterCreate(START, u, 1, 1);
    CreateCompletes(s1, v, 2, 2);
    var s2 := AfterCreate(s1, v, 2, 2);
    DestroyCompletes(s2, u);
    s, p := AfterDestroy(s2, u), PacketTo(b);
    assert s.idx.uids.Keys == {v};
  }
}
