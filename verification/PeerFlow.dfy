/** Packets through the two threads: a packet is queued for every signal, the send
    pipeline refines a sequential router, and what the tap reads is what arrived, in
    order. */
module PeerFlow {
  import opened Text
  import opened Framing
  import opened PeerTable
  import opened PeerSystem
  import opened PeerSafety
  import opened PeerEvents

  // ---------- packets behind the signals ----------

  /** A packet is queued for each signal posted, for each producer that has not
      posted yet, and for the signal being dispatched; and for nothing else. */
  ghost predicate SignalsMatch(s: Sys) {
    |s.sendQueue| == Signals(s.mailbox) + s.unposted + (if s.packet.Dispatching? then 1 else 0)
  }

  lemma PacketKeepsSignals(s: Sys, e: Event)
    requires SignalsMatch(s) && OfPacket(e) && PacketEnabled(s, e)
    ensures SignalsMatch(PacketStep(s, e))
  {
    if e.TakeMessage? {
      MessageFrame(s);
    }
  }

  lemma LinkKeepsSignals(s: Sys, e: Event)
    requires SignalsMatch(s) && OfLink(e) && LinkEnabled(s, e)
    ensures SignalsMatch(LinkStep(s, e))
  {
    match e
    case PostInsert => BoxSnoc(s.mailbox, Invoke(Insert(Prefix(s.link.uid), s.link.t)));
    case BeginDestroy(u) => BoxSnoc(s.mailbox, Invoke(Delete(Prefix(u))));
    case PostTeardown => BoxSnoc(s.mailbox, Invoke(Teardown(s.link.t)));
    case AskStats(u) => BoxSnoc(s.mailbox, Invoke(Stats(u)));
    case _ =>
  }

  lemma StepKeepsSignals(s: Sys, e: Event)
    requires SignalsMatch(s) && Enabled(s, e)
    ensures SignalsMatch(Step(s, e))
  {
    if OfLink(e) {
      LinkKeepsSignals(s, e);
    } else if OfPacket(e) {
      PacketKeepsSignals(s, e);
    } else if e.PostSignal? {
      BoxSnoc(s.mailbox, Signal);
    } else if e.NetworkRead? {
      BoxSnoc(s.mailbox, Readable(e.c, e.packet));
    }
  }

  // ---------- the send pipeline ----------

  function InHand(k: PacketPc): seq<Packet> {
    match k
    case Looked(p, _) => [p]
    case Writable(p, _) => [p]
    case HaveChannel(p, _, _) => [p]
    case _ => []
  }

  /** The packets handed in are those handled, the one in hand and those queued; the
      outcomes are those of the sequential router on the answers the tables gave; and
      the packet in hand has come as far as those answers let it. */
  ghost predicate Pipeline(s: Sys) {
    var n := |s.outcomes|;
    && n <= |s.handed| && |s.views| == n
    && s.handed[n..] == InHand(s.packet) + s.sendQueue
    && s.outcomes == RouteAll(s.handed[..n], s.views)
    && Answered(s.packet, s.seen)
  }

  predicate Answered(k: PacketPc, v: View<Chan>) {
    match k
    case Looked(p, _) => |p| >= HEADER && v.found
    case Writable(p, _) => |p| >= HEADER && v.found && v.writable
    case HaveChannel(p, _, c) => |p| >= HEADER && v.found && v.writable && v.channel == Some(c)
    case _ => true
  }

  lemma FinishKeepsPipeline(s: Sys, p: Packet, o: Outcome<Chan>)
    requires |s.outcomes| < |s.handed| && |s.views| == |s.outcomes|
    requires s.handed[|s.outcomes|..] == [p] + s.sendQueue
    requires s.outcomes == RouteAll(s.handed[..|s.outcomes|], s.views)
    requires o == Route(p, s.seen)
    ensures Pipeline(Finish(s, o))
  {
    var n, s' := |s.outcomes|, Finish(s, o);
    assert s.handed[n] == s.handed[n..][0] == p;
    assert s.handed[n + 1..] == s.handed[n..][1..];
    assert s'.outcomes == RouteAll(s'.handed[..n + 1], s'.views);
  }

  lemma TakeKeepsPipeline(s: Sys, junk: Byte)
    requires Pipeline(s) && PacketEnabled(s, TakePacket(junk))
    ensures Pipeline(PacketStep(s, TakePacket(junk)))
  {
    var p := s.sendQueue[0];
    var found := |p| >= HEADER && DestKey(p) in s.idx.shorts;
    var s1 := s.(sendQueue := s.sendQueue[1..], seen := View(found, false, None, junk));
    assert s.sendQueue == [p] + s1.sendQueue;
    if |p| >= HEADER {
      NullTestNeverMatches(DestKey(p));
    }
    FinishKeepsPipeline(s1, p, Route(p, s1.seen));
  }

  lemma MessageKeepsPipeline(s: Sys)
    requires Pipeline(s) && PacketEnabled(s, TakeMessage)
    ensures Pipeline(PacketStep(s, TakeMessage))
  {
    MessageFrame(s);
  }

  lemma WritableKeepsPipeline(s: Sys)
    requires Pipeline(s) && PacketEnabled(s, CheckWritable)
    ensures Pipeline(PacketStep(s, CheckWritable))
  {
    var Looked(p, t) := s.packet;
    if t in s.heap {
      var s1 := s.(seen := s.seen.(writable := s.heap[t].writable));
      FinishKeepsPipeline(s1, p, Route(p, s1.seen));
    }
  }

  lemma ChannelKeepsPipeline(s: Sys)
    requires Pipeline(s) && PacketEnabled(s, CheckChannel)
    ensures Pipeline(PacketStep(s, CheckChannel))
  {
    var Writable(p, t) := s.packet;
    if t in s.heap {
      var s1 := s.(seen := s.seen.(channel := s.heap[t].channel));
      FinishKeepsPipeline(s1, p, Route(p, s1.seen));
    }
  }

  lemma SendKeepsPipeline(s: Sys)
    requires Pipeline(s) && PacketEnabled(s, SendOnChannel)
    ensures Pipeline(PacketStep(s, SendOnChannel))
  {
    FinishKeepsPipeline(s, s.packet.p, Route(s.packet.p, s.seen));
  }

  lemma PacketKeepsPipeline(s: Sys, e: Event)
    requires Pipeline(s) && OfPacket(e) && PacketEnabled(s, e)
    ensures Pipeline(PacketStep(s, e))
  {
    match e
    case TakeMessage => MessageKeepsPipeline(s);
    case TakePacket(junk) => TakeKeepsPipeline(s, junk);
    case CheckWritable => WritableKeepsPipeline(s);
    case CheckChannel => ChannelKeepsPipeline(s);
    case SendOnChannel => SendKeepsPipeline(s);
    case CheckReadChannel =>
  }

  lemma StepKeepsPipeline(s: Sys, e: Event)
    requires Pipeline(s) && Enabled(s, e)
    ensures Pipeline(Step(s, e))
  {
    if OfLink(e) {
      LinkFrame(s, e);
    } else if OfPacket(e) {
      PacketKeepsPipeline(s, e);
    } else if e.AddPacket? {
      var n := |s.outcomes|;
      assert Step(s, e).handed[n..] == s.handed[n..] + [e.packet];
      assert Step(s, e).handed[..n] == s.handed[..n];
    }
  }

  // ---------- the receive queue ----------

  function Packets(arrivals: seq<Arrival>): seq<Packet> {
    seq(|arrivals|, i requires 0 <= i < |arrivals| => arrivals[i].packet)
  }

  function Fit(p: Packet, room: nat): Option<Packet> {
    if |p| > room then None else Some(p)
  }

  /** The tap has read a prefix of what arrived, in order; the rest is the queue. */
  ghost predicate Received(s: Sys) {
    var n := |s.tapReads|;
    && n <= |s.arrivals|
    && s.recvQueue == Packets(s.arrivals)[n..]
    && (forall i :: 0 <= i < n ==> s.tapReads[i].result == Fit(s.arrivals[i].packet, s.tapReads[i].room))
    && (forall a :: a in s.arrivals && a.FromPeer? ==> |a.packet| >= HEADER)
  }

  lemma ArrivalKeepsReceived(s: Sys, a: Arrival)
    requires Received(s) && (a.FromPeer? ==> |a.packet| >= HEADER)
    ensures Received(s.(recvQueue := s.recvQueue + [a.packet], arrivals := s.arrivals + [a]))
  {
    assert Packets(s.arrivals + [a]) == Packets(s.arrivals) + [a.packet];
    assert Packets(s.arrivals + [a])[|s.tapReads|..] == Packets(s.arrivals)[|s.tapReads|..] + [a.packet];
  }

  lemma PacketKeepsReceived(s: Sys, e: Event)
    requires PacketInv(s) && Received(s) && OfPacket(e) && PacketEnabled(s, e)
    ensures Received(PacketStep(s, e))
  {
    if e.TakeMessage? {
      MessageFrame(s);
    } else if e.CheckReadChannel? {
      ArrivalKeepsReceived(s, FromPeer(s.packet.c, s.packet.p));
    }
  }

  lemma StepKeepsReceived(s: Sys, e: Event)
    requires PacketInv(s) && Received(s) && Enabled(s, e)
    ensures Received(Step(s, e))
  {
    if OfLink(e) {
      LinkFrame(s, e);
    } else if OfPacket(e) {
      PacketKeepsReceived(s, e);
    } else if e.ControllerData? {
      ArrivalKeepsReceived(s, FromController(e.packet));
    } else if e.ReadTap? {
      var n := |s.tapReads|;
      assert s.recvQueue[0] == Packets(s.arrivals)[n] == s.arrivals[n].packet;
      assert Packets(s.arrivals)[n + 1..] == s.recvQueue[1..];
    }
  }

  // ---------- every run ----------

  ghost predicate Flow(s: Sys) {
    Inv(s) && SignalsMatch(s) && Pipeline(s) && Received(s)
  }

  lemma StepKeepsFlow(s: Sys, e: Event)
    requires Flow(s) && Enabled(s, e)
    ensures Flow(Step(s, e))
  {
    StepKeepsInv(s, e);
    StepKeepsSignals(s, e);
    StepKeepsPipeline(s, e);
    StepKeepsReceived(s, e);
  }

  lemma {:induction false} RunKeepsFlow(s: Sys, es: seq<Event>)
    requires Flow(s) && ValidRun(s, es)
    ensures Flow(Run(s, es))
    decreases |es|
  {
    if es != [] {
      StepKeepsFlow(s, es[0]);
      RunKeepsFlow(Step(s, es[0]), es[1..]);
    }
  }

  lemma ReachableFlow(s: Sys)
    requires Reachable(s)
    ensures Flow(s)
  {
    var es :| ValidRun(START, es) && Run(START, es) == s;
    RunKeepsFlow(START, es);
  }

  // ---------- theorems: sending ----------

  /** Dropped below 40 bytes, else sent as it is or forwarded behind the header. */
  predicate Fate(p: Packet, o: Outcome<Chan>) {
    match o
    case Dropped => |p| < HEADER
    case SentOn(_, q) => |p| >= HEADER && q == p
    case Forwarded(f) => |p| >= HEADER && |f| >= FRAME_HEADER && f[0] == VERSION && f[FRAME_HEADER..] == p
  }

  lemma RunFlow(es: seq<Event>)
    requires ValidRun(START, es)
    ensures Flow(Run(START, es)) && Run(START, es).handed == Added(es)
  {
    RunIsReachable(es);
    ReachableFlow(Run(START, es));
    HistoriesFollowEvents(es);
  }

  /** The pipeline refines the sequential router: the packets that the events of a run
      hand to `DoPacketSend` are, in order, those the router has handled, at most one in
      hand, and those still queued. */
  lemma PipelineRefinesRouter(es: seq<Event>)
    requires ValidRun(START, es)
    ensures var s, added := Run(START, es), Added(es);
            var n := |s.outcomes|;
            && n <= |added| && |s.views| == n
            && added == added[..n] + InHand(s.packet) + s.sendQueue
            && s.outcomes == RouteAll(added[..n], s.views)
  {
    RunFlow(es);
    var s := Run(START, es);
    var n := |s.outcomes|;
    assert s.handed == s.handed[..n] + s.handed[n..];
    assert s.handed == s.handed[..n] + InHand(s.packet) + s.sendQueue;
  }

  /** Each handled packet was dropped, sent or forwarded, as its length and the tables
      ask, with its bytes unchanged. */
  lemma EachPacketMeetsItsFate(es: seq<Event>, i: nat)
    requires ValidRun(START, es) && i < |Run(START, es).outcomes|
    ensures i < |Added(es)| && Fate(Added(es)[i], Run(START, es).outcomes[i])
  {
    RunFlow(es);
    var s := Run(START, es);
    assert s.outcomes[i] == Route(s.handed[i], s.views[i]);
    assert forall tag :: Frame(tag, s.handed[i])[FRAME_HEADER..] == s.handed[i];
  }

  /** Which branch a handled packet took, over all runs: it was sent if and only if its
      destination key was found and the transport was writable when asked, and then on
      the channel the transport had; it was forwarded as a miss if the key was not found;
      and if it was, it was forwarded as data if and only if the transport was not
      writable.  (A writable transport always has a channel.) */
  lemma OutcomeIffAnswers(es: seq<Event>, i: nat)
    requires ValidRun(START, es) && i < |Run(START, es).outcomes|
    ensures i < |Added(es)| && i < |Run(START, es).views|
    ensures var p, v, o := Added(es)[i], Run(START, es).views[i], Run(START, es).outcomes[i];
            |p| >= HEADER ==>
              && (o.SentOn? <==> v.found && v.writable)
              && (forall c :: o == SentOn(c, p) <==> v.found && v.writable && v.channel == Some(c))
              && (!v.found ==> o == Forwarded(Frame(MissTag(p, v.junk), p)))
              && (v.found ==> (o == Forwarded([3, 2] + p) <==> !v.writable))
  {
    RunFlow(es);
    RunKeepsChannelViews(START, es);
    var s := Run(START, es);
    assert s.outcomes[i] == Route(s.handed[i], s.views[i]);
    DispatchByType(VERSION, DATA, s.handed[i]);
  }

  /** A view that found a writable transport has a channel. */
  ghost predicate ChannelViews(s: Sys) {
    forall i :: 0 <= i < |s.views| && s.views[i].found && s.views[i].writable ==> s.views[i].channel.Some?
  }

  lemma StepKeepsChannelViews(s: Sys, e: Event)
    requires Flow(s) && ChannelViews(s) && Enabled(s, e)
    ensures ChannelViews(Step(s, e))
  {
    if OfLink(e) {
      LinkFrame(s, e);
    } else if OfPacket(e) {
      RegisteredHaveChannels(s);
      NewViewHasChannel(s, e);
    }
  }

  lemma NewViewHasChannel(s: Sys, e: Event)
    requires Answered(s.packet, s.seen) && OfPacket(e) && PacketEnabled(s, e)
    requires forall k :: k in s.idx.shorts ==> s.idx.shorts[k] in s.heap && s.heap[s.idx.shorts[k]].channel.Some?
    requires PacketInv(s)
    ensures var vs, vs' := s.views, PacketStep(s, e).views;
            vs' == vs || (|vs'| == |vs| + 1 && vs == vs'[..|vs|]
                          && (vs'[|vs|].found && vs'[|vs|].writable ==> vs'[|vs|].channel.Some?))
  {
    if e.TakeMessage? {
      MessageFrame(s);
    } else if e.CheckChannel? {
      assert HeldFor(s, s.packet.p, s.packet.t);
    }
  }

  lemma {:induction false} RunKeepsChannelViews(s: Sys, es: seq<Event>)
    requires Flow(s) && ChannelViews(s) && ValidRun(s, es)
    ensures ChannelViews(Run(s, es))
    decreases |es|
  {
    if es != [] {
      StepKeepsFlow(s, es[0]);
      StepKeepsChannelViews(s, es[0]);
      RunKeepsChannelViews(Step(s, es[0]), es[1..]);
    }
  }

  /** The answers recorded for the packet in hand, after a step of that packet. */
  ghost function Recorded(s: Sys): View<Chan>
    requires s.packet.PacketIdle? ==> s.views != []
  {
    if s.packet.PacketIdle? then s.views[|s.views| - 1] else s.seen
  }

  /** The answers are the truth.  At each test the packet in hand is the next one handed
      in, and what is recorded is what the tables say then of its destination: whether
      the key is there; whether the live transport registered for a uid with that
      prefix is writable; which channel it has.  Earlier answers stay, and at the send
      the channel is still that transport's. */
  lemma AnswersAreTrue(es: seq<Event>, e: Event) returns (u: Uid)
    requires ValidRun(START, es) && OfPacket(e) && !e.TakeMessage? && !e.CheckReadChannel?
    requires PacketEnabled(Run(START, es), e)
    ensures |Run(START, es).outcomes| < |Added(es)|
    ensures PacketStep(Run(START, es), e).packet.PacketIdle? ==> PacketStep(Run(START, es), e).views != []
    ensures var s := Run(START, es);
            var p, v := Added(es)[|s.outcomes|], Recorded(PacketStep(s, e));
            && (e.TakePacket? ==> v == View(|p| >= HEADER && DestKey(p) in s.idx.shorts, false, None, e.junk))
            && (!e.TakePacket? ==>
                  && |p| >= HEADER && u in s.idx.uids && Prefix(u) == DestKey(p)
                  && var t := s.idx.uids[u];
                  && Prefix(u) in s.idx.shorts && s.idx.shorts[Prefix(u)] == t && t in s.heap && s.packet.t == t
                  && (e.CheckWritable? ==> v == s.seen.(writable := s.heap[t].writable))
                  && (e.CheckChannel? ==> v == s.seen.(channel := s.heap[t].channel))
                  && (e.SendOnChannel? ==> v == s.seen && v.channel.Some? && v.channel == s.heap[t].channel))
  {
    RunFlow(es);
    var s := Run(START, es);
    u := "";
    if e.TakePacket? {
      TakenAnswer(s, e.junk);
    } else {
      TableKeepsPointersLive(s);
      HeldAnswers(s, e);
      var k := DestKey(s.packet.p);
      u :| u in s.idx.uids && Prefix(u) == k && s.idx.uids[u] == s.idx.shorts[k];
    }
  }

  lemma TakenAnswer(s: Sys, junk: Byte)
    requires Pipeline(s) && PacketEnabled(s, TakePacket(junk))
    ensures |s.outcomes| < |s.handed|
    ensures var p, s' := s.handed[|s.outcomes|], PacketStep(s, TakePacket(junk));
            (s'.packet.PacketIdle? ==> s'.views != [])
            && Recorded(s') == View(|p| >= HEADER && DestKey(p) in s.idx.shorts, false, None, junk)
  {
    var n, p := |s.outcomes|, s.sendQueue[0];
    assert s.handed[n] == s.handed[n..][0] == p;
    if |p| >= HEADER {
      NullTestNeverMatches(DestKey(p));
    }
  }

  lemma HeldAnswers(s: Sys, e: Event)
    requires Pipeline(s) && PacketInv(s) && PointersLive(s) && PacketEnabled(s, e)
    requires e.CheckWritable? || e.CheckChannel? || e.SendOnChannel?
    ensures |s.outcomes| < |s.handed|
    ensures var p, t, s' := s.handed[|s.outcomes|], s.packet.t, PacketStep(s, e);
            && p == s.packet.p && HeldFor(s, p, t) && t in s.heap
            && (s'.packet.PacketIdle? ==> s'.views != [])
            && (e.CheckWritable? ==> Recorded(s') == s.seen.(writable := s.heap[t].writable))
            && (e.CheckChannel? ==> Recorded(s') == s.seen.(channel := s.heap[t].channel))
            && (e.SendOnChannel? ==>
                  Recorded(s') == s.seen && s.seen.channel.Some? && s.seen.channel == s.heap[t].channel)
  {
    var n := |s.outcomes|;
    assert s.handed[n] == s.handed[n..][0] == s.packet.p;
  }

  /** A null destination goes to the controller for want of a table entry, not because
      of the null test: exactly when no key of sixteen zeros is in the short index. */
  lemma NullDestinationForwarded(s: Sys, junk: Byte)
    requires PacketEnabled(s, TakePacket(junk)) && |s.sendQueue[0]| >= HEADER
    requires forall i :: ID_BYTES <= i < HEADER ==> s.sendQueue[0][i] == 0
    ensures PacketStep(s, TakePacket(junk)).outcomes ==
              s.outcomes + [Forwarded(Frame(MissTag(s.sendQueue[0], junk), s.sendQueue[0]))]
            <==> "0000000000000000" !in s.idx.shorts
  {
    var p := s.sendQueue[0];
    NullTestNeverMatches(DestKey(p));
    ZeroKey(p);
  }

  lemma ZeroKey(p: Packet)
    requires |p| >= HEADER && forall i :: ID_BYTES <= i < HEADER ==> p[i] == 0
    ensures DestKey(p) == "0000000000000000"
  {
    var id := p[ID_BYTES..ID_BYTES + SHORT_LEN];
    forall k | 0 <= k < 16 ensures HexEncode(id)[k] == "0000000000000000"[k] {
      assert id[k / 2] == p[ID_BYTES + k / 2];
      HexEncodeAt(id, k / 2);
      assert k == 2 * (k / 2) || k == 2 * (k / 2) + 1;
    }
  }

  /** What is forwarded reaches a packet queue of the node whose controller side gets
      the frame, unchanged: always if the lookup hit, and after a miss if the packet is
      well tagged, which is also needed. */
  lemma ForwardedPacketsArrive(es: seq<Event>, i: nat)
    requires ValidRun(START, es) && i < |Run(START, es).outcomes| && Run(START, es).outcomes[i].Forwarded?
    ensures i < |Added(es)| && i < |Run(START, es).views|
    ensures var p, v, f := Added(es)[i], Run(START, es).views[i], Run(START, es).outcomes[i].frame;
            && |f| >= FRAME_HEADER
            && (WellTagged(p) || v.found ==> Delivers(Dispatch(f), p))
            && (!WellTagged(p) && !v.found ==> f == [3, v.junk] + p)
  {
    RunFlow(es);
    var s := Run(START, es);
    var p := s.handed[i];
    assert s.outcomes[i] == Route(p, s.views[i]);
    DispatchByType(VERSION, DATA, p);
    if !s.views[i].found && WellTagged(p) {
      FrameRoundTrip(p, s.views[i].junk);
    }
  }

  // ---------- theorems: receiving ----------

  /** Reads give what arrived, in order and unchanged, except that a packet longer
      than the room of its read is lost.  What arrived is all that the controller gave,
      in order, and some of what the network delivered, in order and with full headers. */
  lemma ReadsFollowArrivals(es: seq<Event>)
    requires ValidRun(START, es)
    ensures var s, rooms := Run(START, es), Rooms(es);
            && |s.tapReads| == |rooms| <= |s.arrivals|
            && (forall i :: 0 <= i < |rooms| ==>
                  (|s.arrivals[i].packet| <= rooms[i] ==> s.tapReads[i].result == Some(s.arrivals[i].packet))
                  && (|s.arrivals[i].packet| > rooms[i] ==> s.tapReads[i].result == None))
            && s.recvQueue == Packets(s.arrivals)[|rooms|..]
            && ControllerArrivals(s.arrivals) == ControllerPackets(es)
            && InOrder(Readables(s.mailbox), PeerArrivals(s.arrivals), NetworkReads(es))
            && (forall a :: a in s.arrivals && a.FromPeer? ==> |a.packet| >= HEADER)
  {
    RunFlow(es);
    HistoriesFollowEvents(es);
    PeerArrivalsFollowNetwork(es);
    var s := Run(START, es);
    forall i | 0 <= i < |s.tapReads| ensures s.tapReads[i].room == Rooms(es)[i] {
      assert RoomsRead(s.tapReads)[i] == s.tapReads[i].room;
    }
  }

  /** A packet from a peer arrives only on the channel of the live transport then
      registered for a uid with the prefix of its claimed source identity, which is the
      first 20 bytes. */
  lemma ReceiveProvenance(s: Sys, e: Event, c: Chan, p: Packet) returns (u: Uid)
    requires Reachable(s) && Enabled(s, e)
    requires Step(s, e).arrivals == s.arrivals + [FromPeer(c, p)]
    ensures |p| >= 40
    ensures u in s.idx.uids && Prefix(u) == Prefix(HexEncode(p[..20]))
    ensures Prefix(u) in s.idx.shorts && s.idx.shorts[Prefix(u)] == s.idx.uids[u] && s.idx.uids[u] in s.heap
    ensures s.heap[s.idx.uids[u]].channel == Some(c)
  {
    ReachableFlow(s);
    TableKeepsPointersLive(s);
    OnlyReadsArrive(s, e, c, p);
    KeysArePrefixes(p);
    var k := SourceKey(p);
    u :| u in s.idx.uids && Prefix(u) == k && s.idx.uids[u] == s.idx.shorts[k];
  }

  lemma OnlyReadsArrive(s: Sys, e: Event, c: Chan, p: Packet)
    requires Enabled(s, e) && Step(s, e).arrivals == s.arrivals + [FromPeer(c, p)]
    ensures e.CheckReadChannel? && s.packet.ReadLooked? && s.packet.c == c && s.packet.p == p
    ensures s.packet.t in s.heap && s.heap[s.packet.t].channel == Some(c)
  {
    assert Step(s, e).arrivals[|s.arrivals|] == FromPeer(c, p);
    if OfLink(e) {
      LinkFrame(s, e);
    } else if e.TakeMessage? {
      MessageFrame(s);
    }
  }

  /** And nothing else is turned away: a packet delivered by the network is looked up
      exactly if its channel is alive, its header complete and the prefix of its source
      identity known, and then it arrives exactly if its channel is that of the transport
      found. */
  lemma PeerPacketsArriveExactly(s: Sys, c: Chan, p: Packet)
    requires Reachable(s) && s.packet.PacketIdle? && s.mailbox != [] && s.mailbox[0] == Readable(c, p)
    ensures var s1 := PacketStep(s, TakeMessage);
            if ChannelLive(s.heap, c) && |p| >= 40 && Prefix(HexEncode(p[..20])) in s.idx.shorts then
              var t := s.idx.shorts[Prefix(HexEncode(p[..20]))];
              && t in s.heap && PacketEnabled(s1, CheckReadChannel)
              && PacketStep(s1, CheckReadChannel) == (
                   if s.heap[t].channel == Some(c)
                   then s.(mailbox := s.mailbox[1..], recvQueue := s.recvQueue + [p],
                           arrivals := s.arrivals + [FromPeer(c, p)])
                   else s.(mailbox := s.mailbox[1..]))
            else s1 == s.(mailbox := s.mailbox[1..])
  {
    ReachableFlow(s);
    TableKeepsPointersLive(s);
    if |p| >= HEADER {
      KeysArePrefixes(p);
    }
  }
}
