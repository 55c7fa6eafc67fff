/** What the events of a run say about the state it leads to: what was handed in is in
    the histories, and each transport is as its events made it. */
module PeerEvents {
  import opened Text
  import opened Framing
  import opened PeerTable
  import opened PeerSystem
  import opened PeerSafety

  // ---------- what the steps leave alone ----------

  /** The link thread touches neither packets nor their histories. */
  lemma LinkFrame(s: Sys, e: Event)
    requires OfLink(e) && LinkEnabled(s, e)
    ensures var s' := LinkStep(s, e);
            && s'.packet == s.packet && s'.seen == s.seen && s'.sendQueue == s.sendQueue && s'.unposted == s.unposted
            && s'.handed == s.handed && s'.views == s.views && s'.outcomes == s.outcomes
            && s'.recvQueue == s.recvQueue && s'.arrivals == s.arrivals && s'.tapReads == s.tapReads
  {
  }

  /** Running a message of the mailbox handles no packet yet. */
  lemma MessageFrame(s: Sys)
    requires PacketEnabled(s, TakeMessage)
    ensures var s', m := PacketStep(s, TakeMessage), s.mailbox[0];
            && s'.mailbox == s.mailbox[1..] && s'.sendQueue == s.sendQueue && s'.unposted == s.unposted
            && s'.handed == s.handed && s'.seen == s.seen && s'.views == s.views && s'.outcomes == s.outcomes
            && s'.recvQueue == s.recvQueue && s'.arrivals == s.arrivals && s'.tapReads == s.tapReads
            && (m.Signal? ==> s'.packet == Dispatching)
            && (m.Invoke? ==> s'.packet == PacketIdle)
            && (m.Readable? ==> s'.packet == PacketIdle || s'.packet.ReadLooked?)
  {
  }

  // ---------- inputs of a run ----------

  function Each<T>(es: seq<Event>, f: Event -> seq<T>): seq<T> {
    if es == [] then [] else f(es[0]) + Each(es[1..], f)
  }

  function AddedBy(e: Event): seq<Packet> {
    if e.AddPacket? then [e.packet] else []
  }

  function PostedBy(e: Event): seq<Event> {
    if e.PostSignal? then [e] else []
  }

  function FromControllerBy(e: Event): seq<Packet> {
    if e.ControllerData? then [e.packet] else []
  }

  function RoomBy(e: Event): seq<nat> {
    if e.ReadTap? then [e.room] else []
  }

  function ReadBy(e: Event): seq<(Chan, Packet)> {
    if e.NetworkRead? then [(e.c, e.packet)] else []
  }

  /** The packets handed to `DoPacketSend`, in order. */
  function Added(es: seq<Event>): seq<Packet> {
    Each(es, AddedBy)
  }

  /** How many producers have posted their signal. */
  function Posted(es: seq<Event>): nat {
    |Each(es, PostedBy)|
  }

  /** What the controller gave for the tap, how much room each tap read had, and what the
      network delivered, in order. */
  function ControllerPackets(es: seq<Event>): seq<Packet> {
    Each(es, FromControllerBy)
  }

  function Rooms(es: seq<Event>): seq<nat> {
    Each(es, RoomBy)
  }

  function NetworkReads(es: seq<Event>): seq<(Chan, Packet)> {
    Each(es, ReadBy)
  }

  function ControllerArrivals(arrivals: seq<Arrival>): seq<Packet> {
    if arrivals == [] then []
    else
      var a := arrivals[|arrivals| - 1];
      ControllerArrivals(arrivals[..|arrivals| - 1]) + if a.FromController? then [a.packet] else []
  }

  function PeerArrivals(arrivals: seq<Arrival>): seq<(Chan, Packet)> {
    if arrivals == [] then []
    else
      var a := arrivals[|arrivals| - 1];
      PeerArrivals(arrivals[..|arrivals| - 1]) + if a.FromPeer? then [(a.chan, a.packet)] else []
  }

  lemma ArrivalsSnoc(arrivals: seq<Arrival>, a: Arrival)
    ensures ControllerArrivals(arrivals + [a]) ==
              ControllerArrivals(arrivals) + if a.FromController? then [a.packet] else []
    ensures PeerArrivals(arrivals + [a]) ==
              PeerArrivals(arrivals) + if a.FromPeer? then [(a.chan, a.packet)] else []
  {
    assert (arrivals + [a])[..|arrivals + [a]| - 1] == arrivals;
  }

  function RoomsRead(log: seq<TapRead>): seq<nat> {
    seq(|log|, i requires 0 <= i < |log| => log[i].room)
  }

  lemma PacketStepHistories(s: Sys, e: Event)
    requires OfPacket(e) && PacketEnabled(s, e)
    ensures var s' := PacketStep(s, e);
            && s'.handed == s.handed && s'.unposted == s.unposted && s'.tapReads == s.tapReads
            && ControllerArrivals(s'.arrivals) == ControllerArrivals(s.arrivals)
  {
    if e.TakeMessage? {
      MessageFrame(s);
    } else if e.CheckReadChannel? {
      ArrivalsSnoc(s.arrivals, FromPeer(s.packet.c, s.packet.p));
    }
  }

  lemma StepHistories(s: Sys, e: Event)
    requires Enabled(s, e)
    ensures var s' := Step(s, e);
            && s'.handed == s.handed + AddedBy(e)
            && s'.unposted == s.unposted + |AddedBy(e)| - |PostedBy(e)|
            && ControllerArrivals(s'.arrivals) == ControllerArrivals(s.arrivals) + FromControllerBy(e)
            && RoomsRead(s'.tapReads) == RoomsRead(s.tapReads) + RoomBy(e)
  {
    if OfLink(e) {
      LinkFrame(s, e);
    } else if OfPacket(e) {
      PacketStepHistories(s, e);
    } else if e.ControllerData? {
      ArrivalsSnoc(s.arrivals, FromController(e.packet));
    }
  }

  lemma {:induction false} RunHandsIn(s: Sys, es: seq<Event>)
    requires ValidRun(s, es)
    ensures Run(s, es).handed == s.handed + Added(es)
    ensures Run(s, es).unposted == s.unposted + |Added(es)| - Posted(es)
    decreases |es|
  {
    if es != [] {
      StepHistories(s, es[0]);
      RunHandsIn(Step(s, es[0]), es[1..]);
    }
  }

  lemma {:induction false} RunFeedsTap(s: Sys, es: seq<Event>)
    requires ValidRun(s, es)
    ensures ControllerArrivals(Run(s, es).arrivals) == ControllerArrivals(s.arrivals) + ControllerPackets(es)
    ensures RoomsRead(Run(s, es).tapReads) == RoomsRead(s.tapReads) + Rooms(es)
    decreases |es|
  {
    if es != [] {
      StepHistories(s, es[0]);
      RunFeedsTap(Step(s, es[0]), es[1..]);
    }
  }

  /** The histories are those of the events: the packets handed in, with as many signals
      posted as there are producers done; the packets the controller gave; and the rooms
      of the tap reads. */
  lemma HistoriesFollowEvents(es: seq<Event>)
    requires ValidRun(START, es)
    ensures var s := Run(START, es);
            && s.handed == Added(es)
            && Posted(es) + s.unposted == |Added(es)|
            && ControllerArrivals(s.arrivals) == ControllerPackets(es)
            && RoomsRead(s.tapReads) == Rooms(es)
  {
    RunHandsIn(START, es);
    RunFeedsTap(START, es);
  }

  // ---------- network reads ----------

  function ReadIn(m: Message): seq<(Chan, Packet)> {
    if m.Readable? then [(m.chan, m.packet)] else []
  }

  function Readables(box: seq<Message>): seq<(Chan, Packet)> {
    if box == [] then [] else ReadIn(box[0]) + Readables(box[1..])
  }

  lemma Reassociate<T>(a: seq<T>, b: seq<T>, c: seq<T>)
    ensures a + (b + c) == a + b + c
  {
  }

  lemma {:induction false} ReadablesSnoc(box: seq<Message>, m: Message)
    ensures Readables(box + [m]) == Readables(box) + ReadIn(m)
  {
    if box == [] {
      assert box + [m] == [m] && [m][1..] == [];
      assert [] + ReadIn(m) == ReadIn(m) + [];
    } else {
      assert (box + [m])[1..] == box[1..] + [m];
      ReadablesSnoc(box[1..], m);
      Reassociate(ReadIn(box[0]), Readables(box[1..]), ReadIn(m));
    }
  }

  /** `a` is `b` with some elements left out. */
  predicate Subsequence<T(==)>(a: seq<T>, b: seq<T>)
    decreases |b|
  {
    a == []
    || (b != []
        && ((a[|a| - 1] == b[|b| - 1] && Subsequence(a[..|a| - 1], b[..|b| - 1]))
            || Subsequence(a, b[..|b| - 1])))
  }

  lemma SubsequenceSnoc<T>(a: seq<T>, b: seq<T>, x: T)
    requires Subsequence(a, b)
    ensures Subsequence(a, b + [x]) && Subsequence(a + [x], b + [x])
  {
    assert (a + [x])[..|a + [x]| - 1] == a && (b + [x])[..|b + [x]| - 1] == b;
  }

  lemma {:induction false} SubsequenceInit<T>(a: seq<T>, b: seq<T>, x: T)
    requires Subsequence(a + [x], b)
    ensures Subsequence(a, b)
    decreases |b|
  {
    assert (a + [x])[..|a + [x]| - 1] == a;
    if !Subsequence(a, b[..|b| - 1]) {
      SubsequenceInit(a, b[..|b| - 1], x);
    }
  }

  function ReadInHand(k: PacketPc): seq<(Chan, Packet)> {
    if k.ReadLooked? then [(k.c, k.p)] else []
  }

  /** Of the reads delivered the last ones are waiting; what was looked at further is some
      of the others, in their order. */
  ghost predicate InOrder(waiting: seq<(Chan, Packet)>, looked: seq<(Chan, Packet)>, net: seq<(Chan, Packet)>) {
    var k := |net| - |waiting|;
    0 <= k && net[k..] == waiting && Subsequence(looked, net[..k])
  }

  lemma InOrderDelivered(waiting: seq<(Chan, Packet)>, looked: seq<(Chan, Packet)>, net: seq<(Chan, Packet)>,
                         x: (Chan, Packet))
    requires InOrder(waiting, looked, net)
    ensures InOrder(waiting + [x], looked, net + [x])
  {
    var k := |net| - |waiting|;
    assert (net + [x])[k..] == net[k..] + [x] && (net + [x])[..k] == net[..k];
  }

  lemma InOrderTaken(waiting: seq<(Chan, Packet)>, looked: seq<(Chan, Packet)>, net: seq<(Chan, Packet)>)
    requires InOrder(waiting, looked, net) && waiting != []
    ensures InOrder(waiting[1..], looked, net) && InOrder(waiting[1..], looked + [waiting[0]], net)
  {
    var k := |net| - |waiting|;
    assert net[k] == net[k..][0] && net[k + 1..] == net[k..][1..];
    assert net[..k + 1] == net[..k] + [net[k]];
    SubsequenceSnoc(looked, net[..k], net[k]);
  }

  /** What arrived from peers, and then the read in hand. */
  function LookedAt(s: Sys): seq<(Chan, Packet)> {
    PeerArrivals(s.arrivals) + if s.packet.ReadLooked? then [(s.packet.c, s.packet.p)] else []
  }

  /** The reads in their order, with `net` the ones delivered so far. */
  ghost predicate ReadsInOrder(s: Sys, net: seq<(Chan, Packet)>) {
    InOrder(Readables(s.mailbox), LookedAt(s), net)
  }

  lemma TakingReads(s: Sys)
    requires PacketEnabled(s, TakeMessage)
    ensures var s', m := PacketStep(s, TakeMessage), s.mailbox[0];
            && Readables(s.mailbox) == ReadIn(m) + Readables(s'.mailbox)
            && (LookedAt(s') == LookedAt(s) || (m.Readable? && LookedAt(s') == LookedAt(s) + [(m.chan, m.packet)]))
  {
    MessageFrame(s);
  }

  lemma CheckingReads(s: Sys)
    requires PacketEnabled(s, CheckReadChannel)
    ensures var s' := PacketStep(s, CheckReadChannel);
            && Readables(s'.mailbox) == Readables(s.mailbox)
            && (LookedAt(s') == LookedAt(s) || LookedAt(s) == LookedAt(s') + [(s.packet.c, s.packet.p)])
  {
    ArrivalsSnoc(s.arrivals, FromPeer(s.packet.c, s.packet.p));
  }

  lemma LinkReads(s: Sys, e: Event)
    requires OfLink(e) && LinkEnabled(s, e)
    ensures Readables(LinkStep(s, e).mailbox) == Readables(s.mailbox) && LookedAt(LinkStep(s, e)) == LookedAt(s)
  {
    LinkFrame(s, e);
    match e
    case PostInsert => ReadablesSnoc(s.mailbox, Invoke(Insert(Prefix(s.link.uid), s.link.t)));
    case BeginDestroy(u) => ReadablesSnoc(s.mailbox, Invoke(Delete(Prefix(u))));
    case PostTeardown => ReadablesSnoc(s.mailbox, Invoke(Teardown(s.link.t)));
    case AskStats(u) => ReadablesSnoc(s.mailbox, Invoke(Stats(u)));
    case _ =>
  }

  /** A step in the middle of a packet sent looks at no read. */
  lemma HandlingReads(s: Sys, e: Event)
    requires OfPacket(e) && PacketEnabled(s, e) && !e.TakeMessage? && !e.CheckReadChannel?
    ensures PacketStep(s, e).mailbox == s.mailbox && LookedAt(PacketStep(s, e)) == LookedAt(s)
  {
  }

  lemma InputReads(s: Sys, e: Event)
    requires !OfLink(e) && !OfPacket(e) && OtherEnabled(s, e)
    ensures Readables(OtherStep(s, e).mailbox) == Readables(s.mailbox) + ReadBy(e)
    ensures LookedAt(OtherStep(s, e)) == LookedAt(s)
  {
    match e
    case PostSignal => ReadablesSnoc(s.mailbox, Signal);
    case NetworkRead(c, p) => ReadablesSnoc(s.mailbox, Readable(c, p));
    case ControllerData(p) => ArrivalsSnoc(s.arrivals, FromController(p));
    case _ =>
  }

  lemma StepKeepsOrder(s: Sys, e: Event, net: seq<(Chan, Packet)>)
    requires ReadsInOrder(s, net) && Enabled(s, e)
    ensures ReadsInOrder(Step(s, e), net + ReadBy(e))
  {
    var waiting, looked := Readables(s.mailbox), LookedAt(s);
    assert net + [] == net && waiting + [] == waiting;
    if OfLink(e) {
      LinkReads(s, e);
    } else if e.TakeMessage? {
      TakingReads(s);
      if waiting != [] {
        InOrderTaken(waiting, looked, net);
      }
    } else if e.CheckReadChannel? {
      CheckingReads(s);
      if LookedAt(Step(s, e)) != looked {
        SubsequenceInit(LookedAt(Step(s, e)), net[..|net| - |waiting|], (s.packet.c, s.packet.p));
      }
    } else if OfPacket(e) {
      HandlingReads(s, e);
    } else {
      InputReads(s, e);
      if e.NetworkRead? {
        InOrderDelivered(waiting, looked, net, (e.c, e.packet));
      }
    }
  }

  lemma NetworkReadsCons(net: seq<(Chan, Packet)>, es: seq<Event>)
    requires es != []
    ensures net + NetworkReads(es) == net + ReadBy(es[0]) + NetworkReads(es[1..])
  {
  }

  lemma {:induction false} RunKeepsOrder(s: Sys, es: seq<Event>, net: seq<(Chan, Packet)>)
    requires ReadsInOrder(s, net) && ValidRun(s, es)
    ensures ReadsInOrder(Run(s, es), net + NetworkReads(es))
    decreases |es|
  {
    if es == [] {
      assert net + [] == net;
    } else {
      var s1, net1 := Step(s, es[0]), net + ReadBy(es[0]);
      StepKeepsOrder(s, es[0], net);
      NetworkReadsCons(net, es);
      RunKeepsOrder(s1, es[1..], net1);
    }
  }

  /** What arrived from peers are reads that the network delivered, each at most once, with
      its channel and its bytes, in the order of delivery; the reads not looked at yet are
      the last ones. */
  lemma PeerArrivalsFollowNetwork(es: seq<Event>)
    requires ValidRun(START, es)
    ensures InOrder(Readables(Run(START, es).mailbox), PeerArrivals(Run(START, es).arrivals), NetworkReads(es))
  {
    var s, net := Run(START, es), NetworkReads(es);
    RunKeepsOrder(START, es, []);
    assert [] + net == net && PeerArrivals(s.arrivals) + [] == PeerArrivals(s.arrivals);
    if s.packet.ReadLooked? {
      SubsequenceInit(PeerArrivals(s.arrivals), net[..|net| - |Readables(s.mailbox)|], (s.packet.c, s.packet.p));
    }
  }

  // ---------- identities and transports ----------

  /** The own identity is the one that was set, if one was. */
  lemma {:induction false} SelfFollowsEvents(es: seq<Event>)
    requires ValidRun(START, es)
    ensures Run(START, es).self == "" <==> forall e :: e in es ==> !e.SetSelf?
    ensures forall e :: e in es && e.SetSelf? ==> e.uid == Run(START, es).self
    decreases |es|
  {
    if es != [] {
      var prev, e := es[..|es| - 1], es[|es| - 1];
      RunInit(START, es);
      SelfFollowsEvents(prev);
      assert es == prev + [e];
      StepKeepsSelf(Run(START, prev), e);
    }
  }

  lemma StepKeepsSelf(s: Sys, e: Event)
    requires Enabled(s, e)
    ensures Step(s, e).self == if e.SetSelf? then e.uid else s.self
    ensures e.SetSelf? ==> s.self == "" && e.uid != ""
  {
  }

  /** A registered transport was made for the uid it is registered under. */
  ghost predicate PeersInv(s: Sys) {
    && (forall t :: t in s.heap ==> s.heap[t].peer != s.heap[t].selfThen)
    && (forall u :: u in s.idx.uids && s.idx.uids[u] in s.heap ==> s.heap[s.idx.uids[u]].peer == u)
    && (s.link.Creating? && s.link.t in s.heap ==> s.heap[s.link.t].peer == s.link.uid)
  }

  lemma LinkKeepsPeers(s: Sys, e: Event)
    requires Inv(s) && PeersInv(s) && OfLink(e) && LinkEnabled(s, e)
    ensures PeersInv(LinkStep(s, e))
  {
    if e.Callback? {
      LinkTable(s, e);
      HistoryKeepsIndices(s.ops);
      CallbackPlantsNothing(s.idx, e.t, NIL);
    } else if e.BeginCreate? {
      HistoryKeepsIndices(s.ops);
    }
  }

  /** Running a closure changes neither the uids nor who a transport was made for. */
  lemma ClosureKeepsPeers(s: Sys, f: Closure)
    ensures var s' := RunClosure(s, f);
            && s'.self == s.self && s'.idx.uids == s.idx.uids && s'.heap.Keys == s.heap.Keys
            && (forall t :: t in s.heap ==> s'.heap[t].peer == s.heap[t].peer && s'.heap[t].selfThen == s.heap[t].selfThen
                                            && s'.heap[t].writable == s.heap[t].writable)
            && (s'.link == s.link || s'.link == Resume(s.link))
  {
  }

  lemma PacketKeepsPeers(s: Sys, e: Event)
    requires Inv(s) && PeersInv(s) && OfPacket(e) && PacketEnabled(s, e)
    ensures PeersInv(PacketStep(s, e))
  {
    if e.TakeMessage? {
      if s.mailbox[0].Invoke? {
        ClosureKeepsPeers(s.(mailbox := s.mailbox[1..]), s.mailbox[0].closure);
      }
    } else {
      TableKeepsPointersLive(s);
      PacketStepFrame(s, e);
    }
  }

  lemma StepKeepsPeers(s: Sys, e: Event)
    requires Inv(s) && PeersInv(s) && Enabled(s, e)
    ensures PeersInv(Step(s, e))
  {
    if OfLink(e) {
      LinkKeepsPeers(s, e);
    } else if OfPacket(e) {
      PacketKeepsPeers(s, e);
    }
  }

  lemma {:induction false} RunKeepsPeers(s: Sys, es: seq<Event>)
    requires Inv(s) && PeersInv(s) && ValidRun(s, es)
    ensures Inv(Run(s, es)) && PeersInv(Run(s, es))
    decreases |es|
  {
    if es != [] {
      StepKeepsInv(s, es[0]);
      StepKeepsPeers(s, es[0]);
      RunKeepsPeers(Step(s, es[0]), es[1..]);
    }
  }

  /** What a step to `s'` does to the transport at `t`. */
  ghost predicate TransportStep(s: Sys, e: Event, s': Sys, t: Addr) {
    && (t !in s.heap ==> t !in s'.heap || (e.BeginCreate? && e.t == t))
    && (t in s.heap && t in s'.heap ==>
          var x, x' := s.heap[t], s'.heap[t];
          && x'.peer == x.peer && x'.selfThen == x.selfThen && !(e.BeginCreate? && e.t == t)
          && x'.writable == (if e.SetWritable? && e.t == t then e.writable else x.writable)
          && x'.channel == (if s'.link == TornDown(t) && s.link != TornDown(t) then None else x.channel)
          && (s.link == TornDown(t) ==> s'.link == TornDown(t)))
  }

  lemma LinkTransportStep(s: Sys, e: Event, t: Addr)
    requires OfLink(e) && LinkEnabled(s, e)
    ensures TransportStep(s, e, LinkStep(s, e), t)
  {
  }

  lemma PacketTransportStep(s: Sys, e: Event, t: Addr)
    requires Inv(s) && OfPacket(e) && PacketEnabled(s, e)
    ensures TransportStep(s, e, PacketStep(s, e), t)
  {
    if e.TakeMessage? {
      if s.mailbox[0].Invoke? {
        assert Closures(s.mailbox)[0] == s.mailbox[0].closure;
        assert Pending(s.link) == [s.mailbox[0].closure];
      }
    } else {
      TableKeepsPointersLive(s);
      PacketStepFrame(s, e);
    }
  }

  lemma StepKeepsTransport(s: Sys, e: Event, t: Addr)
    requires Inv(s) && Enabled(s, e)
    ensures TransportStep(s, e, Step(s, e), t)
  {
    if OfLink(e) {
      LinkTransportStep(s, e, t);
    } else if OfPacket(e) {
      PacketTransportStep(s, e, t);
    }
  }

  /** While a transport is alive its peer is not created again. */
  lemma PeerIsTaken(s: Sys, e: Event, t: Addr)
    requires Inv(s) && PeersInv(s) && Enabled(s, e) && e.BeginCreate? && t in s.heap
    ensures e.uid != s.heap[t].peer
  {
    HistoryKeepsIndices(s.ops);
    assert t in s.idx.transports;
  }

  /** The last word of the events behind the first on whether the transport is writable. */
  ghost predicate MadeWritable(es: seq<Event>, t: Addr) {
    exists j :: 0 <= j < |es| && es[j] == SetWritable(t, true)
                && forall k :: j < k < |es| ==> es[k] != SetWritable(t, false)
  }

  lemma MadeWritableSnoc(es: seq<Event>, e: Event, t: Addr)
    ensures MadeWritable(es + [e], t) <==>
            e == SetWritable(t, true) || (e != SetWritable(t, false) && MadeWritable(es, t))
  {
    var all := es + [e];
    if e == SetWritable(t, true) {
      assert all[|es|] == e;
    } else if MadeWritable(es, t) && e != SetWritable(t, false) {
      var j :| 0 <= j < |es| && es[j] == SetWritable(t, true)
               && forall k :: j < k < |es| ==> es[k] != SetWritable(t, false);
      assert all[j] == es[j];
    } else if MadeWritable(all, t) {
      var j :| 0 <= j < |all| && all[j] == SetWritable(t, true)
               && forall k :: j < k < |all| ==> all[k] != SetWritable(t, false);
      assert all[|es|] == e;
      assert j < |es| && es[j] == all[j];
      forall k | j < k < |es| ensures es[k] != SetWritable(t, false) {
        assert all[k] == es[k];
      }
    }
  }

  /** `es[i]` created the transport that is now at `t`, and neither the address nor the
      peer was created again. */
  ghost predicate BornAt(es: seq<Event>, i: nat, t: Addr) {
    && i < |es| && es[i].BeginCreate? && es[i].t == t
    && forall k :: i < k < |es| && es[k].BeginCreate? ==> es[k].t != t && es[k].uid != es[i].uid
  }

  /** A transport is what its events made it: created for that uid, with that channel until
      it is torn down, with the identity set by then, and writable if the last change said
      so. */
  ghost predicate AsMade(es: seq<Event>, i: nat, x: Transport, t: Addr, l: LinkPc)
    requires BornAt(es, i, t)
  {
    && x.peer == es[i].uid
    && x.channel == (if l == TornDown(t) then None else Some(es[i].c))
    && (x.selfThen == "" <==> forall e :: e in es[..i] ==> !e.SetSelf?)
    && (forall e :: e in es[..i] && e.SetSelf? ==> e.uid == x.selfThen)
    && (x.writable <==> MadeWritable(es[i + 1..], t))
  }

  lemma NewbornIsAsMade(es: seq<Event>)
    requires es != [] && ValidRun(START, es[..|es| - 1])
    requires Enabled(Run(START, es[..|es| - 1]), es[|es| - 1]) && es[|es| - 1].BeginCreate?
    ensures var s', t := Step(Run(START, es[..|es| - 1]), es[|es| - 1]), es[|es| - 1].t;
            BornAt(es, |es| - 1, t) && t in s'.heap && AsMade(es, |es| - 1, s'.heap[t], t, s'.link)
  {
    SelfFollowsEvents(es[..|es| - 1]);
    assert es[|es| - 1 + 1..] == [];
  }

  lemma StaysBorn(es: seq<Event>, i: nat, s: Sys, t: Addr)
    requires es != [] && Inv(s) && PeersInv(s) && Enabled(s, es[|es| - 1])
    requires t in s.heap && t in Step(s, es[|es| - 1]).heap
    requires BornAt(es[..|es| - 1], i, t) && s.heap[t].peer == es[i].uid
    ensures BornAt(es, i, t)
  {
    StepKeepsTransport(s, es[|es| - 1], t);
    if es[|es| - 1].BeginCreate? {
      PeerIsTaken(s, es[|es| - 1], t);
    }
  }

  lemma StaysAsMade(es: seq<Event>, i: nat, s: Sys, t: Addr)
    requires es != [] && Inv(s) && Enabled(s, es[|es| - 1])
    requires t in s.heap && t in Step(s, es[|es| - 1]).heap
    requires BornAt(es[..|es| - 1], i, t) && AsMade(es[..|es| - 1], i, s.heap[t], t, s.link) && BornAt(es, i, t)
    ensures AsMade(es, i, Step(s, es[|es| - 1]).heap[t], t, Step(s, es[|es| - 1]).link)
  {
    var prev, e := es[..|es| - 1], es[|es| - 1];
    StepKeepsTransport(s, e, t);
    assert prev[..i] == es[..i] && es[i + 1..] == prev[i + 1..] + [e];
    MadeWritableSnoc(prev[i + 1..], e, t);
  }

  /** In every run each live transport is as its events made it. */
  lemma {:induction false} TransportsFollowEvents(es: seq<Event>, t: Addr) returns (i: nat)
    requires ValidRun(START, es) && t in Run(START, es).heap
    ensures BornAt(es, i, t) && AsMade(es, i, Run(START, es).heap[t], t, Run(START, es).link)
    decreases |es|
  {
    var prev := es[..|es| - 1];
    RunInit(START, es);
    RunKeepsPeers(START, prev);
    var s := Run(START, prev);
    StepKeepsTransport(s, es[|es| - 1], t);
    if t !in s.heap {
      i := |prev|;
      NewbornIsAsMade(es);
    } else {
      i := TransportsFollowEvents(prev, t);
      StaysBorn(es, i, s, t);
      StaysAsMade(es, i, s, t);
    }
  }
}
