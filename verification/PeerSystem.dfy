/** The connection manager as it runs: the link-setup thread inside
    `CreateTransport` and `DestroyTransport`, the packet-handling thread with its
    mailbox, the producers of the send queue, the tap and the network, interleaved
    step by step.  Transports are addresses which the allocator may reuse. */
module PeerSystem {
  import opened Text
  import opened Framing
  import opened PeerTable

  type Addr = nat
  type Chan = nat

  const NIL: Addr := 0              // the null pointer

  /** `peer` and `selfThen` are the two identities `SetupTransport` compared. */
  datatype Transport = Transport(channel: Option<Chan>, writable: bool, peer: Uid, selfThen: Uid)

  function RouteAll(ps: seq<Packet>, vs: seq<View<Chan>>): seq<Outcome<Chan>>
    requires |ps| == |vs|
  {
    seq(|ps|, i requires 0 <= i < |ps| => Route(ps[i], vs[i]))
  }

  // ---------- threads and messages ----------

  /** What `Invoke` runs on the packet thread. */
  datatype Closure = Insert(key: string, t: Addr) | Delete(key: string) | Teardown(t: Addr) | Stats(uid: Uid)

  datatype Message = Signal | Invoke(closure: Closure) | Readable(chan: Chan, packet: Packet)

  datatype LinkPc =
    | LinkIdle
    | Creating(uid: Uid, t: Addr)          // allocated, signals connected
    | UidStored(uid: Uid, t: Addr)
    | TransportStored(uid: Uid, t: Addr)
    | AwaitInsert(uid: Uid, t: Addr)
    | AwaitDelete(uid: Uid)
    | ShortDeleted(uid: Uid)
    | TransportErased(uid: Uid, t: Addr)
    | UidErased(t: Addr)
    | AwaitTeardown(t: Addr)               // ~Transport runs its work on the packet thread
    | TornDown(t: Addr)
    | AwaitStats(uid: Uid)

  datatype PacketPc =
    | PacketIdle
    | Dispatching                          // took a signal, before `g_send_queue.remove()`
    | Looked(p: Packet, t: Addr)           // found the pointer, before `writable()`
    | Writable(p: Packet, t: Addr)         // before `GetChannel`
    | HaveChannel(p: Packet, t: Addr, c: Chan) // before `SendPacket`
    | ReadLooked(c: Chan, p: Packet, t: Addr)  // in `OnReadPacket`, before `GetChannel`

  datatype Arrival = FromPeer(chan: Chan, packet: Packet) | FromController(packet: Packet)
  datatype TapRead = TapRead(room: nat, result: Option<Packet>)

  datatype Sys = Sys(
    self: Uid,
    idx: Index<Addr>,
    heap: map<Addr, Transport>,
    link: LinkPc,
    packet: PacketPc,
    mailbox: seq<Message>,
    sendQueue: seq<Packet>,
    unposted: nat,                         // producers between `add` and `Post`
    recvQueue: seq<Packet>,
    // histories
    ops: seq<Op<Addr>>,
    handed: seq<Packet>,
    seen: View<Chan>,                      // what the tables answered so far for the packet in hand
    views: seq<View<Chan>>,                // what they answered for each packet handled
    outcomes: seq<Outcome<Chan>>,
    arrivals: seq<Arrival>,
    tapReads: seq<TapRead>,
    fault: bool)                           // a dead or null transport was used

  const UNSEEN: View<Chan> := View(false, false, None, 0)

  const START := Sys("", EmptyIndex(), map[], LinkIdle, PacketIdle, [], [], 0, [],
                     [], [], UNSEEN, [], [], [], [], false)

  datatype Event =
    | SetSelf(uid: Uid)
    | BeginCreate(uid: Uid, t: Addr, c: Chan)
    | DoStoreUid
    | DoStoreTransport
    | PostInsert
    | BeginDestroy(uid: Uid)
    | DoEraseTransport
    | DoEraseUid
    | PostTeardown
    | Free
    | AskStats(uid: Uid)
    | Callback(t: Addr)
    // packet-handling thread
    | TakeMessage
    | TakePacket(junk: Byte)
    | CheckWritable
    | CheckChannel
    | SendOnChannel
    | CheckReadChannel
    // tap, controller, network
    | AddPacket(packet: Packet)
    | PostSignal
    | NetworkRead(c: Chan, packet: Packet)
    | SetWritable(t: Addr, writable: bool)
    | ControllerData(packet: Packet)
    | ReadTap(room: nat)

  predicate OfLink(e: Event) {
    e.SetSelf? || e.BeginCreate? || e.DoStoreUid? || e.DoStoreTransport? || e.PostInsert? || e.BeginDestroy?
    || e.DoEraseTransport? || e.DoEraseUid? || e.PostTeardown? || e.Free? || e.AskStats? || e.Callback?
  }

  predicate OfPacket(e: Event) {
    e.TakeMessage? || e.TakePacket? || e.CheckWritable? || e.CheckChannel? || e.SendOnChannel? || e.CheckReadChannel?
  }

  // ---------- the link-setup thread ----------

  predicate LinkEnabled(s: Sys, e: Event) {
    match e
    case SetSelf(u) => s.link.LinkIdle? && s.self == "" && |u| == ID_SIZE
    case BeginCreate(u, t, _) =>
      s.link.LinkIdle? && u !in s.idx.uids && u != s.self && t !in s.heap && t != NIL
    case DoStoreUid => s.link.Creating?
    case DoStoreTransport => s.link.UidStored?
    case PostInsert => s.link.TransportStored?
    case BeginDestroy(u) => s.link.LinkIdle? && u in s.idx.uids
    case DoEraseTransport => s.link.ShortDeleted?
    case DoEraseUid => s.link.TransportErased?
    case PostTeardown => s.link.UidErased?
    case Free => s.link.TornDown?
    case AskStats(u) => s.link.LinkIdle? && u in s.idx.uids
    case Callback(t) => s.link.LinkIdle? && t in s.heap
    case _ => false
  }

  function Post(s: Sys, m: Message): Sys {
    s.(mailbox := s.mailbox + [m])
  }

  /** The transport behind `uid_map_[u]`; a miss plants and yields the null pointer. */
  function PeerTransport(i: Index<Addr>, u: Uid): Addr {
    if u in i.uids then i.uids[u] else NIL
  }

  function LinkStep(s: Sys, e: Event): Sys
    requires LinkEnabled(s, e)
  {
    match e
    case SetSelf(u) => s.(self := u)
    case BeginCreate(u, t, c) =>
      s.(heap := s.heap[t := Transport(Some(c), false, u, s.self)], link := Creating(u, t))
    case DoStoreUid =>
      s.(idx := StoreUid(s.idx, s.link.uid, s.link.t), link := UidStored(s.link.uid, s.link.t))
    case DoStoreTransport =>
      s.(idx := StoreTransport(s.idx, s.link.uid, s.link.t), link := TransportStored(s.link.uid, s.link.t))
    case PostInsert =>
      Post(s.(link := AwaitInsert(s.link.uid, s.link.t)), Invoke(Insert(Prefix(s.link.uid), s.link.t)))
    case BeginDestroy(u) =>
      Post(s.(link := AwaitDelete(u)), Invoke(Delete(Prefix(u))))
    case DoEraseTransport =>
      var t := PeerTransport(s.idx, s.link.uid);
      s.(idx := EraseTransport(s.idx, t), link := TransportErased(s.link.uid, t), fault := s.fault || t !in s.heap)
    case DoEraseUid =>
      s.(idx := EraseUid(s.idx, s.link.uid), link := UidErased(s.link.t), ops := s.ops + [Destroyed(s.link.uid)])
    case PostTeardown =>
      Post(s.(link := AwaitTeardown(s.link.t)), Invoke(Teardown(s.link.t)))
    case Free => s.(heap := s.heap - {s.link.t}, link := LinkIdle)
    case AskStats(u) => Post(s.(link := AwaitStats(u)), Invoke(Stats(u)))
    case Callback(t) =>
      var i := CallbackLookup(s.idx, t, NIL);
      s.(idx := i, fault := s.fault || PeerTransport(i, i.transports[t]) !in s.heap)
  }

  // ---------- the packet-handling thread ----------

  predicate PacketEnabled(s: Sys, e: Event) {
    match e
    case TakeMessage => s.packet.PacketIdle? && s.mailbox != []
    case TakePacket(_) => s.packet.Dispatching? && s.sendQueue != []  // `remove` blocks on an empty queue
    case CheckWritable => s.packet.Looked?
    case CheckChannel => s.packet.Writable?
    case SendOnChannel => s.packet.HaveChannel?
    case CheckReadChannel => s.packet.ReadLooked?
    case _ => false
  }

  /** The link thread goes on once its closure has run. */
  function Resume(l: LinkPc): LinkPc {
    match l
    case AwaitInsert(_, _) => LinkIdle
    case AwaitDelete(u) => ShortDeleted(u)
    case AwaitTeardown(t) => TornDown(t)
    case AwaitStats(_) => LinkIdle
    case _ => l
  }

  function RunClosure(s: Sys, f: Closure): Sys {
    match f
    case Insert(k, t) =>
      s.(idx := InsertShort(s.idx, k, t), link := Resume(s.link),
         ops := if s.link.AwaitInsert? then s.ops + [Created(s.link.uid, s.link.t)] else s.ops)
    case Delete(k) => s.(idx := DeleteShort(s.idx, k), link := Resume(s.link))
    case Teardown(t) =>
      if t in s.heap then s.(heap := s.heap[t := s.heap[t].(channel := None)], link := Resume(s.link))
      else s.(fault := true)
    case Stats(u) =>
      var t := PeerTransport(s.idx, u);
      s.(link := Resume(s.link), fault := s.fault || t !in s.heap || s.heap[t].channel.None?)
  }

  ghost predicate ChannelLive(heap: map<Addr, Transport>, c: Chan) {
    exists t :: t in heap && heap[t].channel == Some(c)
  }

  ghost function RunMessage(s: Sys, m: Message): Sys {
    match m
    case Signal => s.(packet := Dispatching)
    case Invoke(f) => RunClosure(s, f)
    case Readable(c, p) =>
      if ChannelLive(s.heap, c) && |p| >= HEADER && SourceKey(p) in s.idx.shorts then
        s.(packet := ReadLooked(c, p, s.idx.shorts[SourceKey(p)]))
      else s
  }

  /** The packet in hand is done with, in the way the branch taken says. */
  function Finish(s: Sys, o: Outcome<Chan>): Sys {
    s.(packet := PacketIdle, views := s.views + [s.seen], outcomes := s.outcomes + [o])
  }

  /** Each test records the answer it got, whatever is then made of it. */
  ghost function PacketStep(s: Sys, e: Event): Sys
    requires PacketEnabled(s, e)
  {
    match e
    case TakeMessage => RunMessage(s.(mailbox := s.mailbox[1..]), s.mailbox[0])
    case TakePacket(junk) =>
      var p := s.sendQueue[0];
      var found := |p| >= HEADER && DestKey(p) in s.idx.shorts;
      var s1 := s.(sendQueue := s.sendQueue[1..], seen := View(found, false, None, junk));
      if |p| < HEADER then Finish(s1, Dropped)
      else if NullTest(DestKey(p)) || DestKey(p) !in s.idx.shorts then
        Finish(s1, Forwarded(Frame(MissTag(p, junk), p)))
      else s1.(packet := Looked(p, s.idx.shorts[DestKey(p)]))
    case CheckWritable =>
      var Looked(p, t) := s.packet;
      if t !in s.heap then s.(fault := true)
      else
        var s1 := s.(seen := s.seen.(writable := s.heap[t].writable));
        if s.heap[t].writable then s1.(packet := Writable(p, t))
        else Finish(s1, Forwarded(Frame(DATA, p)))
    case CheckChannel =>
      var Writable(p, t) := s.packet;
      if t !in s.heap then s.(fault := true)
      else
        var s1 := s.(seen := s.seen.(channel := s.heap[t].channel));
        if s.heap[t].channel.Some? then s1.(packet := HaveChannel(p, t, s.heap[t].channel.value))
        else Finish(s1, Forwarded(Frame(DATA, p)))
    case SendOnChannel =>
      var HaveChannel(p, t, c) := s.packet;
      if t !in s.heap || s.heap[t].channel != Some(c) then s.(fault := true)
      else Finish(s, SentOn(c, p))
    case CheckReadChannel =>
      var ReadLooked(c, p, t) := s.packet;
      if t !in s.heap then s.(fault := true)
      else if s.heap[t].channel == Some(c) then
        s.(packet := PacketIdle, recvQueue := s.recvQueue + [p], arrivals := s.arrivals + [FromPeer(c, p)])
      else s.(packet := PacketIdle)
  }

  // ---------- tap, controller and network ----------

  predicate OtherEnabled(s: Sys, e: Event) {
    match e
    case AddPacket(_) => true
    case PostSignal => s.unposted > 0
    case NetworkRead(_, _) => true
    case SetWritable(t, _) => t in s.heap
    case ControllerData(_) => true
    case ReadTap(_) => s.recvQueue != []
    case _ => false
  }

  function OtherStep(s: Sys, e: Event): Sys
    requires OtherEnabled(s, e)
  {
    match e
    case AddPacket(p) =>
      s.(sendQueue := s.sendQueue + [p], handed := s.handed + [p], unposted := s.unposted + 1)
    case PostSignal => Post(s.(unposted := s.unposted - 1), Signal)
    case NetworkRead(c, p) => Post(s, Readable(c, p))
    case SetWritable(t, w) => s.(heap := s.heap[t := s.heap[t].(writable := w)])
    case ControllerData(p) => s.(recvQueue := s.recvQueue + [p], arrivals := s.arrivals + [FromController(p)])
    case ReadTap(room) =>
      var p := s.recvQueue[0];
      s.(recvQueue := s.recvQueue[1..],
         tapReads := s.tapReads + [TapRead(room, if |p| > room then None else Some(p))])
  }

  predicate Enabled(s: Sys, e: Event) {
    if OfLink(e) then LinkEnabled(s, e) else if OfPacket(e) then PacketEnabled(s, e) else OtherEnabled(s, e)
  }

  ghost function Step(s: Sys, e: Event): Sys
    requires Enabled(s, e)
  {
    if OfLink(e) then LinkStep(s, e) else if OfPacket(e) then PacketStep(s, e) else OtherStep(s, e)
  }

  ghost predicate ValidRun(s: Sys, es: seq<Event>)
    decreases |es|
  {
    es == [] || (Enabled(s, es[0]) && ValidRun(Step(s, es[0]), es[1..]))
  }

  ghost function Run(s: Sys, es: seq<Event>): Sys
    requires ValidRun(s, es)
    decreases |es|
  {
    if es == [] then s else Run(Step(s, es[0]), es[1..])
  }

  /** The state some run from the start leads to. */
  ghost predicate Reachable(s: Sys) {
    exists es :: ValidRun(START, es) && Run(START, es) == s
  }

  lemma {:induction false} RunSnoc(s: Sys, es: seq<Event>, e: Event)
    requires ValidRun(s, es) && Enabled(Run(s, es), e)
    ensures ValidRun(s, es + [e]) && Run(s, es + [e]) == Step(Run(s, es), e)
    decreases |es|
  {
    if es == [] {
      assert [] + [e] == [e] && [e][1..] == [];
    } else {
      assert (es + [e])[1..] == es[1..] + [e];
      RunSnoc(Step(s, es[0]), es[1..], e);
    }
  }

  lemma {:induction false} RunInit(s: Sys, es: seq<Event>)
    requires es != [] && ValidRun(s, es)
    ensures var prev, e := es[..|es| - 1], es[|es| - 1];
            ValidRun(s, prev) && Enabled(Run(s, prev), e) && Run(s, es) == Step(Run(s, prev), e)
    decreases |es|
  {
    if |es| == 1 {
      assert es[1..] == [] && es[..0] == [];
    } else {
      RunInit(Step(s, es[0]), es[1..]);
      assert es[..|es| - 1][1..] == es[1..][..|es[1..]| - 1];
    }
  }

  lemma RunIsReachable(es: seq<Event>)
    requires ValidRun(START, es)
    ensures Reachable(Run(START, es))
  {
  }

  lemma StartIsReachable()
    ensures Reachable(START)
  {
    assert ValidRun(START, []) && Run(START, []) == START;
  }

  lemma StepIsReachable(s: Sys, e: Event)
    requires Reachable(s) && Enabled(s, e)
    ensures Reachable(Step(s, e))
  {
    var es :| ValidRun(START, es) && Run(START, es) == s;
    RunSnoc(START, es, e);
  }
}
