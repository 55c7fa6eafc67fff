/** What every run of the two threads keeps: the indices follow the history of
    completed operations, no dead transport is used, and nothing is leaked. */
module PeerSafety {
  import opened Text
  import opened Framing
  import opened PeerTable
  import opened PeerSystem

  // ---------- the mailbox ----------

  function Closures(box: seq<Message>): seq<Closure> {
    if box == [] then []
    else if box[0].Invoke? then [box[0].closure] + Closures(box[1..])
    else Closures(box[1..])
  }

  function Signals(box: seq<Message>): nat {
    if box == [] then 0 else (if box[0].Signal? then 1 else 0) + Signals(box[1..])
  }

  lemma {:induction false} BoxSnoc(box: seq<Message>, m: Message)
    ensures Closures(box + [m]) == Closures(box) + if m.Invoke? then [m.closure] else []
    ensures Signals(box + [m]) == Signals(box) + if m.Signal? then 1 else 0
  {
    if box == [] {
      assert box + [m] == [m] && [m][1..] == [];
    } else {
      assert (box + [m])[1..] == box[1..] + [m];
      BoxSnoc(box[1..], m);
    }
  }

  /** The closure the link thread waits for. */
  function Pending(l: LinkPc): seq<Closure> {
    match l
    case AwaitInsert(u, t) => [Insert(Prefix(u), t)]
    case AwaitDelete(u) => [Delete(Prefix(u))]
    case AwaitTeardown(t) => [Teardown(t)]
    case AwaitStats(u) => [Stats(u)]
    case _ => []
  }

  // ---------- invariants ----------

  /** The indices in the middle of an operation, from those before it. */
  function Mid(i: Index<Addr>, l: LinkPc): Index<Addr> {
    match l
    case UidStored(u, t) => StoreUid(i, u, t)
    case TransportStored(u, t) => StoreTransport(StoreUid(i, u, t), u, t)
    case AwaitInsert(u, t) => StoreTransport(StoreUid(i, u, t), u, t)
    case ShortDeleted(u) => DeleteShort(i, Prefix(u))
    case TransportErased(u, t) => EraseTransport(DeleteShort(i, Prefix(u)), t)
    case _ => i
  }

  /** The transport that only the link thread knows of. */
  function Owned(l: LinkPc): set<Addr> {
    match l
    case Creating(_, t) => {t}
    case UidStored(_, t) => {t}
    case TransportStored(_, t) => {t}
    case AwaitInsert(_, t) => {t}
    case UidErased(t) => {t}
    case AwaitTeardown(t) => {t}
    case TornDown(t) => {t}
    case _ => {}
  }

  predicate LinkOk(i: Index<Addr>, l: LinkPc) {
    match l
    case Creating(u, _) => u !in i.uids
    case UidStored(u, _) => u !in i.uids
    case TransportStored(u, _) => u !in i.uids
    case AwaitInsert(u, _) => u !in i.uids
    case AwaitDelete(u) => u in i.uids
    case ShortDeleted(u) => u in i.uids
    case TransportErased(u, t) => u in i.uids && t == i.uids[u]
    case AwaitStats(u) => u in i.uids
    case _ => true
  }

  ghost predicate TableInv(s: Sys) {
    var base := Replay(s.ops);
    && Legal(s.ops)
    && s.idx == Mid(base, s.link)
    && LinkOk(base, s.link)
    && base.transports.Keys !! Owned(s.link)
    && s.heap.Keys == base.transports.Keys + Owned(s.link)
    && NIL !in s.heap
  }

  ghost predicate MailInv(s: Sys) {
    Closures(s.mailbox) == Pending(s.link)
  }

  /** A pointer the packet thread holds across steps is still in the short index. */
  ghost predicate PacketInv(s: Sys) {
    match s.packet
    case Looked(p, t) => HeldFor(s, p, t)
    case Writable(p, t) => HeldFor(s, p, t)
    case HaveChannel(p, t, c) => HeldFor(s, p, t) && t in s.heap && s.heap[t].channel == Some(c)
    case ReadLooked(_, p, t) => |p| >= HEADER && SourceKey(p) in s.idx.shorts && s.idx.shorts[SourceKey(p)] == t
    case _ => true
  }

  ghost predicate HeldFor(s: Sys, p: Packet, t: Addr) {
    |p| >= HEADER && DestKey(p) in s.idx.shorts && s.idx.shorts[DestKey(p)] == t
  }

  /** Only a transport torn down, and about to be freed, has no channel. */
  ghost predicate ChannelInv(s: Sys) {
    forall t :: t in s.heap && s.heap[t].channel.None? ==> s.link == TornDown(t)
  }

  ghost predicate Inv(s: Sys) {
    TableInv(s) && MailInv(s) && PacketInv(s) && ChannelInv(s) && !s.fault
  }

  /** Every pointer the packet thread can find is the transport of a registered uid
      with that prefix, and is alive. */
  ghost predicate PointersLive(s: Sys) {
    forall k :: k in s.idx.shorts ==>
      s.idx.shorts[k] in s.heap
      && exists u :: u in s.idx.uids && Prefix(u) == k && s.idx.uids[u] == s.idx.shorts[k]
  }

  lemma TableKeepsPointersLive(s: Sys)
    requires TableInv(s)
    ensures PointersLive(s)
  {
    var base := Replay(s.ops);
    HistoryKeepsIndices(s.ops);
    forall k | k in s.idx.shorts
      ensures s.idx.shorts[k] in s.heap
      ensures exists u :: u in s.idx.uids && Prefix(u) == k && s.idx.uids[u] == s.idx.shorts[k]
    {
      assert k in base.shorts && base.shorts[k] == s.idx.shorts[k];
      var u := base.transports[base.shorts[k]];
      assert u in s.idx.uids && Prefix(u) == k && s.idx.uids[u] == s.idx.shorts[k];
    }
  }

  // ---------- preservation, thread by thread ----------

  lemma CreateTable(s: Sys, e: Event)
    requires TableInv(s) && LinkEnabled(s, e)
    requires e.BeginCreate? || e.DoStoreUid? || e.DoStoreTransport? || e.PostInsert?
    ensures TableInv(LinkStep(s, e))
  {
  }

  lemma DestroyTable(s: Sys, e: Event)
    requires TableInv(s) && LinkEnabled(s, e)
    requires e.BeginDestroy? || e.DoEraseTransport? || e.PostTeardown? || e.Free?
    ensures TableInv(LinkStep(s, e))
    ensures s.link.ShortDeleted? ==> PeerTransport(s.idx, s.link.uid) in s.heap
  {
    if e.DoEraseTransport? {
      HistoryKeepsIndices(s.ops);
    }
  }

  lemma EraseUidTable(s: Sys)
    requires TableInv(s) && LinkEnabled(s, DoEraseUid)
    ensures TableInv(LinkStep(s, DoEraseUid))
  {
    var base, u, t := Replay(s.ops), s.link.uid, s.link.t;
    HistoryKeepsIndices(s.ops);
    ReplaySnoc(s.ops, Destroyed(u));
    assert LinkStep(s, DoEraseUid).idx == Destroy(base, u);
    assert Destroy(base, u).transports.Keys == base.transports.Keys - {t};
  }

  lemma LinkTable(s: Sys, e: Event)
    requires Inv(s) && OfLink(e) && LinkEnabled(s, e)
    ensures TableInv(LinkStep(s, e)) && !LinkStep(s, e).fault
    ensures LinkStep(s, e).idx.shorts == s.idx.shorts
  {
    if e.Callback? {
      HistoryKeepsIndices(s.ops);
      CallbackPlantsNothing(s.idx, e.t, NIL);
    } else if e.BeginCreate? || e.DoStoreUid? || e.DoStoreTransport? || e.PostInsert? {
      CreateTable(s, e);
    } else if e.DoEraseUid? {
      EraseUidTable(s);
    } else if !e.SetSelf? && !e.AskStats? {
      DestroyTable(s, e);
    }
  }

  lemma LinkMail(s: Sys, e: Event)
    requires MailInv(s) && OfLink(e) && LinkEnabled(s, e)
    ensures MailInv(LinkStep(s, e))
  {
    match e
    case PostInsert => BoxSnoc(s.mailbox, Invoke(Insert(Prefix(s.link.uid), s.link.t)));
    case BeginDestroy(u) => BoxSnoc(s.mailbox, Invoke(Delete(Prefix(u))));
    case PostTeardown => BoxSnoc(s.mailbox, Invoke(Teardown(s.link.t)));
    case AskStats(u) => BoxSnoc(s.mailbox, Invoke(Stats(u)));
    case _ =>
  }

  lemma LinkPacket(s: Sys, e: Event)
    requires Inv(s) && OfLink(e) && LinkEnabled(s, e)
    ensures PacketInv(LinkStep(s, e))
  {
    LinkTable(s, e);
    TableKeepsPointersLive(s);
    var s' := LinkStep(s, e);
    assert s'.packet == s.packet;
    if s.packet.HaveChannel? {
      var t := s.packet.t;
      // a transport being freed is in no short entry
      TableKeepsPointersLive(s');
      assert t in s'.heap;
    }
  }

  lemma LinkChannels(s: Sys, e: Event)
    requires ChannelInv(s) && OfLink(e) && LinkEnabled(s, e)
    ensures ChannelInv(LinkStep(s, e))
  {
  }

  /** A registered transport has a channel. */
  lemma RegisteredHaveChannels(s: Sys)
    requires TableInv(s) && ChannelInv(s)
    ensures forall t :: t in Replay(s.ops).transports ==> t in s.heap && s.heap[t].channel.Some?
    ensures forall k :: k in s.idx.shorts ==> s.idx.shorts[k] in s.heap && s.heap[s.idx.shorts[k]].channel.Some?
  {
    HistoryKeepsIndices(s.ops);
  }

  lemma InsertKeepsTable(s: Sys)
    requires TableInv(s) && s.link.AwaitInsert?
    ensures TableInv(RunClosure(s, Insert(Prefix(s.link.uid), s.link.t)))
  {
    HistoryKeepsIndices(s.ops);
    ReplaySnoc(s.ops, Created(s.link.uid, s.link.t));
  }

  lemma ClosureKeepsInv(s: Sys, f: Closure)
    requires TableInv(s) && ChannelInv(s) && !s.fault && s.packet.PacketIdle? && Pending(s.link) == [f]
    ensures var s' := RunClosure(s, f);
            && TableInv(s') && ChannelInv(s') && !s'.fault
            && s'.packet.PacketIdle? && Pending(s'.link) == [] && s'.mailbox == s.mailbox
  {
    if s.link.AwaitInsert? {
      InsertKeepsTable(s);
    } else if s.link.AwaitStats? {
      HistoryKeepsIndices(s.ops);
      RegisteredHaveChannels(s);
    }
  }

  lemma InvokeKeepsInv(s: Sys)
    requires Inv(s) && PacketEnabled(s, TakeMessage) && s.mailbox[0].Invoke?
    ensures Inv(PacketStep(s, TakeMessage))
  {
    var s1, f := s.(mailbox := s.mailbox[1..]), s.mailbox[0].closure;
    assert Closures(s.mailbox) == [f] + Closures(s1.mailbox);
    assert Pending(s.link) == [f] && Closures(s1.mailbox) == [];
    assert TableInv(s1) && ChannelInv(s1);
    ClosureKeepsInv(s1, f);
    assert PacketStep(s, TakeMessage) == RunClosure(s1, f);
  }

  lemma OtherMessageKeepsInv(s: Sys)
    requires Inv(s) && PacketEnabled(s, TakeMessage) && !s.mailbox[0].Invoke?
    ensures Inv(PacketStep(s, TakeMessage))
  {
    var s' := PacketStep(s, TakeMessage);
    assert s' == s.(mailbox := s.mailbox[1..], packet := s'.packet);
    assert Closures(s.mailbox) == Closures(s'.mailbox);
  }

  /** What the steps of one packet leave alone. */
  lemma PacketStepFrame(s: Sys, e: Event)
    requires PacketInv(s) && PointersLive(s) && !s.fault && OfPacket(e) && !e.TakeMessage? && PacketEnabled(s, e)
    ensures var s' := PacketStep(s, e);
            s'.idx == s.idx && s'.heap == s.heap && s'.link == s.link && s'.ops == s.ops
            && s'.self == s.self && s'.mailbox == s.mailbox && !s'.fault && PacketInv(s')
  {
  }

  lemma PacketKeepsInv(s: Sys, e: Event)
    requires Inv(s) && OfPacket(e) && PacketEnabled(s, e)
    ensures Inv(PacketStep(s, e))
  {
    if e.TakeMessage? {
      if s.mailbox[0].Invoke? {
        InvokeKeepsInv(s);
      } else {
        OtherMessageKeepsInv(s);
      }
    } else {
      TableKeepsPointersLive(s);
      PacketStepFrame(s, e);
    }
  }

  lemma OtherKeepsInv(s: Sys, e: Event)
    requires Inv(s) && !OfLink(e) && !OfPacket(e) && OtherEnabled(s, e)
    ensures Inv(OtherStep(s, e))
  {
    match e
    case PostSignal => BoxSnoc(s.mailbox, Signal);
    case NetworkRead(c, p) => BoxSnoc(s.mailbox, Readable(c, p));
    case _ =>
  }

  lemma StepKeepsInv(s: Sys, e: Event)
    requires Inv(s) && Enabled(s, e)
    ensures Inv(Step(s, e))
  {
    if OfLink(e) {
      LinkTable(s, e);
      LinkMail(s, e);
      LinkPacket(s, e);
      LinkChannels(s, e);
    } else if OfPacket(e) {
      PacketKeepsInv(s, e);
    } else {
      OtherKeepsInv(s, e);
    }
  }

  lemma {:induction false} RunKeepsInv(s: Sys, es: seq<Event>)
    requires Inv(s) && ValidRun(s, es)
    ensures Inv(Run(s, es))
    decreases |es|
  {
    if es != [] {
      StepKeepsInv(s, es[0]);
      RunKeepsInv(Step(s, es[0]), es[1..]);
    }
  }

  lemma ReachableInv(s: Sys)
    requires Reachable(s)
    ensures Inv(s)
  {
    var es :| ValidRun(START, es) && Run(START, es) == s;
    RunKeepsInv(START, es);
  }

  // ---------- the theorems ----------

  /** Lifetime safety: in every reachable state each short entry is the live
      transport of a registered uid with that prefix, the pointer the packet thread
      holds between two steps is alive, and no dead or null transport was ever used. */
  lemma LifetimeSafety(s: Sys)
    requires Reachable(s)
    ensures PointersLive(s) && !s.fault
    ensures s.packet.Looked? || s.packet.Writable? || s.packet.HaveChannel? || s.packet.ReadLooked? ==>
              s.packet.t in s.heap
  {
    ReachableInv(s);
    TableKeepsPointersLive(s);
  }

  /** Neither the statistics closure nor the router ever meets a missing channel, so the
      forwarding branch for a writable transport without one is never taken. */
  lemma ChannelsNeverMissing(s: Sys)
    requires Reachable(s)
    ensures s.packet.Writable? ==> s.packet.t in s.heap && s.heap[s.packet.t].channel.Some?
    ensures s.link.AwaitStats? ==> s.link.uid in s.idx.uids && s.idx.uids[s.link.uid] in s.heap
                                   && s.heap[s.idx.uids[s.link.uid]].channel.Some?
  {
    ReachableInv(s);
    HistoryKeepsIndices(s.ops);
    RegisteredHaveChannels(s);
  }

  /** Transports are conserved: the live ones are exactly the registered ones and the
      one in the hands of the link thread, never both. */
  lemma TransportsConserved(s: Sys)
    requires Reachable(s)
    ensures s.heap.Keys == Replay(s.ops).transports.Keys + Owned(s.link)
    ensures Replay(s.ops).transports.Keys !! Owned(s.link)
    ensures s.link.LinkIdle? ==> s.heap.Keys == s.idx.uids.Values
  {
    ReachableInv(s);
    HistoryKeepsIndices(s.ops);
    if s.link.LinkIdle? {
      forall t | t in s.heap ensures t in s.idx.uids.Values {
        assert s.idx.transports[t] in s.idx.uids;
      }
    }
  }

  /** Between operations the indices are those of running the completed operations
      one after another, `transport_map_` is the inverse of `uid_map_`, and if no
      creation collided `short_uid_map_` is exactly the prefix image of `uid_map_`.
      Inside an operation every short entry is still a prefix image. */
  lemma IndicesAgree(s: Sys)
    requires Reachable(s)
    ensures s.link.LinkIdle? ==>
              s.idx == Replay(s.ops) && Inverse(s.idx) && (NeverCollided(s.ops) ==> ShortsComplete(s.idx))
    ensures forall k :: k in s.idx.shorts ==>
              exists u :: u in s.idx.uids && Prefix(u) == k && s.idx.uids[u] == s.idx.shorts[k]
  {
    ReachableInv(s);
    HistoryKeepsIndices(s.ops);
    TableKeepsPointersLive(s);
    if NeverCollided(s.ops) {
      NoCollisionMeansExact(s.ops);
    }
  }

  /** A callback for a live transport may come between any two operations, and never
      plants a default entry. */
  lemma CallbacksPlantNothing(s: Sys, t: Addr)
    requires Reachable(s) && s.link.LinkIdle? && t in s.heap
    ensures LinkEnabled(s, Callback(t)) && LinkStep(s, Callback(t)) == s
  {
    ReachableInv(s);
    LinkTable(s, Callback(t));
    HistoryKeepsIndices(s.ops);
    CallbackPlantsNothing(s.idx, t, NIL);
  }

  /** Looking a packet up by 8 bytes of its destination finds the transport that a
      lookup of all 20 in `uid_map_` would, or both miss. */
  ghost predicate RoutedByUid(s: Sys, p: Packet)
    requires |p| >= HEADER
  {
    && (DestKey(p) in s.idx.shorts <==> DestUid(p) in s.idx.uids)
    && (DestUid(p) in s.idx.uids ==> s.idx.shorts[DestKey(p)] == s.idx.uids[DestUid(p)])
  }

  /** With no operation in flight that is so exactly when the last operation on the
      key created the destination, or destroyed a uid while the destination is not
      registered, or there was none. */
  lemma PacketRoutingExact(s: Sys, p: Packet)
    requires Reachable(s) && s.link.LinkIdle? && |p| >= HEADER
    ensures RoutedByUid(s, p) <==>
            var last := LastTouch(s.ops, DestKey(p));
            && (last.Some? && last.value.Created? ==> last.value.uid == DestUid(p))
            && (last.Some? && last.value.Destroyed? ==> DestUid(p) !in s.idx.uids)
  {
    ReachableInv(s);
    KeysArePrefixes(p);
    ShortRoutingExact(s.ops, DestUid(p));
  }

  /** Hence it is so when no creation ever collided and no other registered uid shares
      the destination's first 16 digits. */
  lemma PacketRoutingRefines(s: Sys, p: Packet)
    requires Reachable(s) && s.link.LinkIdle? && |p| >= HEADER && NeverCollided(s.ops)
    requires forall u :: u in s.idx.uids && Prefix(u) == DestKey(p) ==> u == DestUid(p)
    ensures RoutedByUid(s, p)
  {
    ReachableInv(s);
    KeysArePrefixes(p);
    ShortRoutingRefines(s.ops, DestUid(p));
  }
}
