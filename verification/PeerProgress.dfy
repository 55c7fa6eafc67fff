/** Progress of the two threads: neither blocks, every `Invoke` is served, and every
    packet whose signal is posted is handled. */
module PeerProgress {
  import opened Text
  import opened Framing
  import opened PeerTable
  import opened PeerSystem
  import opened PeerSafety
  import opened PeerEvents
  import opened PeerFlow

  // ---------- no blocking ----------

  /** `g_send_queue.remove()` never finds the queue empty: there is a packet for each
      pending signal, for the one being dispatched, and for each producer between `add`
      and `Post`. */
  lemma PacketThreadNeverBlocks(s: Sys)
    requires Reachable(s)
    ensures |s.sendQueue| == Signals(s.mailbox) + s.unposted + (if s.packet.Dispatching? then 1 else 0)
    ensures s.packet.Dispatching? ==> forall junk :: PacketEnabled(s, TakePacket(junk))
  {
    ReachableFlow(s);
  }

  predicate Waiting(l: LinkPc) {
    Pending(l) != []
  }

  /** Neither thread is ever stuck: the packet thread has a step whenever it has
      anything to do, the link thread whenever it is inside an operation and not
      waiting, and while it waits the packet thread has a step. */
  lemma NoDeadlock(s: Sys) returns (e: Event)
    requires Reachable(s) && (s.link != LinkIdle || s.mailbox != [] || s.packet != PacketIdle)
    ensures Enabled(s, e)
    ensures s.mailbox != [] || s.packet != PacketIdle || Waiting(s.link) ==> OfPacket(e)
    ensures !OfPacket(e) ==> OfLink(e) && !e.SetSelf? && !e.Callback?
  {
    ReachableFlow(s);
    match s.packet
    case Dispatching => e := TakePacket(0);
    case Looked(_, _) => e := CheckWritable;
    case Writable(_, _) => e := CheckChannel;
    case HaveChannel(_, _, _) => e := SendOnChannel;
    case ReadLooked(_, _, _) => e := CheckReadChannel;
    case PacketIdle =>
      if s.mailbox != [] {
        e := TakeMessage;
      } else {
        e := match s.link
          case Creating(_, _) => DoStoreUid
          case UidStored(_, _) => DoStoreTransport
          case TransportStored(_, _) => PostInsert
          case ShortDeleted(_) => DoEraseTransport
          case TransportErased(_, _) => DoEraseUid
          case UidErased(_) => PostTeardown
          case _ => Free;
      }
  }

  // ---------- every Invoke is served ----------

  /** Messages the packet thread runs before the one the link thread waits for. */
  function Ahead(box: seq<Message>): nat {
    if box == [] || box[0].Invoke? then 0 else 1 + Ahead(box[1..])
  }

  lemma {:induction false} AheadSnoc(box: seq<Message>, m: Message)
    requires Closures(box) != []
    ensures Ahead(box + [m]) == Ahead(box)
  {
    assert (box + [m])[0] == box[0];
    if !box[0].Invoke? {
      assert (box + [m])[1..] == box[1..] + [m];
      AheadSnoc(box[1..], m);
    }
  }

  /** Own steps the packet thread still needs for the work in hand. */
  function StepsLeft(k: PacketPc): nat {
    match k
    case PacketIdle => 0
    case Dispatching => 4
    case Looked(_, _) => 3
    case Writable(_, _) => 2
    case HaveChannel(_, _, _) => 1
    case ReadLooked(_, _, _) => 1
  }

  /** A bound on the packet thread's own steps until the waiting `Invoke` has run. */
  function Rank(s: Sys): nat {
    StepsLeft(s.packet) + 5 * Ahead(s.mailbox) + 1
  }

  lemma MessageLowersRank(s: Sys)
    requires Inv(s) && Waiting(s.link) && PacketEnabled(s, TakeMessage)
    ensures var s' := PacketStep(s, TakeMessage);
            if s.mailbox[0].Invoke? then s'.link == Resume(s.link) else s'.link == s.link && Rank(s') < Rank(s)
  {
    MessageFrame(s);
    if s.mailbox[0].Invoke? {
      assert Closures(s.mailbox)[0] == s.mailbox[0].closure;
      assert Pending(s.link) == [s.mailbox[0].closure];
      ClosureKeepsInv(s.(mailbox := s.mailbox[1..]), s.mailbox[0].closure);
    }
  }

  /** Each step of the packet thread brings the closure nearer or runs it. */
  lemma PacketStepLowersRank(s: Sys, e: Event)
    requires Flow(s) && Waiting(s.link) && OfPacket(e) && PacketEnabled(s, e)
    ensures var s' := PacketStep(s, e);
            if s'.link == s.link then Rank(s') < Rank(s) else s'.link == Resume(s.link)
  {
    if e.TakeMessage? {
      MessageLowersRank(s);
    } else {
      TableKeepsPointersLive(s);
      PacketStepFrame(s, e);
      HandlingKeepsDue(s, e, 0);
    }
  }

  /** No step of anyone else moves it back. */
  lemma OtherStepKeepsRank(s: Sys, e: Event)
    requires Flow(s) && Waiting(s.link) && !OfPacket(e) && Enabled(s, e)
    ensures Step(s, e).link == s.link && Rank(Step(s, e)) == Rank(s)
  {
    match e
    case PostSignal => AheadSnoc(s.mailbox, Signal);
    case NetworkRead(c, p) => AheadSnoc(s.mailbox, Readable(c, p));
    case _ =>
  }

  lemma StepTowardsService(s: Sys, e: Event)
    requires Flow(s) && Waiting(s.link) && Enabled(s, e)
    ensures Flow(Step(s, e))
    ensures Step(s, e).link == s.link ==> Rank(Step(s, e)) <= Rank(s) - if OfPacket(e) then 1 else 0
    ensures Step(s, e).link != s.link ==> Step(s, e).link == Resume(s.link)
  {
    StepKeepsFlow(s, e);
    if OfPacket(e) {
      PacketStepLowersRank(s, e);
    } else {
      OtherStepKeepsRank(s, e);
    }
  }

  function PacketSteps(es: seq<Event>): nat {
    if es == [] then 0 else (if OfPacket(es[0]) then 1 else 0) + PacketSteps(es[1..])
  }

  lemma RunPrefix(s: Sys, es: seq<Event>, k: nat)
    requires es != [] && k < |es| && Enabled(s, es[0]) && ValidRun(Step(s, es[0]), es[1..][..k])
    ensures ValidRun(s, es[..k + 1]) && Run(s, es[..k + 1]) == Run(Step(s, es[0]), es[1..][..k])
  {
    assert es[..k + 1][1..] == es[1..][..k];
  }

  lemma {:induction false} ServedWithinRank(s: Sys, es: seq<Event>) returns (k: nat)
    requires Flow(s) && Waiting(s.link) && ValidRun(s, es) && PacketSteps(es) >= Rank(s)
    ensures k <= |es| && ValidRun(s, es[..k]) && Run(s, es[..k]).link == Resume(s.link)
    decreases |es|
  {
    var s' := Step(s, es[0]);
    StepTowardsService(s, es[0]);
    k := 0;
    if s'.link == s.link {
      k := ServedWithinRank(s', es[1..]);
    }
    RunPrefix(s, es, k);
    k := k + 1;
  }

  /** Every `Invoke` is served: in any run in which the packet thread takes as many
      steps as `Rank` says, the waiting link thread resumes, whatever the producers,
      the network and the tap do in between. */
  lemma EveryInvokeIsServed(s: Sys, es: seq<Event>) returns (k: nat)
    requires Reachable(s) && Waiting(s.link) && ValidRun(s, es) && PacketSteps(es) >= Rank(s)
    ensures k <= |es| && ValidRun(s, es[..k]) && Run(s, es[..k]).link == Resume(s.link)
  {
    ReachableFlow(s);
    k := ServedWithinRank(s, es);
  }

  // ---------- every posted packet is handled ----------

  /** How many packets have their outcome once the work in hand and the first `k`
      messages of the mailbox are done: those handled, the one in hand, the one whose
      signal is being dispatched, and one for each signal among the messages. */
  function Due(s: Sys, k: nat): nat
    requires k <= |s.mailbox|
  {
    |s.outcomes| + |InHand(s.packet)| + (if s.packet.Dispatching? then 1 else 0) + Signals(s.mailbox[..k])
  }

  lemma TakingMessageKeepsDue(s: Sys, k: nat)
    requires PacketEnabled(s, TakeMessage) && 0 < k <= |s.mailbox|
    ensures var s' := PacketStep(s, TakeMessage);
            k - 1 <= |s'.mailbox| && Due(s', k - 1) == Due(s, k) && StepsLeft(s'.packet) <= 4
  {
    MessageFrame(s);
    assert s.mailbox[..k][1..] == s.mailbox[1..][..k - 1];
  }

  /** The other steps of the packet thread finish what it has in hand. */
  lemma HandlingKeepsDue(s: Sys, e: Event, k: nat)
    requires Flow(s) && OfPacket(e) && !e.TakeMessage? && PacketEnabled(s, e) && k <= |s.mailbox|
    ensures var s' := PacketStep(s, e);
            k <= |s'.mailbox| && Due(s', k) == Due(s, k) && StepsLeft(s'.packet) < StepsLeft(s.packet)
  {
    TableKeepsPointersLive(s);
    PacketStepFrame(s, e);
  }

  lemma OthersKeepDue(s: Sys, e: Event, k: nat)
    requires !OfPacket(e) && Enabled(s, e) && k <= |s.mailbox|
    ensures var s' := Step(s, e);
            k <= |s'.mailbox| && Due(s', k) == Due(s, k) && s'.packet == s.packet && s'.outcomes == s.outcomes
  {
    if OfLink(e) {
      LinkFrame(s, e);
    }
    assert s.mailbox <= Step(s, e).mailbox;
    assert Step(s, e).mailbox[..k] == s.mailbox[..k];
  }

  lemma {:induction false} OutcomesGrow(s: Sys, es: seq<Event>)
    requires Flow(s) && ValidRun(s, es)
    ensures |s.outcomes| <= |Run(s, es).outcomes|
    decreases |es|
  {
    if es != [] {
      StepKeepsFlow(s, es[0]);
      OneMoreOutcome(s, es[0]);
      OutcomesGrow(Step(s, es[0]), es[1..]);
    }
  }

  lemma OneMoreOutcome(s: Sys, e: Event)
    requires Flow(s) && Enabled(s, e)
    ensures |s.outcomes| <= |Step(s, e).outcomes|
  {
    if !OfPacket(e) {
      OthersKeepDue(s, e, 0);
    } else if e.TakeMessage? {
      MessageFrame(s);
    }
  }

  /** One step on the way: what is due stays due, and own steps bring it nearer. */
  lemma StepTowardsHandled(s: Sys, e: Event, k: nat) returns (k': nat)
    requires Flow(s) && Enabled(s, e) && k <= |s.mailbox| && (s.packet.PacketIdle? ==> k > 0)
    ensures var s' := Step(s, e);
            && Flow(s') && k' <= |s'.mailbox| && Due(s', k') == Due(s, k)
            && StepsLeft(s'.packet) + 5 * k' <= StepsLeft(s.packet) + 5 * k - if OfPacket(e) then 1 else 0
  {
    StepKeepsFlow(s, e);
    k' := if e.TakeMessage? then k - 1 else k;
    if !OfPacket(e) {
      OthersKeepDue(s, e, k);
    } else if e.TakeMessage? {
      TakingMessageKeepsDue(s, k);
    } else {
      HandlingKeepsDue(s, e, k);
    }
  }

  lemma {:induction false} HandledWithin(s: Sys, es: seq<Event>, k: nat)
    requires Flow(s) && ValidRun(s, es) && k <= |s.mailbox|
    requires PacketSteps(es) >= StepsLeft(s.packet) + 5 * k
    ensures |Run(s, es).outcomes| >= Due(s, k)
    decreases |es|
  {
    if s.packet.PacketIdle? && k == 0 {
      OutcomesGrow(s, es);
    } else if es != [] {
      var k' := StepTowardsHandled(s, es[0], k);
      HandledWithin(Step(s, es[0]), es[1..], k');
    }
  }

  /** All that is in the mailbox is due: one packet for each signal ever posted. */
  lemma AllPostedAreDue(es: seq<Event>)
    requires ValidRun(START, es)
    ensures Due(Run(START, es), |Run(START, es).mailbox|) == Posted(es)
  {
    RunFlow(es);
    HistoriesFollowEvents(es);
    var s := Run(START, es);
    assert s.mailbox[..|s.mailbox|] == s.mailbox;
    assert |s.handed| == |s.outcomes| + |s.handed[|s.outcomes|..]|;
  }

  /** Every packet whose signal is posted is handled: take any run `es`, and go on with any
      run `more` in which the packet thread takes the steps left for its work in hand and
      five for each message of its mailbox.  Then at least as many packets as signals were
      posted in `es`, in the order handed in, have their outcomes, whatever everyone else
      does. */
  lemma EveryPostedPacketIsHandled(es: seq<Event>, more: seq<Event>)
    requires ValidRun(START, es) && ValidRun(Run(START, es), more)
    requires PacketSteps(more) >= StepsLeft(Run(START, es).packet) + 5 * |Run(START, es).mailbox|
    ensures |Run(Run(START, es), more).outcomes| >= Posted(es)
  {
    RunFlow(es);
    AllPostedAreDue(es);
    HandledWithin(Run(START, es), more, |Run(START, es).mailbox|);
  }
}
