# A verified model of ipop-tincan

ipop-tincan keeps peer-to-peer links for the IPOP virtual network. A link-setup
thread creates and destroys transports; a packet-handling thread routes packets to
them by a short key; a tap device, a controller and an XMPP connection feed the two.
This project models that behaviour in Dafny 4.11 and proves what the design relies on.
Run `dafny verify dfyconfig.toml`.

## Files

- `Text.dfy`: string comparison, splitting, word extraction, decimal and hexadecimal
  codecs.
- `WaitQueue.dfy`: the blocking queue, as steps of any number of threads and as an
  object.
- `PeerTable.dfy`: the three indices of the connection manager and the histories of
  completed operations on them.
- `PeerSystem.dfy`: the threads, interleaved step by step. The link thread stops at
  every write and every `Invoke` inside `CreateTransport` and `DestroyTransport`; the
  packet thread stops at every use of a transport pointer; transports are addresses
  that may be reused once freed; using a dead or null transport sets `fault`.
- `PeerEvents.dfy`: what the events of a run say about the state it leads to.
- `PeerSafety.dfy`, `PeerFlow.dfy`, `PeerProgress.dfy`: what all runs of that system
  keep, and that they get on.
- `PeerRuns.dfy`: whole operations and packets as runs, and the runs in which short keys
  misroute.
- `Framing.dfy`: the two-byte header and the tagging of inter-controller (ICC) frames.
- `Candidates.dfy`: printing and parsing ICE candidates.
- `Roles.dfy`: the ICE and DTLS roles of the two ends of a link.
- `Xmpp.dfy`, `XmppSocket.dfy`: the reconnect machine, and the socket's write buffer.
- `Manager.dfy`: the connection manager and the controller access as objects whose
  methods are proved against the functions above.

## Findings

Where the code does not do what its comments or its purpose suggest, the model follows
the code, and the exact condition is proved.

- Routing by the first 8 identity bytes agrees with routing by the whole identity if no
  creation ever met a registered uid with its prefix and no other registered uid shares
  the destination's prefix (`PacketRoutingRefines`). Both are needed. With one peer
  registered, a packet to an unregistered identity with the same first 8 bytes gets
  that peer's transport (`StrangerGetsThePacket`). After two colliding uids were created
  and the first was destroyed, the second is alone and a packet to it finds nothing
  (`SurvivorIsMissed`). `PacketRoutingExact` gives the exact condition.
- The null-destination test compares three characters with all twenty and never
  succeeds. A null destination is forwarded because the lookup misses, exactly when
  no key of sixteen zeros is in the short index (`NullDestinationForwarded`).
- The type byte of an ICC frame whose sixth MAC byte is neither 3 nor 4 is never
  written. Forwarding is lossless exactly for the other frames
  (`LosslessIffWellTagged`, `IllTaggedPacketIsLost`). Behind a hit, ICC frames are tagged as data too.
- Candidates survive the message exactly when no text field holds a colon or white
  space, which rules out IPv6 addresses (`CandidateRoundTrip`,
  `Ipv6CandidateIsGarbled`).
- Two nodes take complementary roles exactly when the one with the larger uid was set
  up before it created its link (`ComplementaryRoles`); for any two identities there are
  runs in which they do not (`RolesFailBeforeSetup`).
- A registered transport always has a channel, so forwarding for want of one is never
  done (`ChannelsNeverMissing`).
- The first reconnect inside `OnMessage` leaves a second pending timer message, for good;
  later ones never leave a third (`TimerNeitherDiesNorMultiplies`). The presence period
  is eight ticks, whichever of the messages brings them.

## Assumptions

- A transport's signals reach the link thread between its operations and before the
  transport is freed.
- A channel read is delivered only while a live transport has that channel; the
  mailbox serves messages in order.
- `pthread_cond_signal` wakes at least one waiting thread if there is one; spurious
  wakeups and barging are allowed.
- Within one connection the XMPP engine state only moves forward.
- `TwoTicksReconnect` allows that a disconnect is not followed by CLOSED before the next
  tick; `ReconnectsIffClosed` shows what happens then.

## Model

| member | source | states |
|---|---|---|
| `Text.CompareIsLexicographic` | src/tincanconnectionmanager.cc:416-433 | the sign of a comparison is the lexicographic order: a proper prefix, or the smaller character where the two first differ |
| `Text.WordsStep` | src/tincanconnectionmanager.cc:553-555 | extraction skips any white space and takes the word behind it, up to the next white space; at the end there is none |
| `Text.AtoIReads` | src/tincanconnectionmanager.cc:561-564 | `atoi` skips white space, reads one sign and the digits, and stops at the first other character |
| `WaitQueue.FifoInEveryRun` | src/wqueue.h:47-62 | for any producers and consumers, what was removed is, in lock order, a prefix of what was added; the rest is the queue; callers get what was removed |
| `WaitQueue.NoLostWakeupInEveryRun` | src/wqueue.h:47-62 | with the mutex free and someone asleep, the queue holds no more items than there are woken callers that have not returned |
| `WaitQueue.SleepersAreNeverStranded` | src/wqueue.h:53-57 | a sleeper beside a non-empty queue implies an enabled step of a thread that is awake |
| `WaitQueue.SpuriousWakeupSleepsAgain` | src/wqueue.h:55-57 | in every run a sleeper may wake for no reason; beside an empty queue it goes back to sleep and nothing has changed |
| `WaitQueue.WorkQueue.Add` | src/wqueue.h:47-52 | the critical section is lock, push, signal, unlock of the step system, in that order |
| `WaitQueue.WorkQueue.Remove` | src/wqueue.h:53-62 | one pass gives the front item or goes to sleep on an empty queue, as the step system does |
| `PeerTable.HistoryKeepsIndices` | src/tincanconnectionmanager.cc:449-514 | after any legal history `transport_map_` is the exact inverse of `uid_map_` and each short entry belongs to a registered uid with that prefix |
| `PeerTable.ShortsFollowLastTouch` | src/tincanconnectionmanager.cc:654-671 | the short index holds a key exactly when the last operation on that prefix was a creation, and holds its transport |
| `PeerTable.ShortRoutingExact` | src/tincanconnectionmanager.cc:48-52 | short lookup and full lookup agree on a destination if and only if the last operation on its prefix created it, or destroyed a uid while it is absent, or there was none |
| `PeerTable.ShortRoutingFailsAfterCollision` | src/tincanconnectionmanager.cc:663-671 | create, create, destroy with one prefix leaves a registered uid that the short lookup misses |
| `PeerTable.ShortRoutingHitsStranger` | src/tincanconnectionmanager.cc:352-356 | without any collision the short lookup of an unregistered uid finds the transport of a registered one with its prefix |
| `PeerTable.NoCollisionMeansExact` | src/tincanconnectionmanager.cc:509-514 | without collisions the short index is exactly the prefix image of `uid_map_` |
| `PeerTable.CallbackPlantsNothing` | src/tincanconnectionmanager.cc:202-232 | `operator[]` in a callback leaves the maps alone if and only if the transport is registered |
| `PeerTable.UidPrefixFromBytes` | src/tincanconnectionmanager.cc:139-141 | for a 40-digit lowercase uid, hex-encoding the first 8 decoded bytes gives its 16-digit map key |
| `PeerEvents.HistoriesFollowEvents` | src/tincanconnectionmanager.cc:613-635 | over all runs the packets in the histories are those the producers handed in and those the controller gave, in order; there is a signal for each producer that is done; the rooms of the tap reads are those asked for |
| `PeerEvents.PeerArrivalsFollowNetwork` | src/tincanconnectionmanager.cc:282-302 | over all runs what arrived from peers are network reads, each at most once, unchanged and in order; the reads not looked at are the last |
| `PeerEvents.SelfFollowsEvents` | src/tincanconnectionmanager.cc:124-127 | the own identity is the one set, if one was, and only one ever is |
| `PeerEvents.TransportsFollowEvents` | src/tincanconnectionmanager.cc:444-517 | over all runs each live transport was created for that uid and channel, keeps the channel until it is torn down, compared the identity set by then, and is writable exactly if the last change said so |
| `PeerSafety.LifetimeSafety` | src/tincanconnectionmanager.cc:580-591 | in every reachable state each short entry is the live transport of a registered uid with that prefix, the pointer held by the packet thread is alive, and no dead transport was used |
| `PeerSafety.ChannelsNeverMissing` | src/tincanconnectionmanager.cc:643-652 | the statistics closure and the router never meet a missing channel, so the branch for a writable transport without one is dead |
| `PeerSafety.TransportsConserved` | src/tincanconnectionmanager.h:175-193 | the live transports are exactly the registered ones plus the one the link thread is building or tearing down |
| `PeerSafety.IndicesAgree` | src/tincanconnectionmanager.cc:509-514 | between operations the maps are those of the completed operations run one after another, inverse to each other, and exact without collisions; inside one the short index is still a part of the prefix image |
| `PeerSafety.CallbacksPlantNothing` | src/tincanconnectionmanager.cc:228-232 | a callback of a live transport between operations changes no map |
| `PeerSafety.PacketRoutingExact` | src/tincanconnectionmanager.cc:311-315 | for every packet, lookup by 8 destination bytes against lookup of all 20, with the exact condition for agreement |
| `PeerSafety.PacketRoutingRefines` | src/tincanconnectionmanager.cc:352-356 | without collisions and with no other registered uid sharing the destination's prefix the two lookups agree |
| `PeerProgress.PacketThreadNeverBlocks` | src/tincanconnectionmanager.cc:613-641 | there is a queued packet for each pending signal, each producer between `add` and `Post`, and the signal being dispatched, so `remove` never blocks |
| `PeerProgress.NoDeadlock` | src/tincanconnectionmanager.cc:586-588 | neither thread is ever stuck; while the link thread waits in `Invoke` the packet thread has a step |
| `PeerProgress.EveryInvokeIsServed` | src/tincanconnectionmanager.cc:512-514 | a waiting `Invoke` returns within a computed number of the packet thread's own steps, whatever everyone else does |
| `PeerProgress.EveryPostedPacketIsHandled` | src/tincanconnectionmanager.cc:596-604 | within a computed number of the packet thread's own steps as many packets as signals were posted have their outcomes, in the order handed in |
| `PeerFlow.PipelineRefinesRouter` | src/tincanconnectionmanager.cc:309-381 | the packets that the events of a run hand in are those handled, the one in hand and those queued, in order; the outcomes of the branches taken are those of the sequential router on the answers the tables gave |
| `PeerFlow.EachPacketMeetsItsFate` | src/tincanconnectionmanager.cc:309-381 | each packet handed in and handled is dropped under 40 bytes, sent, or forwarded behind the header, its bytes unchanged |
| `PeerFlow.OutcomeIffAnswers` | src/tincanconnectionmanager.cc:314-381 | over all runs a packet handed in was sent if and only if its key was found and the transport was writable when asked, then on its channel; forwarded as a miss if not found; forwarded behind the bytes 3, 2 if and only if found and not writable |
| `PeerFlow.AnswersAreTrue` | src/tincanconnectionmanager.cc:314-360 | each recorded answer is what the tables said, at that step, about the live transport of a registered uid with the packet's destination prefix; at the send the channel is still that transport's |
| `PeerFlow.NullDestinationForwarded` | src/tincanconnectionmanager.cc:66-69 | a null destination is forwarded at once if and only if the all-zero key is not in the short index |
| `PeerFlow.ForwardedPacketsArrive` | src/tincanconnectionmanager.cc:318-347 | a forwarded packet reaches a packet queue of the receiving node unchanged, except an ill-tagged one after a miss |
| `PeerFlow.ReadsFollowArrivals` | src/tincanconnectionmanager.cc:623-635 | the tap reads what arrived, in order and unchanged, except packets longer than its buffer; what arrived is all the controller gave and some of what the network delivered, each in order |
| `PeerFlow.ReceiveProvenance` | src/tincanconnectionmanager.cc:286-302 | a packet from a peer has at least 40 bytes and came on the channel of the live transport registered for a uid with the prefix of its encoded first 20 bytes |
| `PeerFlow.PeerPacketsArriveExactly` | src/tincanconnectionmanager.cc:286-302 | a delivered packet arrives if and only if its header is complete and its live channel is that of the transport found for the prefix of its encoded first 20 bytes; otherwise nothing changes |
| `Framing.NullTestNeverMatches` | src/tincanconnectionmanager.cc:314 | the comparison of three characters with the whole constant is never zero |
| `Framing.KeysArePrefixes` | src/tincanconnectionmanager.cc:310-311 | the source key is the prefix of the encoded bytes 0 to 19, the destination key that of bytes 20 to 39 |
| `Framing.MissFrameBytes` | src/tincanconnectionmanager.cc:318-347 | byte for byte: version 3; then the sixth MAC byte of a packet with MAC 00-69-70-6f-70 if it is 3 or 4, the old content if not, and 2 for all other packets; then the packet |
| `Framing.IccFrameShown` | src/tincanconnectionmanager.cc:748-753 | one ICC packet and its frame in full |
| `Framing.DispatchByType` | src/controlleraccess.cc:170-177 | type 2 goes to the tap and 3 and 4 to the send queue, without the header; 1 and everything else goes to the control dispatch |
| `Framing.FrameRoundTrip` | src/controlleraccess.cc:170-175 | the receiving controller side gets exactly the original packet, for the send queue if ICC, else for the tap |
| `Framing.LosslessIffWellTagged` | src/tincanconnectionmanager.cc:329-343 | forwarding is lossless for every content of the new buffer if and only if the type byte is written on the frame's path |
| `Framing.IllTaggedPacketIsLost` | src/tincanconnectionmanager.cc:329-338 | a 47-byte ICC packet with sixth MAC byte 5 and a buffer content for which it reaches no packet queue |
| `Framing.DestUidUnambiguous` | src/tincanconnectionmanager.cc:48-52 | packets with one full destination uid have the same twenty destination bytes |
| `Framing.ReframeIsIdentity` | src/tincanconnectionmanager.cc:318-347 | a well-tagged ICC packet that misses again is framed byte for byte the same |
| `Candidates.PrintedForm` | src/tincanconnectionmanager.cc:242-253 | the twelve fields in order, with colons between them |
| `Candidates.MessageWords` | src/tincanconnectionmanager.cc:264-273 | the words of the message are the fingerprint and then the gathered strings |
| `Candidates.WordsOfOtherLengths` | src/tincanconnectionmanager.cc:556-565 | a word with fewer than eleven colons is skipped; of a longer one only the first twelve fields count |
| `Candidates.CandidateRoundTrip` | src/tincanconnectionmanager.cc:233-273 | what the peer parses behind the fingerprint is the gathered set less tap-device candidates if and only if no text field holds a colon or white space |
| `Candidates.CleanRoundTrip` | src/tincanconnectionmanager.cc:553-567 | then the result is also free of duplicates and in the lexicographic order of the printed forms |
| `Candidates.GatherBatches` | src/tincanconnectionmanager.cc:228-256 | gathering in batches is gathering all at once |
| `Candidates.Ipv6CandidateIsGarbled` | src/tincanconnectionmanager.cc:237-245 | a candidate whose address holds a colon never comes back |
| `Roles.DistinctUidsComplement` | src/tincanconnectionmanager.cc:415-441 | for distinct uids one end controls and offers as actpass, the other answers as active; the lexicographically larger uid leads |
| `Roles.LargerDigitLeads` | src/tincanconnectionmanager.cc:415-433 | for two identities of forty characters the end with the larger first differing one leads and the other follows |
| `PeerRoles.ComplementaryRoles` | src/tincanconnectionmanager.cc:124-127 | over any runs of two nodes, the roles are complementary if and only if the identity of the node with the larger uid was set by an event before the one that last created its link |
| `PeerRoles.RolesFailBeforeSetup` | src/tincanconnectionmanager.cc:415-441 | for any two identities, reachable states of their nodes, linked before they were set up, in which neither leads |
| `PeerRuns.CreateCompletes` | src/tincanconnectionmanager.cc:444-517 | from any quiet reachable state a run creates the link to any absent uid other than the own one |
| `PeerRuns.DestroyCompletes` | src/tincanconnectionmanager.cc:572-594 | and a run destroys any link and frees its transport |
| `PeerRuns.StatsComplete` | src/tincanconnectionmanager.cc:643-652 | asking for the statistics of a link takes one `Invoke` and changes nothing |
| `PeerRuns.SendCompletes` | src/tincanconnectionmanager.cc:596-616 | from any idle reachable state a packet handed in has a run that drops it under 40 bytes, sends it on the channel registered under its destination prefix if writable, and forwards it otherwise |
| `PeerRuns.ReceiveCompletes` | src/tincanconnectionmanager.cc:282-303 | a packet delivered on the channel registered for its source has a run in which the tap reads it as it came |
| `PeerRuns.ControllerPacketCompletes` | src/controlleraccess.cc:88-92 | so is a packet of any length from the controller |
| `PeerRuns.FirstPacketIsSent` | src/tincanconnectionmanager.cc:444-517 | from the start, for any two identities: set up, link, become writable, and the first packet is sent on the channel of the link |
| `PeerRuns.StrangerGetsThePacket` | src/tincanconnectionmanager.cc:352-356 | a reachable state without collisions in which a packet to an unregistered identity finds a stranger's transport |
| `PeerRuns.SurvivorIsMissed` | src/tincanconnectionmanager.cc:663-671 | a reachable state in which a packet to the only registered uid finds nothing |
| `Xmpp.KeyRecoversUid` | src/xmppnetwork.cc:57-63 | the key of bare + "/tincan" + uid is the uid; a shorter resource leaves the whole address |
| `Xmpp.KeyWithoutSlash` | src/xmppnetwork.cc:58-62 | without a slash the sum of positions wraps around and the key starts at the seventh character |
| `Xmpp.FromTinCanForm` | src/xmppnetwork.cc:103-104 | the addresses that are filed are bare + "/tincan" + anything, other than the own one |
| `Xmpp.FilesFollowStanzas` | src/xmppnetwork.cc:105-125 | over all runs a key is on file exactly when a foreign tincan stanza with it has come, with the address of the last one; a friend exactly when a presence has, with the time of the last one |
| `Xmpp.SenderIsOnFile` | src/xmppnetwork.cc:105-125 | a peer heard of as bare + "/tincan" + uid is on file under its uid, and a friend if that was presence |
| `Xmpp.KeysOnFile` | src/xmppnetwork.cc:105-125 | in every run each filed address has the key it is filed under and every friend is on file |
| `Xmpp.TimerNeitherDiesNorMultiplies` | src/xmppnetwork.cc:232-265 | once logged in there are one or two pending timer messages, two exactly when a tick has reconnected |
| `Xmpp.SendsThroughCurrentPump` | src/xmppnetwork.h:103-108 | messages leave only through a task of the current pump, and a message to a friend goes to an address with the friend's key |
| `Xmpp.TwoTicksReconnect` | src/xmppnetwork.cc:233-263 | within two ticks the session was seen open without error, or `Connect` ran, or the engine did not close before the second tick although told to |
| `Xmpp.ReconnectsIffClosed` | src/xmppnetwork.cc:234-241 | after a disconnecting tick the next one reconnects if and only if the engine has closed, or has not started and shows no error |
| `Xmpp.ReconnectStartsAfresh` | src/xmppnetwork.cc:161-180 | over all runs a tick reconnects exactly if the session is closed, or not started and without error; it leaves a new pump, an engine not started, no old tasks and the counter at 15, and the next tick without error reconnects again |
| `Xmpp.LoginStartsAfresh` | src/xmppnetwork.cc:173 | a tick right after `Login` reconnects if there is no error |
| `Xmpp.SessionCanOpen` | src/xmppnetwork.cc:182-217 | from every logged-in state a run of at most two steps opens a session with tasks of the current pump |
| `Xmpp.FriendCanBeReached` | src/xmppnetwork.h:99-108 | in an open session presence makes a peer a friend, and a message to it leaves through the current pump for the address it came from |
| `Xmpp.CounterFollowsTicks` | src/xmppnetwork.cc:254-265 | the counter is 15 times the ticks since the last `Connect` and fits an `int` for exactly the first 143165576; an open tick resends presence at every eighth |
| `Xmpp.PresenceSchedule` | src/xmppnetwork.cc:44-46 | over any stretch of quiet ticks presence is resent once per tick number divisible by eight, so once in any eight |
| `Xmpp.XmppNetwork.OnMessage` | src/xmppnetwork.cc:232-266 | the method takes exactly the tick of the machine |
| `Xmpp.XmppNetwork.Login` | src/xmppnetwork.cc:141-159 | succeeds once, with non-empty arguments |
| `XmppSocket.TinCanXmppSocket.OnWriteEvent` | src/tincanxmppsocket.cc:79-91 | the loop ends with an empty buffer or a refused send, and accepted bytes followed by the buffer never change |
| `XmppSocket.TinCanXmppSocket.Write` | src/tincanxmppsocket.cc:141-145 | accepted bytes followed by the buffer are all bytes written |
| `XmppSocket.RunEvents` | src/tincanxmppsocket.cc:79-145 | the same over any sequence of writes, write events and connects with any partial sends |
| `Manager.ConnectionManager.CreateTransport` | src/tincanconnectionmanager.cc:444-517 | refuses a known uid and the own one; else its effect on the three maps is that of a completed creation, its transport leads or follows as the uids compare, and it is insecure for each of three causes: not asked for, no local fingerprint, null peer fingerprint |
| `Manager.ConnectionManager.DestroyTransport` | src/tincanconnectionmanager.cc:572-594 | its effect on the three maps is that of a completed destruction |
| `Manager.ConnectionManager.Setup` | src/tincanconnectionmanager.cc:119-157 | identity, addresses and certificate fingerprint are written once and only with a forty-character uid |
| `Manager.ConnectionManager.SetupTransport` | src/tincanconnectionmanager.cc:409-442 | controlling, local offer as actpass, remote answer for a smaller peer; controlled, remote offer, local answer as active for a larger one |
| `Manager.ConnectionManager.OnCandidatesReady` | src/tincanconnectionmanager.cc:228-256 | the loop gathers the batch into the peer's set |
| `Manager.ConnectionManager.OnCandidatesAllocationDone` | src/tincanconnectionmanager.cc:258-280 | sends the message the round trip is about: its first word is the node's fingerprint and its other words are the gathered strings |
| `Manager.ConnectionManager.CreateConnections` | src/tincanconnectionmanager.cc:544-570 | refuses unknown peers and a second call; else the peer's candidates are the parse of the text |
| `Manager.ConnectionManager.HandlePacket` | src/tincanconnectionmanager.cc:305-382 | what it sends is `Route` of the tables' answers, with the content of the new buffer as junk; in particular a packet for a transport that is not writable goes out behind 3, 2, and otherwise on the channel |
| `Manager.ConnectionManager.OnReadPacket` | src/tincanconnectionmanager.cc:282-303 | queues a packet only from the channel registered for the prefix of its encoded first 20 bytes |
| `Manager.ConnectionManager.DoPacketRecv` | src/tincanconnectionmanager.cc:623-630 | waits on an empty queue; else hands out the first packet, or loses it when it does not fit |
| `Manager.ConnectionManager.HandleQueueSignal` | src/tincanconnectionmanager.cc:637-641 | takes the first packet of the send queue and routes it |
| `Manager.ControllerAccess.HandlePacket` | src/controlleraccess.cc:162-179 | type 2 to the tap, 3 and 4 to the send queue with a signal, everything else to the control dispatch |
| `Manager.ControllerAccess.SendTo` | src/controlleraccess.cc:94-109 | frames a control message with 3, 1 and sends it through the socket of the address family |

## Left out

- libjingle internals (ICE checks, DTLS, ports, relays, channel statistics, stanzas): a
  transport is an address with a writable flag and an optional channel, a send is an
  entry in a log.
- JSON control dispatch and state reports: field plumbing with no hard property.
- Calls into ipop-tap, certificates, network lists, logging, clocks: foreign code and
  device configuration.
- `AddIPMapping`: one guarded map insertion.
- The `Invoke` calls inside libjingle while a channel is created: they end before the
  transport is registered. `DoPacketSend` before the manager exists, and
  `wqueue::size`: not used by the threads.
- Data races on `forward_addr_`, `trim_enabled_` and the options: no claim is made.
- Manager: its methods run one call at a time and `Invoke` is a plain call; the
  interleaving is the subject of `PeerSystem`. Queue operations are single steps there,
  which `WaitQueue` justifies.
- WaitQueue.WorkQueue.Remove: models one pass of the wait loop, from getting the mutex
  to returning or sleeping, because how often a caller is woken is up to the schedule.
- Text.AtoI: clamps values outside `int`, where C leaves the result undefined;
  candidates carry numbers in `int` range, as section 4.1.2.1 of RFC 5245 ensures for
  priorities.
- Xmpp.CounterFollowsTicks: does not model the overflow of the `int` counter, which C
  leaves undefined; it says from which tick on it would occur.
- Xmpp.XmppNetwork.Login: does not model the client settings built from the arguments.
- Manager.ConnectionManager.CreateTransport: does not model port allocators and relays.
- Manager.ConnectionManager.DestroyTransport: does not free the transport, which
  `PeerSystem` models as a step of its own.
- Manager.ConnectionManager.Setup: does not model the calls into ipop-tap.
- Manager.ConnectionManager.SetupTransport: does not model the tiebreaker and the
  contents of the two descriptions apart from role and action.
- Manager.ControllerAccess.HandlePacket: expects the two header bytes, which the source
  reads without looking at the length.
- The wall-clock distance of timer messages: ticks are counted, not timed.
