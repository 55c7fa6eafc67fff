/** Which side of a link controls ICE and offers DTLS. */
module Roles {
  import opened Text

  datatype IceRole = Controlling | Controlled
  datatype DtlsRole = Actpass | Active
  datatype Action = Offer | Answer

  /** The calls `SetupTransport` makes on a new transport. */
  datatype Call = SetIceRole(role: IceRole) | SetLocal(dtls: DtlsRole, action: Action) | SetRemote(action: Action)

  function SetupCalls(self: string, peer: string): seq<Call> {
    var dtls := if Compare(peer, self) > 0 then Active else Actpass;
    if Compare(peer, self) < 0 then [SetIceRole(Controlling), SetLocal(dtls, Offer), SetRemote(Answer)]
    else [SetIceRole(Controlled), SetRemote(Offer), SetLocal(dtls, Answer)]
  }

  /** Controls, and offers as actpass (section 5.2 of RFC 5245, section 5 of RFC 5763). */
  predicate Leads(calls: seq<Call>) {
    calls == [SetIceRole(Controlling), SetLocal(Actpass, Offer), SetRemote(Answer)]
  }

  /** Is controlled, and answers the offer as active. */
  predicate Follows(calls: seq<Call>) {
    calls == [SetIceRole(Controlled), SetRemote(Offer), SetLocal(Active, Answer)]
  }

  predicate Complementary(a: seq<Call>, b: seq<Call>) {
    (Leads(a) && Follows(b)) || (Follows(a) && Leads(b))
  }

  /** Two nodes that both know who they are always take complementary roles, and the
      one with the larger uid leads. */
  lemma DistinctUidsComplement(a: string, b: string)
    requires a != b
    ensures Complementary(SetupCalls(a, b), SetupCalls(b, a))
    ensures Leads(SetupCalls(a, b)) <==> Below(b, a)
  {
    CompareIsLexicographic(a, b);
    CompareIsLexicographic(b, a);
  }

  /** For two identities the first digit in which they differ decides: the end with the
      larger one leads, the other follows. */
  lemma LargerDigitLeads(a: string, b: string, k: nat)
    requires |a| == |b| == ID_SIZE && k < ID_SIZE && a[..k] == b[..k] && b[k] < a[k]
    ensures Leads(SetupCalls(a, b)) && Follows(SetupCalls(b, a))
  {
    FirstDifferenceDecides(b, a, k);
    DistinctUidsComplement(a, b);
  }

  /** A node that is not set up yet follows everyone. */
  lemma UnsetFollows(peer: string)
    requires peer != ""
    ensures Follows(SetupCalls("", peer))
  {
  }
}

/** The roles two nodes take over whole runs. */
module PeerRoles {
  import opened Text
  import opened PeerTable
  import opened PeerSystem
  import opened PeerSafety
  import opened PeerEvents
  import opened PeerRuns
  import opened Roles

  lemma PeersAreAlive(s: Sys)
    requires Reachable(s)
    ensures forall u :: u in s.idx.uids ==> s.idx.uids[u] in s.heap
  {
    ReachableInv(s);
    HistoryKeepsIndices(s.ops);
  }

  /** The calls made on the transport registered for `u`. */
  ghost function CallsFor(s: Sys, u: Uid): seq<Call>
    requires Reachable(s) && u in s.idx.uids
  {
    PeersAreAlive(s);
    var t := s.heap[s.idx.uids[u]];
    SetupCalls(t.selfThen, t.peer)
  }

  /** The node was set up before it last created the link to `u`. */
  ghost predicate SetUpBefore(es: seq<Event>, u: Uid) {
    exists j :: 0 <= j < |es| && LastCreation(es, j, u) && exists e :: e in es[..j] && e.SetSelf?
  }

  ghost predicate LastCreation(es: seq<Event>, j: nat, u: Uid) {
    && j < |es| && es[j].BeginCreate? && es[j].uid == u
    && forall k :: j < k < |es| && es[k].BeginCreate? ==> es[k].uid != u
  }

  /** The calls compare the peer with the own identity if the node was set up by then, and
      with nothing if it was not. */
  lemma RolesOf(es: seq<Event>, u: Uid)
    requires ValidRun(START, es) && u in Run(START, es).idx.uids
    ensures CallsFor(Run(START, es), u) ==
              SetupCalls(if SetUpBefore(es, u) then Run(START, es).self else "", u)
  {
    var s := Run(START, es);
    PeersAreAlive(s);
    RunKeepsPeers(START, es);
    var t := s.idx.uids[u];
    var i := TransportsFollowEvents(es, t);
    assert LastCreation(es, i, u);
    assert forall j :: 0 <= j < |es| && LastCreation(es, j, u) ==> j == i;
    SelfFollowsEvents(es);
    assert forall e :: e in es[..i] ==> e in es;
  }

  /** For any two nodes with distinct identities and links to each other, after any
      runs: the roles are complementary if and only if the node with the larger uid was
      set up before it created its link.  So they always are when both were. */
  lemma ComplementaryRoles(es: seq<Event>, fs: seq<Event>)
    requires ValidRun(START, es) && ValidRun(START, fs)
    requires Run(START, es).self != "" && Run(START, fs).self != "" && Run(START, es).self != Run(START, fs).self
    requires Run(START, fs).self in Run(START, es).idx.uids && Run(START, es).self in Run(START, fs).idx.uids
    ensures var x, y := Run(START, es), Run(START, fs);
            Complementary(CallsFor(x, y.self), CallsFor(y, x.self)) <==>
            if Below(y.self, x.self) then SetUpBefore(es, y.self) else SetUpBefore(fs, x.self)
  {
    var x, y := Run(START, es).self, Run(START, fs).self;
    RolesOf(es, y);
    RolesOf(fs, x);
    DistinctUidsComplement(x, y);
    UnsetFollows(x);
    UnsetFollows(y);
    if Below(y, x) {
      assert Leads(SetupCalls(x, y)) && Follows(SetupCalls(y, x));
    } else {
      assert Leads(SetupCalls(y, x)) && Follows(SetupCalls(x, y));
    }
  }

  /** A node that links to `peer` first and is set up as `self` only then. */
  lemma LinkBeforeSetup(self: Uid, peer: Uid) returns (s: Sys)
    requires |self| == |peer| == ID_SIZE && self != peer
    ensures Reachable(s) && s.self == self && peer in s.idx.uids && CallsFor(s, peer) == SetupCalls("", peer)
  {
    StartIsReachable();
    CreateCompletes(START, peer, 1, 1);
    var s1 := AfterCreate(START, peer, 1, 1);
    SetSelfCompletes(s1, self);
    s := s1.(self := self);
    PeersAreAlive(s);
  }

  /** The roles do fail: for any two identities there are runs of their nodes after which
      neither end leads, because both linked before they were set up. */
  lemma RolesFailBeforeSetup(a: Uid, b: Uid) returns (x: Sys, y: Sys)
    requires |a| == |b| == ID_SIZE && a != b
    ensures Reachable(x) && Reachable(y) && x.self == a && y.self == b
    ensures b in x.idx.uids && a in y.idx.uids
    ensures Follows(CallsFor(x, b)) && Follows(CallsFor(y, a)) && !Complementary(CallsFor(x, b), CallsFor(y, a))
  {
    x := LinkBeforeSetup(a, b);
    y := LinkBeforeSetup(b, a);
    UnsetFollows(a);
    UnsetFollows(b);
  }
}
