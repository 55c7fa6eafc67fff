/** The XMPP side: the reconnect machine driven by a re-arming timer message, the
    presence schedule, and the map from peer keys to addresses. */
module Xmpp {
  import opened Text

  const PREFIX := "tincan"
  const PREFIX_SIZE := 7            // sizeof(kXmppPrefix), with its final NUL
  const INTERVAL := 15              // kInterval / 1000
  const PRESENCE_INTERVAL := 120
  const INT_MAX := 0x7fff_ffff
  const SIZE_MAX := 0x1_0000_0000_0000_0000

  // ---------- peer keys ----------

  function Find(s: string, c: char): (r: Option<nat>)
    ensures r.Some? ==> r.value < |s| && s[r.value] == c && c !in s[..r.value]
    ensures r.None? ==> c !in s
  {
    if s == "" then None
    else if s[0] == c then Some(0)
    else
      match Find(s[1..], c)
      case None => None
      case Some(i) => assert s[..i + 1] == [s[0]] + s[1..][..i]; Some(i + 1)
  }

  /** `get_key`; `find` gives the largest `size_t` on a miss, and the sum wraps. */
  function GetKey(jid: string): string {
    var at := match Find(jid, '/') case Some(i) => i case None => SIZE_MAX - 1;
    var sum := at + PREFIX_SIZE;
    var idx := if sum >= SIZE_MAX then sum - SIZE_MAX else sum;
    if idx + ID_SIZE <= |jid| then jid[idx..idx + ID_SIZE] else jid
  }

  lemma {:induction false} FindAt(a: string, rest: string, c: char)
    requires c !in a
    ensures Find(a + [c] + rest, c) == Some(|a|)
  {
    if a != "" {
      assert (a + [c] + rest)[1..] == a[1..] + [c] + rest;
      assert a[0] in a;
      FindAt(a[1..], rest, c);
    }
  }

  /** The key of "bare/tincan" + uid is the uid, for every bare address; a resource that is
      too short for an identity makes the whole address the key, and what follows the
      identity does not matter.  (Lengths stay below the size of the address space.) */
  lemma KeyRecoversUid(bare: string, rest: string)
    requires '/' !in bare && |bare| + PREFIX_SIZE < SIZE_MAX
    ensures GetKey(bare + "/tincan" + rest) == if |rest| >= 40 then rest[..40] else bare + "/tincan" + rest
  {
    var jid := bare + "/tincan" + rest;
    assert jid == bare + ['/'] + ("tincan" + rest);
    FindAt(bare, "tincan" + rest, '/');
    assert jid == (bare + "/tincan") + rest;
  }

  /** Without a slash the sum wraps around, and the key starts at the seventh character. */
  lemma KeyWithoutSlash(jid: string)
    requires '/' !in jid
    ensures GetKey(jid) == if |jid| >= 46 then jid[6..46] else jid
  {
  }

  /** The part of an address behind its first slash. */
  function Resource(jid: string): string {
    match Find(jid, '/') case Some(i) => jid[i + 1..] case None => ""
  }

  predicate FromTinCan(jid: string, own: string) {
    PREFIX <= Resource(jid) && jid != own
  }

  lemma TinCanFormFound(jid: string)
    requires PREFIX <= Resource(jid)
    ensures exists bare, rest :: '/' !in bare && jid == bare + "/tincan" + rest
  {
    var i := Find(jid, '/').value;
    var bare, behind := jid[..i], jid[i + 1..];
    var rest := behind[6..];
    assert behind == "tincan" + rest;
    assert jid == bare + ['/'] + behind;
    assert jid == bare + "/tincan" + rest;
  }

  lemma TinCanResource(bare: string, rest: string)
    requires '/' !in bare
    ensures PREFIX <= Resource(bare + "/tincan" + rest)
  {
    var jid := bare + "/tincan" + rest;
    assert jid == bare + ['/'] + ("tincan" + rest);
    FindAt(bare, "tincan" + rest, '/');
    assert jid[|bare| + 1..] == "tincan" + rest;
  }

  /** Such an address is "bare/tincan" and anything behind it, and not the own one. */
  lemma FromTinCanForm(jid: string, own: string)
    ensures FromTinCan(jid, own) <==>
            jid != own && exists bare, rest :: '/' !in bare && jid == bare + "/tincan" + rest
  {
    if PREFIX <= Resource(jid) {
      TinCanFormFound(jid);
    }
    forall bare, rest | '/' !in bare && jid == bare + "/tincan" + rest ensures PREFIX <= Resource(jid) {
      TinCanResource(bare, rest);
    }
  }

  // ---------- the machine ----------

  datatype Engine = NotStarted | Starting | Opening | Open | Closed

  function Order(e: Engine): nat {
    match e
    case NotStarted => 0
    case Starting => 1
    case Opening => 2
    case Open => 3
    case Closed => 4
  }

  /** `pump` numbers the pumps (0 is the null pointer); a task is known by the pump it
      was built for.  `timers` counts pending messages, `ticks` the `OnMessage` calls
      since the last `Connect` with the one that ran it, `reconnected` whether one ever
      did, `resent` the presences `OnMessage` sent again; `closing` says that the
      current pump was told to disconnect. */
  datatype Net = Net(
    pump: nat,
    state: Engine,
    task: Option<nat>,
    presence: Option<nat>,
    ping: Option<nat>,
    counter: int,
    timers: nat,
    closing: bool,
    uids: map<string, string>,
    friends: map<string, nat>,
    stanzas: seq<(nat, string)>,
    ticks: nat,
    reconnected: bool,
    resent: nat)

  /** Before `Login` the engine state and the counter hold anything. */
  function Fresh(state: Engine, counter: int): Net {
    Net(0, state, None, None, None, counter, 0, false, map[], map[], [], 0, false, 0)
  }

  function Connected(n: Net): Net {
    n.(pump := n.pump + 1, state := NotStarted, closing := false, timers := 1, counter := 0, ticks := 0)
  }

  function SignedOn(n: Net): Net {
    if n.pump == 0 then n
    else n.(task := Some(n.pump), presence := Some(n.pump), ping := Some(n.pump))
  }

  function StateChanged(n: Net, state: Engine): Net {
    var n1 := n.(state := state);
    if state == Open then SignedOn(n1) else n1
  }

  /** The tick takes the branch that disconnects. */
  predicate Disconnects(n: Net, childError: bool) {
    n.state == Starting || n.state == Opening || (childError && n.state != Closed)
  }

  function Handled(n: Net, childError: bool): Net {
    if n.pump == 0 then n
    else if Disconnects(n, childError) then n.(closing := true)
    else if n.state == NotStarted then Connected(n).(reconnected := true)
    else if n.state == Closed then Connected(n.(presence := None, task := None, ping := None)).(reconnected := true)
    else if n.counter % PRESENCE_INTERVAL == 0 then n.(presence := Some(n.pump), resent := n.resent + 1)
    else n
  }

  /** `OnMessage`, run for one of the pending timer messages. */
  function Ticked(n: Net, childError: bool): Net
    requires n.timers > 0
  {
    var n1 := Handled(n.(timers := n.timers - 1), childError);
    n1.(timers := n1.timers + 1, counter := n1.counter + INTERVAL, ticks := n1.ticks + 1)
  }

  function SentTo(n: Net, uid: string): Net {
    if n.state == Open && n.task.Some? && uid in n.uids
    then n.(stanzas := n.stanzas + [(n.task.value, n.uids[uid])]) else n
  }

  /** `ProcessStart` for one stanza; a presence stanza also records its time. */
  function Processed(n: Net, from: string, own: string, isMessage: bool, now: nat): Net {
    if !FromTinCan(from, own) then n
    else
      var key := GetKey(from);
      var n1 := n.(uids := n.uids[key := from]);
      if isMessage then n1 else n1.(friends := n1.friends[key := now])
  }

  datatype Event =
    | Login
    | Tick(childError: bool)
    | Change(state: Engine)
    | Stanza(from: string, own: string, isMessage: bool, now: nat)
    | Send(uid: string)

  /** Within one connection the engine only moves forward. */
  predicate Enabled(n: Net, e: Event) {
    match e
    case Login => n.pump == 0
    case Tick(_) => n.timers > 0
    case Change(state) => n.pump != 0 && Order(state) > Order(n.state)
    case Stanza(_, _, _, _) => n.task.Some?
    case Send(_) => true
  }

  function Apply(n: Net, e: Event): Net
    requires Enabled(n, e)
  {
    match e
    case Login => Connected(n)
    case Tick(err) => Ticked(n, err)
    case Change(state) => StateChanged(n, state)
    case Stanza(from, own, isMessage, now) => Processed(n, from, own, isMessage, now)
    case Send(uid) => SentTo(n, uid)
  }

  ghost predicate ValidRun(n: Net, es: seq<Event>)
    decreases |es|
  {
    es == [] || (Enabled(n, es[0]) && ValidRun(Apply(n, es[0]), es[1..]))
  }

  ghost function Run(n: Net, es: seq<Event>): Net
    requires ValidRun(n, es)
    decreases |es|
  {
    if es == [] then n else Run(Apply(n, es[0]), es[1..])
  }

  lemma {:induction false} RunInit(n: Net, es: seq<Event>)
    requires es != [] && ValidRun(n, es)
    ensures var prev, e := es[..|es| - 1], es[|es| - 1];
            ValidRun(n, prev) && Enabled(Run(n, prev), e) && Run(n, es) == Apply(Run(n, prev), e)
    decreases |es|
  {
    if |es| == 1 {
      assert es[1..] == [] && es[..0] == [];
    } else {
      RunInit(Apply(n, es[0]), es[1..]);
      assert es[..|es| - 1][1..] == es[1..][..|es[1..]| - 1];
    }
  }

  // ---------- what every run keeps ----------

  ghost predicate Timers(n: Net) {
    && (n.pump == 0 ==> n.timers == 0 && !n.reconnected)
    && (n.pump != 0 ==> n.timers == (if n.reconnected then 2 else 1) && n.counter == INTERVAL * n.ticks)
  }

  /** A task that is there was built for the current pump, in an open session. */
  ghost predicate TaskOk(n: Net, task: Option<nat>) {
    && (task.Some? ==> n.pump != 0 && task.value == n.pump && (n.state == Open || n.state == Closed))
    && (n.pump != 0 && n.state == Open ==> task.Some?)
  }

  ghost predicate Tasks(n: Net) {
    TaskOk(n, n.task) && TaskOk(n, n.presence) && TaskOk(n, n.ping)
  }

  ghost predicate Filed(n: Net) {
    && (forall k :: k in n.uids ==> GetKey(n.uids[k]) == k)
    && n.friends.Keys <= n.uids.Keys
  }

  ghost predicate Inv(n: Net) {
    Timers(n) && Tasks(n) && Filed(n)
  }

  lemma StepKeepsTimers(n: Net, e: Event)
    requires Timers(n) && Enabled(n, e)
    ensures Timers(Apply(n, e))
  {
  }

  lemma HandledKeepsTasks(n: Net, err: bool)
    requires Tasks(n)
    ensures Tasks(Handled(n, err))
  {
  }

  lemma TickKeepsTasks(n: Net, err: bool)
    requires Tasks(n) && n.timers > 0
    ensures Tasks(Ticked(n, err))
  {
    HandledKeepsTasks(n.(timers := n.timers - 1), err);
  }

  lemma ChangeKeepsTasks(n: Net, state: Engine)
    requires Tasks(n) && n.pump != 0 && Order(state) > Order(n.state)
    ensures Tasks(StateChanged(n, state))
  {
  }

  lemma StepKeepsTasks(n: Net, e: Event)
    requires Tasks(n) && Enabled(n, e)
    ensures Tasks(Apply(n, e))
  {
    match e
    case Tick(err) => TickKeepsTasks(n, err);
    case Change(state) => ChangeKeepsTasks(n, state);
    case _ =>
  }

  lemma StepKeepsFiled(n: Net, e: Event)
    requires Filed(n) && Enabled(n, e)
    ensures Filed(Apply(n, e))
  {
    if !e.Stanza? {
      UntouchedFiles(n, e);
    }
  }

  lemma TickLeavesFiles(n: Net, err: bool)
    requires n.timers > 0
    ensures Ticked(n, err).uids == n.uids && Ticked(n, err).friends == n.friends
  {
  }

  lemma UntouchedFiles(n: Net, e: Event)
    requires Enabled(n, e) && !e.Stanza?
    ensures Apply(n, e).uids == n.uids && Apply(n, e).friends == n.friends
  {
    if e.Tick? {
      TickLeavesFiles(n, e.childError);
    }
  }

  lemma StepKeepsInv(n: Net, e: Event)
    requires Inv(n) && Enabled(n, e)
    ensures Inv(Apply(n, e))
  {
    StepKeepsTimers(n, e);
    StepKeepsTasks(n, e);
    StepKeepsFiled(n, e);
  }

  lemma {:induction false} RunKeepsInv(n: Net, es: seq<Event>)
    requires Inv(n) && ValidRun(n, es)
    ensures Inv(Run(n, es))
    decreases |es|
  {
    if es != [] {
      StepKeepsInv(n, es[0]);
      RunKeepsInv(Apply(n, es[0]), es[1..]);
    }
  }

  /** The reconnect tick neither dies nor multiplies without bound: once logged in
      there is always a pending timer message, and never more than two; there are two
      exactly when some tick has reconnected. */
  lemma TimerNeitherDiesNorMultiplies(state: Engine, counter: int, es: seq<Event>)
    requires ValidRun(Fresh(state, counter), es)
    ensures var n := Run(Fresh(state, counter), es);
            n.pump != 0 ==> 1 <= n.timers <= 2
                            && (n.timers == 2 <==> n.reconnected)
                            && Enabled(n, Tick(true)) && Enabled(n, Tick(false))
  {
    RunKeepsInv(Fresh(state, counter), es);
  }

  /** While the session is open its tasks belong to the current pump, and a message is
      never sent through a task of an earlier connection; a message to a friend goes
      out once, to an address that has the friend's key. */
  lemma SendsThroughCurrentPump(state: Engine, counter: int, es: seq<Event>, uid: string)
    requires ValidRun(Fresh(state, counter), es)
    ensures var n := Run(Fresh(state, counter), es);
            var n' := SentTo(n, uid);
            && (n.pump != 0 && n.state == Open ==>
                  n.task == Some(n.pump) && n.presence == Some(n.pump) && n.ping == Some(n.pump))
            && (n'.stanzas != n.stanzas ==>
                  uid in n.uids && GetKey(n.uids[uid]) == uid && n.state == Open
                  && n'.stanzas == n.stanzas + [(n.pump, n.uids[uid])])
            && (n.pump != 0 && n.state == Open && uid in n.friends ==> n'.stanzas != n.stanzas)
  {
    RunKeepsInv(Fresh(state, counter), es);
  }

  /** Every address on file has the key it is filed under, and every friend is on file. */
  lemma KeysOnFile(state: Engine, counter: int, es: seq<Event>)
    requires ValidRun(Fresh(state, counter), es)
    ensures var n := Run(Fresh(state, counter), es);
            && (forall k :: k in n.uids ==> GetKey(n.uids[k]) == k)
            && n.friends.Keys <= n.uids.Keys
  {
    RunKeepsInv(Fresh(state, counter), es);
  }

  /** The stanza is filed under `k`; for the friends only presence counts. */
  predicate Files(e: Event, k: string, presenceOnly: bool) {
    e.Stanza? && FromTinCan(e.from, e.own) && GetKey(e.from) == k && (presenceOnly ==> !e.isMessage)
  }

  ghost predicate LastFiling(es: seq<Event>, i: nat, k: string, presenceOnly: bool) {
    && i < |es| && Files(es[i], k, presenceOnly)
    && forall j :: i < j < |es| ==> !Files(es[j], k, presenceOnly)
  }

  ghost predicate NeverFiled(es: seq<Event>, k: string, presenceOnly: bool) {
    forall e :: e in es ==> !Files(e, k, presenceOnly)
  }

  lemma StepFiles(n: Net, e: Event, k: string)
    requires Enabled(n, e)
    ensures var n' := Apply(n, e);
            && (Files(e, k, false) ==> k in n'.uids && n'.uids[k] == e.from)
            && (!Files(e, k, false) ==> (k in n'.uids <==> k in n.uids) && (k in n.uids ==> n'.uids[k] == n.uids[k]))
            && (Files(e, k, true) ==> k in n'.friends && n'.friends[k] == e.now)
            && (!Files(e, k, true) ==>
                  (k in n'.friends <==> k in n.friends) && (k in n.friends ==> n'.friends[k] == n.friends[k]))
  {
    if !e.Stanza? {
      UntouchedFiles(n, e);
    }
  }

  lemma FilingSnoc(es: seq<Event>, e: Event, i: nat, k: string, presenceOnly: bool)
    ensures Files(e, k, presenceOnly) ==> LastFiling(es + [e], |es|, k, presenceOnly)
    ensures !Files(e, k, presenceOnly) && LastFiling(es, i, k, presenceOnly) ==> LastFiling(es + [e], i, k, presenceOnly)
    ensures !Files(e, k, presenceOnly) && NeverFiled(es, k, presenceOnly) ==> NeverFiled(es + [e], k, presenceOnly)
  {
  }

  /** The files are those of the stanzas: a key is on file exactly when some message or
      presence of a foreign tincan sender with that key has come, with the address of the
      last one, which is `es[i]`; it is a friend's exactly when some presence has, with the
      time of the last one, which is `es[j]`. */
  ghost predicate FilesAre(n: Net, es: seq<Event>, k: string, i: nat, j: nat) {
    && (k in n.uids ==> LastFiling(es, i, k, false) && n.uids[k] == es[i].from)
    && (k !in n.uids ==> NeverFiled(es, k, false))
    && (k in n.friends ==> LastFiling(es, j, k, true) && n.friends[k] == es[j].now)
    && (k !in n.friends ==> NeverFiled(es, k, true))
  }

  lemma FilesStayRight(n: Net, es: seq<Event>, k: string, i: nat, j: nat) returns (i': nat, j': nat)
    requires es != [] && Enabled(n, es[|es| - 1]) && FilesAre(n, es[..|es| - 1], k, i, j)
    ensures FilesAre(Apply(n, es[|es| - 1]), es, k, i', j')
  {
    var prev, e := es[..|es| - 1], es[|es| - 1];
    assert es == prev + [e];
    StepFiles(n, e, k);
    FilingSnoc(prev, e, i, k, false);
    FilingSnoc(prev, e, j, k, true);
    i' := if Files(e, k, false) then |prev| else i;
    j' := if Files(e, k, true) then |prev| else j;
  }

  /** In every run the files are those of the stanzas. */
  lemma {:induction false} FilesFollowStanzas(state: Engine, counter: int, es: seq<Event>, k: string)
    returns (i: nat, j: nat)
    requires ValidRun(Fresh(state, counter), es)
    ensures FilesAre(Run(Fresh(state, counter), es), es, k, i, j)
    decreases |es|
  {
    i, j := 0, 0;
    if es != [] {
      var prev := es[..|es| - 1];
      RunInit(Fresh(state, counter), es);
      i, j := FilesFollowStanzas(state, counter, prev, k);
      i, j := FilesStayRight(Run(Fresh(state, counter), prev), es, k, i, j);
    }
  }

  /** So a peer that was heard of as "bare/tincan" + uid is on file under its uid, and is a
      friend if that was presence. */
  lemma SenderIsOnFile(state: Engine, counter: int, es: seq<Event>, e: Event, bare: string, uid: string)
    requires ValidRun(Fresh(state, counter), es) && e in es && e.Stanza?
    requires '/' !in bare && |bare| + PREFIX_SIZE < SIZE_MAX && |uid| == 40
    requires e.from == bare + "/tincan" + uid && e.from != e.own
    ensures uid in Run(Fresh(state, counter), es).uids
    ensures !e.isMessage ==> uid in Run(Fresh(state, counter), es).friends
  {
    KeyRecoversUid(bare, uid);
    assert uid[..40] == uid;
    FromTinCanForm(e.from, e.own);
    var _, _ := FilesFollowStanzas(state, counter, es, uid);
    assert Files(e, uid, false);
  }

  // ---------- connections ----------

  /** The tick runs `Connect`: the session is closed, or not started and without error. */
  predicate Reconnects(n: Net, err: bool) {
    n.state == Closed || (n.state == NotStarted && !err)
  }

  lemma TickReconnects(n: Net, err: bool)
    requires Inv(n) && n.pump != 0
    ensures n.timers > 0
    ensures Ticked(n, err).pump == n.pump + if Reconnects(n, err) then 1 else 0
    ensures Reconnects(n, err) ==>
              var n' := Ticked(n, err);
              n'.state == NotStarted && !n'.closing && n'.counter == INTERVAL && n'.ticks == 1
              && n'.task == n'.presence == n'.ping == None
  {
    TickKeepsTasks(n, err);
  }

  lemma NextTickReconnects(n: Net, err: bool)
    requires Inv(n) && n.pump != 0 && Reconnects(n, err)
    ensures n.timers > 0 && Ticked(n, err).timers > 0
    ensures Ticked(Ticked(n, err), false).pump == n.pump + 2
  {
    TickReconnects(n, err);
    StepKeepsInv(n, Tick(err));
    TickReconnects(Ticked(n, err), false);
  }

  /** Every connection starts afresh.  A tick reconnects exactly if the session is closed,
      or not started and without error; it leaves a new pump, an engine that has not
      started, no task of the connection before, and one tick on the counter; and if the
      engine has not started by the next tick without error, that tick reconnects again. */
  lemma ReconnectStartsAfresh(state: Engine, counter: int, es: seq<Event>, err: bool)
    requires ValidRun(Fresh(state, counter), es) && Run(Fresh(state, counter), es).pump != 0
    ensures Run(Fresh(state, counter), es).timers > 0
    ensures var n := Run(Fresh(state, counter), es);
            var n' := Ticked(n, err);
            && (n'.pump != n.pump <==> n.state == Closed || (n.state == NotStarted && !err))
            && (n'.pump != n.pump ==>
                  && n'.pump == n.pump + 1 && n'.state == NotStarted && !n'.closing
                  && n'.task == n'.presence == n'.ping == None
                  && n'.counter == INTERVAL && n'.ticks == 1
                  && n'.timers > 0 && Ticked(n', false).pump == n.pump + 2)
  {
    var n := Run(Fresh(state, counter), es);
    RunKeepsInv(Fresh(state, counter), es);
    TickReconnects(n, err);
    if Reconnects(n, err) {
      NextTickReconnects(n, err);
    }
  }

  /** So does the first one: a tick right after `Login` reconnects if there is no error. */
  lemma LoginStartsAfresh(state: Engine, counter: int, err: bool)
    ensures var es := [Login, Tick(err)];
            ValidRun(Fresh(state, counter), es)
            && Run(Fresh(state, counter), es).pump == (if err then 1 else 2)
            && Run(Fresh(state, counter), es).state == NotStarted
  {
    RunTwo(Fresh(state, counter), Login, Tick(err));
  }

  /** From every logged-in state a session can open: at once, or after the tick that
      replaces a closed one.  Its tasks are those of the current pump. */
  lemma SessionCanOpen(state: Engine, counter: int, es: seq<Event>) returns (more: seq<Event>)
    requires ValidRun(Fresh(state, counter), es) && Run(Fresh(state, counter), es).pump != 0
    ensures |more| <= 2 && ValidRun(Run(Fresh(state, counter), es), more)
    ensures var n := Run(Run(Fresh(state, counter), es), more);
            n.state == Open && n.task == n.presence == n.ping == Some(n.pump)
  {
    var n := Run(Fresh(state, counter), es);
    RunKeepsInv(Fresh(state, counter), es);
    if n.state == Open {
      more := [];
    } else if n.state == Closed {
      more := [Tick(false), Change(Open)];
      TickReconnects(n, false);
      RunTwo(n, Tick(false), Change(Open));
    } else {
      more := [Change(Open)];
      RunOne(n, Change(Open));
    }
  }

  /** Once a session is open, presence from a foreign "bare/tincan" + uid makes the peer a
      friend, and a message to it then leaves through the current pump for that address. */
  lemma FriendCanBeReached(state: Engine, counter: int, es: seq<Event>, bare: string, uid: string, own: string, now: nat)
    requires ValidRun(Fresh(state, counter), es)
    requires Run(Fresh(state, counter), es).pump != 0 && Run(Fresh(state, counter), es).state == Open
    requires '/' !in bare && |bare| + PREFIX_SIZE < SIZE_MAX && |uid| == 40 && bare + "/tincan" + uid != own
    ensures var n, from := Run(Fresh(state, counter), es), bare + "/tincan" + uid;
            var more := [Stanza(from, own, false, now), Send(uid)];
            && ValidRun(n, more)
            && uid in Run(n, more).friends && Run(n, more).friends[uid] == now
            && Run(n, more).stanzas == n.stanzas + [(n.pump, from)]
  {
    var n, from := Run(Fresh(state, counter), es), bare + "/tincan" + uid;
    RunKeepsInv(Fresh(state, counter), es);
    KeyRecoversUid(bare, uid);
    assert uid[..40] == uid;
    FromTinCanForm(from, own);
    StepFiles(n, Stanza(from, own, false, now), uid);
    RunTwo(n, Stanza(from, own, false, now), Send(uid));
  }

  lemma RunOne(n: Net, a: Event)
    requires Enabled(n, a)
    ensures ValidRun(n, [a]) && Run(n, [a]) == Apply(n, a)
  {
    assert [a][1..] == [];
    assert ValidRun(Apply(n, a), []);
  }

  lemma RunTwo(n: Net, a: Event, b: Event)
    requires Enabled(n, a) && Enabled(Apply(n, a), b)
    ensures ValidRun(n, [a, b]) && Run(n, [a, b]) == Apply(Apply(n, a), b)
  {
    assert [a, b][1..] == [b];
    RunOne(Apply(n, a), b);
  }

  // ---------- progress ----------

  ghost predicate NoTick(es: seq<Event>) {
    forall e :: e in es ==> !e.Tick?
  }

  lemma OtherStep(n: Net, e: Event)
    requires Inv(n) && n.pump != 0 && Enabled(n, e) && !e.Tick?
    ensures var n' := Apply(n, e);
            n'.pump == n.pump && n'.timers == n.timers && n'.ticks == n.ticks && n'.counter == n.counter
            && n'.resent == n.resent && n'.closing == n.closing && Order(n'.state) >= Order(n.state) && Inv(n')
  {
    StepKeepsInv(n, e);
  }

  lemma {:induction false} NoTickKeeps(n: Net, es: seq<Event>)
    requires Inv(n) && n.pump != 0 && ValidRun(n, es) && NoTick(es)
    ensures var n' := Run(n, es);
            n'.pump == n.pump && n'.timers == n.timers && n'.ticks == n.ticks && n'.counter == n.counter
            && n'.resent == n.resent && n'.closing == n.closing && Order(n'.state) >= Order(n.state) && Inv(n')
    decreases |es|
  {
    if es != [] {
      assert es[0] in es && forall e :: e in es[1..] ==> e in es;
      OtherStep(n, es[0]);
      NoTickKeeps(Apply(n, es[0]), es[1..]);
    }
  }

  /** Reconnect progress.  Take any logged-in state, a tick, what happens until the
      next tick, and that tick.  Then the first tick saw the session open without error,
      or one of the two reconnected, or the engine has failed to answer a disconnect
      with CLOSED before the next tick. */
  lemma TwoTicksReconnect(n: Net, err: bool, es: seq<Event>, err': bool)
    requires Inv(n) && n.pump != 0 && NoTick(es) && ValidRun(Ticked(n, err), es)
    ensures var n1 := Ticked(n, err);
            var n2 := Run(n1, es);
            && n2.timers > 0
            && (|| (n.state == Open && !err)
                || n1.pump == n.pump + 1
                || Ticked(n2, err').pump == n.pump + 1
                || (n2.closing && n2.state != Closed))
  {
    StepKeepsInv(n, Tick(err));
    NoTickKeeps(Ticked(n, err), es);
  }

  /** And exactly: after a tick that disconnects, the next one reconnects if and only if
      the engine has closed, or has not started and shows no error. */
  lemma ReconnectsIffClosed(n: Net, err: bool, es: seq<Event>, err': bool)
    requires Inv(n) && n.pump != 0 && NoTick(es) && ValidRun(Ticked(n, err), es) && Disconnects(n, err)
    ensures var n2 := Run(Ticked(n, err), es);
            n2.timers > 0 && n2.closing
            && (Ticked(n2, err').pump > n.pump <==> n2.state == Closed || (n2.state == NotStarted && !err'))
  {
    StepKeepsInv(n, Tick(err));
    NoTickKeeps(Ticked(n, err), es);
  }

  // ---------- the presence schedule ----------

  /** The counter is fifteen seconds for each tick since the last `Connect`, counting
      the tick that ran it, and fits a C `int` for exactly the first 143165576 of them;
      an open tick resends presence at every eighth. */
  lemma CounterFollowsTicks(state: Engine, counter: int, es: seq<Event>, err: bool)
    requires ValidRun(Fresh(state, counter), es)
    ensures var n := Run(Fresh(state, counter), es);
            && (n.pump != 0 ==> n.counter == INTERVAL * n.ticks)
            && (n.pump != 0 ==> (n.counter <= INT_MAX <==> n.ticks <= 143165576))
            && (n.pump != 0 ==> n.timers > 0
                                && (Ticked(n, err).resent == n.resent + 1
                                    <==> n.state == Open && !err && n.ticks % 8 == 0))
  {
    RunKeepsInv(Fresh(state, counter), es);
  }

  /** Every tick of the run meets an open session without error. */
  ghost predicate Quiet(n: Net, es: seq<Event>)
    requires ValidRun(n, es)
    decreases |es|
  {
    es == [] || (
      && (es[0].Tick? ==> n.state == Open && !es[0].childError)
      && Quiet(Apply(n, es[0]), es[1..]))
  }

  function TicksIn(es: seq<Event>): nat {
    if es == [] then 0 else (if es[0].Tick? then 1 else 0) + TicksIn(es[1..])
  }

  /** How many of the tick numbers below `k` are multiples of eight. */
  function Eighths(k: nat): nat {
    (k + 7) / 8
  }

  lemma QuietTick(n: Net)
    requires Inv(n) && n.pump != 0 && n.state == Open
    ensures n.timers > 0 && Inv(Ticked(n, false))
    ensures var n' := Ticked(n, false);
            n'.pump == n.pump && n'.ticks == n.ticks + 1
            && n'.resent == n.resent + Eighths(n.ticks + 1) - Eighths(n.ticks)
  {
    StepKeepsInv(n, Tick(false));
    assert n.counter % PRESENCE_INTERVAL == 0 <==> n.ticks % 8 == 0;
  }

  /** Over any stretch of quiet ticks presence is resent once for each tick number
      divisible by eight; so exactly once in any eight. */
  lemma {:induction false} PresenceSchedule(n: Net, es: seq<Event>)
    requires Inv(n) && n.pump != 0 && ValidRun(n, es) && Quiet(n, es)
    ensures var n' := Run(n, es);
            && n'.ticks == n.ticks + TicksIn(es)
            && n'.resent == n.resent + Eighths(n'.ticks) - Eighths(n.ticks)
            && (TicksIn(es) == 8 ==> n'.resent == n.resent + 1)
    decreases |es|
  {
    if es != [] {
      if es[0].Tick? {
        QuietTick(n);
      } else {
        OtherStep(n, es[0]);
      }
      PresenceSchedule(Apply(n, es[0]), es[1..]);
    }
  }

  // ---------- the object ----------

  class XmppNetwork {
    var pump: nat
    var xmppState: Engine
    var tincanTask: Option<nat>
    var presenceOut: Option<nat>
    var pingTask: Option<nat>
    var onMsgCounter: int
    var timers: nat                       // messages pending for this handler in main_thread_
    var uidMap: map<string, string>       // g_uid_map
    var presenceTime: map<string, nat>
    var sent: seq<(nat, string)>
    ghost var closing: bool
    ghost var ticks: nat
    ghost var reconnected: bool
    ghost var resent: nat

    ghost function Now(): Net
      reads this
    {
      Net(pump, xmppState, tincanTask, presenceOut, pingTask, onMsgCounter, timers, closing,
          uidMap, presenceTime, sent, ticks, reconnected, resent)
    }

    constructor ()
      ensures exists state, counter :: Now() == Fresh(state, counter)
    {
      pump, tincanTask, presenceOut, pingTask, timers := 0, None, None, None, 0;
      uidMap, presenceTime, sent := map[], map[], [];
      closing, ticks, reconnected, resent := false, 0, false, 0;
      xmppState, onMsgCounter := *, *;
      new;
      assert Now() == Fresh(xmppState, onMsgCounter);
    }

    /** Clearing the handler's messages before posting one keeps a single timer. */
    method Connect() returns (ok: bool)
      modifies this
      ensures ok && Now() == Connected(old(Now()))
    {
      pump := pump + 1;
      xmppState := NotStarted;
      closing := false;
      timers := 0;
      timers := timers + 1;
      onMsgCounter := 0;
      ticks := 0;
      ok := true;
    }

    method Login(username: string, password: string, pcid: string, host: string) returns (ok: bool)
      modifies this
      ensures ok <==> old(pump) == 0 && username != "" && password != "" && pcid != "" && host != ""
      ensures Now() == if ok then Apply(old(Now()), Event.Login) else old(Now())
    {
      if pump != 0 || username == "" || password == "" || pcid == "" || host == "" {
        return false;
      }
      ok := Connect();
    }

    method OnSignOn()
      modifies this
      ensures Now() == SignedOn(old(Now()))
    {
      if pump == 0 { return; }
      presenceOut := Some(pump);
      tincanTask := Some(pump);
      pingTask := Some(pump);
    }

    method OnStateChange(state: Engine)
      modifies this
      ensures Now() == StateChanged(old(Now()), state)
    {
      xmppState := state;
      if state == Open {
        OnSignOn();
      }
    }

    /** Run by the main thread for one pending message, which it has taken out. */
    method OnMessage(childError: bool)
      requires timers > 0
      modifies this
      ensures Now() == Ticked(old(Now()), childError)
    {
      TakeMessage();
      if pump != 0 {
        CheckState(childError);
      }
      Rearm();
    }

    /** The main thread removes the message it dispatches. */
    method TakeMessage()
      requires timers > 0
      modifies this`timers
      ensures Now() == old(Now()).(timers := old(timers) - 1)
    {
      timers := timers - 1;
    }

    /** The end of every `OnMessage`. */
    method Rearm()
      modifies this`timers, this`onMsgCounter, this`ticks
      ensures Now() == old(Now()).(timers := old(timers) + 1, counter := old(onMsgCounter) + INTERVAL,
                                   ticks := old(ticks) + 1)
    {
      timers := timers + 1;
      onMsgCounter := onMsgCounter + INTERVAL;
      ticks := ticks + 1;
    }

    /** `Connect` from inside `OnMessage`. */
    method Reconnect()
      modifies this
      ensures Now() == Connected(old(Now())).(reconnected := true)
    {
      var _ := Connect();
      reconnected := true;
    }

    /** The state cases of `OnMessage`. */
    method CheckState(childError: bool)
      requires pump != 0
      modifies this
      ensures Now() == Handled(old(Now()), childError)
    {
      if xmppState == Starting || xmppState == Opening {
        closing := true;
      } else if childError && xmppState != Closed {
        closing := true;
      } else if xmppState == NotStarted {
        Reconnect();
      } else if xmppState == Closed {
        presenceOut, tincanTask, pingTask := None, None, None;
        Reconnect();
      } else if xmppState == Open && onMsgCounter % PRESENCE_INTERVAL == 0 {
        presenceOut := None;
        presenceOut := Some(pump);
        resent := resent + 1;
      }
    }

    method SendToPeer(uid: string)
      modifies this
      ensures Now() == SentTo(old(Now()), uid)
    {
      if xmppState == Open && tincanTask.Some? {
        if uid !in uidMap { return; }
        sent := sent + [(tincanTask.value, uidMap[uid])];
      }
    }

    method ProcessStart(from: string, own: string, isMessage: bool, now: nat)
      modifies this
      ensures Now() == Processed(old(Now()), from, own, isMessage, now)
    {
      if PREFIX <= Resource(from) && from != own {
        var key := GetKey(from);
        uidMap := uidMap[key := from];
        if !isMessage {
          presenceTime := presenceTime[key := now];
        }
      }
    }
  }
}
