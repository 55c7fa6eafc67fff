/** The three indices of the connection manager, as values, and the effect of the
    writes that `CreateTransport` and `DestroyTransport` make to them.  `A` is the
    type of transport pointers. */
module PeerTable {
  import opened Text

  type Uid = string

  /** `uids` is `uid_map_` seen through `peer->transport`, `transports` is
      `transport_map_` and `shorts` is `short_uid_map_`. */
  datatype Index<A> = Index(uids: map<Uid, A>, transports: map<A, Uid>, shorts: map<string, A>)

  function EmptyIndex<A>(): Index<A> {
    Index(map[], map[], map[])
  }

  /** `uid.substr(0, kShortLen * 2)` */
  function Prefix(uid: Uid): (r: string)
    ensures r <= uid && |r| == if |uid| < 16 then |uid| else 16
  {
    if |uid| <= 2 * SHORT_LEN then uid else uid[..2 * SHORT_LEN]
  }

  function StoreUid<A>(i: Index<A>, u: Uid, t: A): Index<A> {
    i.(uids := i.uids[u := t])
  }

  function StoreTransport<A>(i: Index<A>, u: Uid, t: A): Index<A> {
    i.(transports := i.transports[t := u])
  }

  /** `InsertTransportMap_w`: a colliding entry is overwritten. */
  function InsertShort<A>(i: Index<A>, key: string, t: A): Index<A> {
    i.(shorts := i.shorts[key := t])
  }

  /** `DeleteTransportMap_w`: the entry goes, whoever owns it. */
  function DeleteShort<A>(i: Index<A>, key: string): Index<A> {
    i.(shorts := i.shorts - {key})
  }

  function EraseTransport<A>(i: Index<A>, t: A): Index<A> {
    i.(transports := i.transports - {t})
  }

  function EraseUid<A>(i: Index<A>, u: Uid): Index<A> {
    i.(uids := i.uids - {u})
  }

  function Create<A>(i: Index<A>, u: Uid, t: A): Index<A> {
    InsertShort(StoreTransport(StoreUid(i, u, t), u, t), Prefix(u), t)
  }

  function Destroy<A>(i: Index<A>, u: Uid): Index<A>
    requires u in i.uids
  {
    EraseUid(EraseTransport(DeleteShort(i, Prefix(u)), i.uids[u]), u)
  }

  /** The lookups `transport_map_[t]` and `uid_map_[uid]` of a transport callback.
      `operator[]` plants a default entry on a miss: the empty uid, the null peer. */
  function CallbackLookup<A>(i: Index<A>, t: A, nil: A): Index<A> {
    var i1 := if t in i.transports then i else StoreTransport(i, "", t);
    var u := i1.transports[t];
    if u in i1.uids then i1 else StoreUid(i1, u, nil)
  }

  // ---------- histories of completed operations ----------

  datatype Op<A> = Created(uid: Uid, transport: A) | Destroyed(uid: Uid)

  function ApplyOp<A>(i: Index<A>, op: Op<A>): Index<A> {
    match op
    case Created(u, t) => Create(i, u, t)
    case Destroyed(u) => if u in i.uids then Destroy(i, u) else i
  }

  /** Only absent uids are created, with transports not in use; only present uids
      are destroyed. */
  predicate LegalOp<A>(i: Index<A>, op: Op<A>) {
    match op
    case Created(u, t) => u !in i.uids && t !in i.transports
    case Destroyed(u) => u in i.uids
  }

  ghost predicate Legal<A>(ops: seq<Op<A>>) {
    ops == [] || (Legal(ops[..|ops| - 1]) && LegalOp(Replay(ops[..|ops| - 1]), ops[|ops| - 1]))
  }

  function Replay<A>(ops: seq<Op<A>>): Index<A> {
    if ops == [] then EmptyIndex() else ApplyOp(Replay(ops[..|ops| - 1]), ops[|ops| - 1])
  }

  lemma ReplaySnoc<A>(ops: seq<Op<A>>, op: Op<A>)
    ensures Replay(ops + [op]) == ApplyOp(Replay(ops), op)
    ensures Legal(ops + [op]) <==> Legal(ops) && LegalOp(Replay(ops), op)
  {
    assert (ops + [op])[..|ops + [op]| - 1] == ops;
  }

  // ---------- what every history keeps ----------

  /** `transport_map_` is the exact inverse of `uid_map_`. */
  ghost predicate Inverse<A>(i: Index<A>) {
    && (forall u :: u in i.uids ==> i.uids[u] in i.transports && i.transports[i.uids[u]] == u)
    && (forall t :: t in i.transports ==> i.transports[t] in i.uids && i.uids[i.transports[t]] == t)
  }

  /** Every short entry is the transport of a registered uid with that prefix. */
  ghost predicate ShortsLive<A>(i: Index<A>) {
    forall k :: k in i.shorts ==> i.shorts[k] in i.transports && Prefix(i.transports[i.shorts[k]]) == k
  }

  /** Every registered uid is found under its prefix. */
  ghost predicate ShortsComplete<A>(i: Index<A>) {
    forall u :: u in i.uids ==> Prefix(u) in i.shorts && i.shorts[Prefix(u)] == i.uids[u]
  }

  lemma {:induction false} HistoryKeepsIndices<A>(ops: seq<Op<A>>)
    requires Legal(ops)
    ensures Inverse(Replay(ops)) && ShortsLive(Replay(ops))
  {
    if ops != [] {
      HistoryKeepsIndices(ops[..|ops| - 1]);
    }
  }

  // ---------- short keys ----------

  predicate Touches<A>(op: Op<A>, key: string) {
    Prefix(op.uid) == key
  }

  /** The last completed operation on a uid with this prefix. */
  function LastTouch<A>(ops: seq<Op<A>>, key: string): (last: Option<Op<A>>)
    ensures last.Some? ==> Touches(last.value, key)
  {
    if ops == [] then None
    else if Touches(ops[|ops| - 1], key) then Some(ops[|ops| - 1])
    else LastTouch(ops[..|ops| - 1], key)
  }

  /** The short index holds a key exactly when the last operation that touched it
      was a creation, and then it holds what that creation put there. */
  lemma {:induction false} ShortsFollowLastTouch<A>(ops: seq<Op<A>>, key: string)
    requires Legal(ops)
    ensures var last := LastTouch(ops, key);
            (key in Replay(ops).shorts <==> last.Some? && last.value.Created?)
            && (key in Replay(ops).shorts ==>
                  Replay(ops).shorts[key] == last.value.transport
                  && last.value.uid in Replay(ops).uids
                  && Replay(ops).uids[last.value.uid] == last.value.transport)
  {
    if ops != [] {
      var prev, op := ops[..|ops| - 1], ops[|ops| - 1];
      ShortsFollowLastTouch(prev, key);
    }
  }

  /** The short lookup and the full lookup of a destination agree: both find the
      same transport or both miss. */
  ghost predicate Agree<A>(i: Index<A>, dest: Uid) {
    && (Prefix(dest) in i.shorts <==> dest in i.uids)
    && (dest in i.uids ==> i.shorts[Prefix(dest)] == i.uids[dest])
  }

  /** Exactly when short-key routing is full-uid routing: the last operation on the
      destination's prefix, if any, either created the destination itself, or
      destroyed some uid while the destination is not registered. */
  lemma ShortRoutingExact<A>(ops: seq<Op<A>>, dest: Uid)
    requires Legal(ops)
    ensures Agree(Replay(ops), dest) <==>
            var last := LastTouch(ops, Prefix(dest));
            && (last.Some? && last.value.Created? ==> last.value.uid == dest)
            && (last.Some? && last.value.Destroyed? ==> dest !in Replay(ops).uids)
  {
    ShortsFollowLastTouch(ops, Prefix(dest));
    HistoryKeepsIndices(ops);
    if LastTouch(ops, Prefix(dest)).None? {
      UntouchedIsAbsent(ops, dest);
    }
  }

  lemma {:induction false} UntouchedIsAbsent<A>(ops: seq<Op<A>>, dest: Uid)
    requires LastTouch(ops, Prefix(dest)).None?
    ensures dest !in Replay(ops).uids
  {
    if ops != [] {
      UntouchedIsAbsent(ops[..|ops| - 1], dest);
    }
  }

  ghost predicate FreePrefix<A>(i: Index<A>, op: Op<A>) {
    op.Created? ==> forall u :: u in i.uids ==> Prefix(u) != Prefix(op.uid)
  }

  /** No creation ever met a registered uid with its own prefix. */
  ghost predicate NeverCollided<A>(ops: seq<Op<A>>) {
    ops == [] || (NeverCollided(ops[..|ops| - 1]) && FreePrefix(Replay(ops[..|ops| - 1]), ops[|ops| - 1]))
  }

  lemma CollisionSnoc<A>(ops: seq<Op<A>>, op: Op<A>)
    ensures NeverCollided(ops + [op]) <==> NeverCollided(ops) && FreePrefix(Replay(ops), op)
  {
    assert (ops + [op])[..|ops + [op]| - 1] == ops;
  }

  /** Without collisions the short index is exactly the prefix image of `uid_map_`,
      and no two registered uids share a prefix. */
  lemma {:induction false} NoCollisionMeansExact<A>(ops: seq<Op<A>>)
    requires Legal(ops) && NeverCollided(ops)
    ensures ShortsComplete(Replay(ops)) && ShortsLive(Replay(ops)) && Inverse(Replay(ops))
    ensures forall u, v :: u in Replay(ops).uids && v in Replay(ops).uids && Prefix(u) == Prefix(v) ==> u == v
  {
    HistoryKeepsIndices(ops);
    if ops != [] {
      NoCollisionMeansExact(ops[..|ops| - 1]);
    }
  }

  /** Hence, if no creation ever collided and no other registered uid shares the
      destination's prefix, the short lookup refines the full lookup. */
  lemma ShortRoutingRefines<A>(ops: seq<Op<A>>, dest: Uid)
    requires Legal(ops) && NeverCollided(ops)
    requires forall u :: u in Replay(ops).uids && Prefix(u) == Prefix(dest) ==> u == dest
    ensures Agree(Replay(ops), dest)
  {
    NoCollisionMeansExact(ops);
  }

  /** That the prefixes are distinct now is not enough: after two colliding uids
      were created and the first destroyed, the second is alone and yet the short
      lookup misses it. */
  lemma ShortRoutingFailsAfterCollision(zeros: string, a: Uid, b: Uid)
    requires |zeros| == 16 && LowerHex(zeros)
    requires a == zeros + "000000000000000000000000" && b == zeros + "000000000000000000000001"
    ensures var ops := [Created(a, 1), Created(b, 2), Destroyed(a)];
            && Legal(ops) && Replay(ops).uids == map[b := 2]
            && !Agree(Replay(ops), b)
  {
    assert a[39] != b[39];
    assert Prefix(a) == zeros && Prefix(b) == zeros;
    var o0: seq<Op<int>> := [];
    var o1, o2 := [Created(a, 1)], [Created(a, 1), Created(b, 2)];
    assert o1 == o0 + [Created(a, 1)] && o2 == o1 + [Created(b, 2)];
    ReplaySnoc(o0, Created(a, 1));
    ReplaySnoc(o1, Created(b, 2));
    ReplaySnoc(o2, Destroyed(a));
    assert o2 + [Destroyed(a)] == [Created(a, 1), Created(b, 2), Destroyed(a)];
    assert Replay(o2 + [Destroyed(a)]).uids == map[b := 2];
  }

  /** Nor is it enough that no creation ever collided: the short lookup of a uid that is
      not registered finds the transport of any registered uid with its prefix. */
  lemma ShortRoutingHitsStranger<A>(a: Uid, b: Uid, t: A)
    requires a != b && Prefix(a) == Prefix(b)
    ensures var ops := [Created(a, t)];
            && Legal(ops) && NeverCollided(ops)
            && b !in Replay(ops).uids && Replay(ops).shorts == map[Prefix(b) := t]
            && !Agree(Replay(ops), b)
  {
    var none: seq<Op<A>> := [];
    assert none + [Created(a, t)] == [Created(a, t)];
    ReplaySnoc(none, Created(a, t));
    CollisionSnoc(none, Created(a, t));
  }

  // ---------- callbacks ----------

  /** A callback plants no default entry exactly when its transport is registered,
      provided the indices are inverse to each other; else it plants the empty uid, and
      the null peer if there is none of that name, and touches no other entry. */
  lemma CallbackPlantsNothing<A>(i: Index<A>, t: A, nil: A)
    requires Inverse(i)
    ensures CallbackLookup(i, t, nil) == i <==> t in i.transports
    ensures t !in i.transports ==>
              CallbackLookup(i, t, nil) == Index(if "" in i.uids then i.uids else i.uids["" := nil],
                                                 i.transports[t := ""], i.shorts)
  {
    if t !in i.transports {
      assert t in CallbackLookup(i, t, nil).transports;
    }
  }

  // ---------- identities ----------

  /** The key computed from the first 8 of 20 identity bytes is the prefix of the
      full hexadecimal uid. */
  lemma ShortKeyIsPrefix(id: seq<Byte>)
    requires |id| == 20
    ensures HexEncode(id[..SHORT_LEN]) == Prefix(HexEncode(id))
  {
    HexEncodePrefix(id, SHORT_LEN);
  }

  /** The other way round: a uid decoded to bytes, whose first 8 are encoded again. */
  lemma UidPrefixFromBytes(uid: Uid)
    requires |uid| == ID_SIZE && LowerHex(uid)
    ensures HexDecode(uid).Some? && |HexDecode(uid).value| == 20
    ensures HexEncode(HexDecode(uid).value[..SHORT_LEN]) == Prefix(uid)
    ensures HexEncode(HexDecode(uid).value) == uid
  {
    HexPrefix(uid, SHORT_LEN);
    HexEncodeDecode(uid);
  }
}
