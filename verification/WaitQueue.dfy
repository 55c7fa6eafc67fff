/** The blocking queue of `wqueue.h`: a list under a mutex, with one condition
    variable.  `State` and `Apply` give the interleaved steps of any number of
    threads; the class below runs the critical sections on real fields and is
    proved against those steps. */
module WaitQueue {
  import opened Text

  type Tid = nat

  /** Who holds the mutex, and how far that thread has come. */
  datatype Holder<T> =
    | Free
    | Adding(tid: Tid, item: T)        // in `add`, before the push
    | Signalling(tid: Tid)             // pushed, before the signal
    | Leaving(tid: Tid)                // signalled, before the unlock
    | Checking(tid: Tid)               // in `remove`, about to test for emptiness
    | Returning(tid: Tid, item: T)     // popped, before the unlock

  /** `sleeping` threads wait on the condition variable; `woken` ones have been
      taken off it and have not popped an item yet.  `added`, `removed` and
      `returned` are histories in lock order. */
  datatype State<T> = State(
    queue: seq<T>,
    holder: Holder<T>,
    sleeping: set<Tid>,
    woken: set<Tid>,
    added: seq<T>,
    removed: seq<T>,
    returned: seq<T>)

  datatype Event<T> =
    | LockAdd(tid: Tid, item: T)
    | Push
    | Wake(chosen: set<Tid>)           // pthread_cond_signal
    | UnlockAdd
    | LockRemove(tid: Tid)             // a new caller of `remove`, possibly barging in
    | Relock(tid: Tid)                 // a woken caller gets the mutex back
    | Check
    | UnlockRemove
    | Spurious(tid: Tid)

  function Empty<T>(): State<T> {
    State([], Free, {}, {}, [], [], [])
  }

  predicate Idle<T>(s: State<T>, t: Tid) {
    s.holder.Free? && t !in s.sleeping && t !in s.woken
  }

  /** A signal wakes at least one sleeper if there is one. */
  predicate LegalWake(sleeping: set<Tid>, chosen: set<Tid>) {
    chosen <= sleeping && (sleeping != {} ==> chosen != {})
  }

  predicate Enabled<T>(s: State<T>, e: Event<T>) {
    match e
    case LockAdd(t, _) => Idle(s, t)
    case Push => s.holder.Adding?
    case Wake(chosen) => s.holder.Signalling? && LegalWake(s.sleeping, chosen)
    case UnlockAdd => s.holder.Leaving?
    case LockRemove(t) => Idle(s, t)
    case Relock(t) => s.holder.Free? && t in s.woken
    case Check => s.holder.Checking?
    case UnlockRemove => s.holder.Returning?
    case Spurious(t) => t in s.sleeping
  }

  function Apply<T>(s: State<T>, e: Event<T>): State<T>
    requires Enabled(s, e)
  {
    match e
    case LockAdd(t, x) => s.(holder := Adding(t, x))
    case Push =>
      s.(queue := s.queue + [s.holder.item], added := s.added + [s.holder.item], holder := Signalling(s.holder.tid))
    case Wake(chosen) =>
      s.(sleeping := s.sleeping - chosen, woken := s.woken + chosen, holder := Leaving(s.holder.tid))
    case UnlockAdd => s.(holder := Free)
    case LockRemove(t) => s.(holder := Checking(t))
    case Relock(t) => s.(holder := Checking(t))
    case Check =>
      var t := s.holder.tid;
      if s.queue == [] then
        s.(holder := Free, sleeping := s.sleeping + {t}, woken := s.woken - {t})
      else
        s.(queue := s.queue[1..], removed := s.removed + [s.queue[0]],
           holder := Returning(t, s.queue[0]), woken := s.woken - {t})
    case UnlockRemove => s.(holder := Free, returned := s.returned + [s.holder.item])
    case Spurious(t) => s.(sleeping := s.sleeping - {t}, woken := s.woken + {t})
  }

  ghost predicate ValidRun<T>(s: State<T>, es: seq<Event<T>>)
    decreases |es|
  {
    es == [] || (Enabled(s, es[0]) && ValidRun(Apply(s, es[0]), es[1..]))
  }

  ghost function Run<T>(s: State<T>, es: seq<Event<T>>): State<T>
    requires ValidRun(s, es)
    decreases |es|
  {
    if es == [] then s else Run(Apply(s, es[0]), es[1..])
  }

  // ---------- what every run keeps ----------

  function InHand<T>(h: Holder<T>): seq<T> {
    if h.Returning? then [h.item] else []
  }

  /** Items leave in the order in which they came, and the rest is the queue. */
  ghost predicate Fifo<T>(s: State<T>) {
    && s.added == s.removed + s.queue
    && s.removed == s.returned + InHand(s.holder)
  }

  /** While anyone sleeps, the queue holds no more items than there are woken
      callers on their way to it (one more between a push and its signal). */
  ghost predicate NoLostWakeup<T>(s: State<T>) {
    s.sleeping != {} ==> |s.queue| <= |s.woken| + (if s.holder.Signalling? then 1 else 0)
  }

  ghost predicate Threads<T>(s: State<T>) {
    && s.sleeping !! s.woken
    && (!s.holder.Free? ==> s.holder.tid !in s.sleeping)
    && (s.holder.Adding? || s.holder.Signalling? || s.holder.Leaving? || s.holder.Returning? ==>
          s.holder.tid !in s.woken)
  }

  ghost predicate Inv<T>(s: State<T>) {
    Fifo(s) && NoLostWakeup(s) && Threads(s)
  }

  lemma StepKeepsFifo<T>(s: State<T>, e: Event<T>)
    requires Fifo(s) && Enabled(s, e)
    ensures Fifo(Apply(s, e))
  {
    if e.Check? && s.queue != [] {
      assert s.queue == [s.queue[0]] + s.queue[1..];
    }
  }

  lemma CardUnion(a: set<Tid>, b: set<Tid>)
    requires a !! b
    ensures |a + b| == |a| + |b|
  {
  }

  lemma StepKeepsWakeups<T>(s: State<T>, e: Event<T>)
    requires NoLostWakeup(s) && Threads(s) && Enabled(s, e)
    ensures NoLostWakeup(Apply(s, e)) && Threads(Apply(s, e))
  {
    match e
    case Wake(chosen) =>
      CardUnion(s.woken, chosen);
      if s.sleeping != {} {
        var t :| t in chosen;
        assert |chosen| == |chosen - {t}| + 1;
      }
    case Check =>
      var t := s.holder.tid;
      if t in s.woken {
        assert |s.woken - {t}| == |s.woken| - 1;
      } else {
        assert s.woken - {t} == s.woken;
      }
    case Spurious(t) =>
      CardUnion(s.woken, {t});
    case _ =>
  }

  lemma {:induction false} RunKeepsInv<T>(s: State<T>, es: seq<Event<T>>)
    requires Inv(s) && ValidRun(s, es)
    ensures Inv(Run(s, es))
    decreases |es|
  {
    if es != [] {
      StepKeepsFifo(s, es[0]);
      StepKeepsWakeups(s, es[0]);
      RunKeepsInv(Apply(s, es[0]), es[1..]);
    }
  }

  /** The queue is a linearizable FIFO: in lock order, what was removed is a prefix
      of what was added and the rest is exactly the queue; callers get back what
      was removed, in that order. */
  lemma FifoInEveryRun<T>(es: seq<Event<T>>)
    requires ValidRun(Empty<T>(), es)
    ensures var s := Run(Empty<T>(), es);
            && s.removed <= s.added && s.queue == s.added[|s.removed|..]
            && s.returned <= s.removed
            && (s.holder.Free? ==> s.returned == s.removed)
  {
    RunKeepsInv(Empty<T>(), es);
  }

  /** No wakeup is lost: in every run, whenever the mutex is free and someone
      sleeps, each queued item has a woken caller coming for it. */
  lemma NoLostWakeupInEveryRun<T>(es: seq<Event<T>>)
    requires ValidRun(Empty<T>(), es)
    ensures var s := Run(Empty<T>(), es);
            s.holder.Free? && s.sleeping != {} ==> |s.queue| <= |s.woken|
  {
    RunKeepsInv(Empty<T>(), es);
  }

  /** Nobody sleeps beside a non-empty queue without help coming: then some thread
      that is not asleep has an enabled step of its own. */
  lemma SleepersAreNeverStranded<T>(es: seq<Event<T>>) returns (e: Event<T>)
    requires ValidRun(Empty<T>(), es)
    requires Run(Empty<T>(), es).sleeping != {} && Run(Empty<T>(), es).queue != []
    ensures Enabled(Run(Empty<T>(), es), e)
    ensures !e.Spurious? && !e.LockAdd? && !e.LockRemove?
  {
    var s := Run(Empty<T>(), es);
    RunKeepsInv(Empty<T>(), es);
    match s.holder
    case Free =>
      assert s.woken != {};
      var t :| t in s.woken;
      e := Relock(t);
    case Adding(_, _) => e := Push;
    case Signalling(_) => e := Wake(s.sleeping);
    case Leaving(_) => e := UnlockAdd;
    case Checking(_) => e := Check;
    case Returning(_, _) => e := UnlockRemove;
  }

  /** A sleeper may wake for no reason at any time; beside an empty queue it then goes back
      to sleep, and nothing has changed. */
  lemma SpuriousWakeupSleepsAgain<T>(es: seq<Event<T>>, t: Tid)
    requires ValidRun(Empty<T>(), es)
    requires var s := Run(Empty<T>(), es); t in s.sleeping && s.holder.Free? && s.queue == []
    ensures var s, again := Run(Empty<T>(), es), [Spurious(t), Relock(t), Check];
            ValidRun(s, again) && Run(s, again) == s
  {
    var s := Run(Empty<T>(), es);
    RunKeepsInv(Empty<T>(), es);
    var s1 := Apply(s, Spurious(t));
    var s2 := Apply(s1, Relock(t));
    assert s1.woken - {t} == s.woken && s1.sleeping + {t} == s.sleeping;
    RunThree(s, Spurious(t), Relock(t), Check);
  }

  // ---------- the object ----------

  /** The `wqueue` object.  A thread runs each method as one critical section. */
  class WorkQueue<T> {
    var items: seq<T>
    var sleeping: set<Tid>
    var woken: set<Tid>
    ghost var added: seq<T>
    ghost var removed: seq<T>

    ghost function Now(): State<T>
      reads this
    {
      State(items, Free, sleeping, woken, added, removed, removed)
    }

    constructor ()
      ensures Now() == Empty()
    {
      items, sleeping, woken := [], {}, {};
      added, removed := [], [];
    }

    /** `add`, run by thread `t`; `chosen` are the sleepers its signal wakes. */
    method Add(t: Tid, item: T, chosen: set<Tid>)
      requires Idle(Now(), t) && LegalWake(sleeping, chosen)
      modifies this
      ensures items == old(items) + [item]
      ensures ValidRun(old(Now()), [LockAdd(t, item), Push, Wake(chosen), UnlockAdd])
      ensures Now() == Run(old(Now()), [LockAdd(t, item), Push, Wake(chosen), UnlockAdd])
    {
      ghost var s0 := Now();
      items := items + [item];
      added := added + [item];
      sleeping, woken := sleeping - chosen, woken + chosen;
      RunFour(s0, LockAdd(t, item), Push, Wake(chosen), UnlockAdd);
    }

    /** One pass of `remove` by thread `t`, from getting the mutex to giving it up:
        the front item, or `None` when the pass ends in `pthread_cond_wait`. */
    method Remove(t: Tid) returns (r: Option<T>)
      requires t !in sleeping
      modifies this
      ensures r.None? <==> old(items) == []
      ensures r.Some? ==> [r.value] + items == old(items) && t !in sleeping
      ensures r.None? ==> items == [] && t in sleeping
      ensures var take := if t in old(woken) then Relock(t) else LockRemove(t);
              var es := if r.Some? then [take, Check, UnlockRemove] else [take, Check];
              ValidRun(old(Now()), es) && Now() == Run(old(Now()), es)
    {
      ghost var s0 := Now();
      ghost var take := if t in woken then Relock(t) else LockRemove(t);
      woken := woken - {t};
      if items == [] {
        sleeping := sleeping + {t};
        r := None;
        RunTwo(s0, take, Check);
      } else {
        r := Some(items[0]);
        removed := removed + [items[0]];
        items := items[1..];
        RunThree(s0, take, Check, UnlockRemove);
      }
    }
  }

  lemma RunTwo<T>(s: State<T>, a: Event<T>, b: Event<T>)
    requires Enabled(s, a) && Enabled(Apply(s, a), b)
    ensures ValidRun(s, [a, b]) && Run(s, [a, b]) == Apply(Apply(s, a), b)
  {
    var s1 := Apply(s, a);
    assert [a, b][1..] == [b] && [b][1..] == [];
    assert ValidRun(s1, [b]) && Run(s1, [b]) == Apply(s1, b) by {
      assert ValidRun(Apply(s1, b), []);
    }
  }

  lemma RunThree<T>(s: State<T>, a: Event<T>, b: Event<T>, c: Event<T>)
    requires Enabled(s, a) && Enabled(Apply(s, a), b) && Enabled(Apply(Apply(s, a), b), c)
    ensures ValidRun(s, [a, b, c]) && Run(s, [a, b, c]) == Apply(Apply(Apply(s, a), b), c)
  {
    assert [a, b, c][1..] == [b, c];
    RunTwo(Apply(s, a), b, c);
  }

  lemma RunFour<T>(s: State<T>, a: Event<T>, b: Event<T>, c: Event<T>, d: Event<T>)
    requires Enabled(s, a) && Enabled(Apply(s, a), b) && Enabled(Apply(Apply(s, a), b), c)
    requires Enabled(Apply(Apply(Apply(s, a), b), c), d)
    ensures ValidRun(s, [a, b, c, d]) && Run(s, [a, b, c, d]) == Apply(Apply(Apply(Apply(s, a), b), c), d)
  {
    assert [a, b, c, d][1..] == [b, c, d];
    RunThree(Apply(s, a), b, c, d);
  }
}
