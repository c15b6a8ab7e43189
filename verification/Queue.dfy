/** The blocking queue of src/common/queue.h as a machine whose steps are its critical sections:
    what one thread does between taking the mutex and giving it back, by returning or by going to
    sleep on a condition variable. Threads interleave freely, and may wake up spuriously. */
module BlockingQueue {
  type Tid = nat

  /** `pushers` are the threads inside the wait loop of push, with the value each one carries, and
      `asleepOnFull` those of them not yet woken; `poppers` and `asleepOnEmpty` likewise for pop.
      `pushed` and `popped` record every insertion and removal since the queue was made. */
  datatype State<T> = State(
    maxSize: nat, q: seq<T>, closed: bool,
    pushers: map<Tid, T>, asleepOnFull: set<Tid>,
    poppers: set<Tid>, asleepOnEmpty: set<Tid>,
    pushed: seq<T>, popped: seq<T>)
  {
    predicate Full() { |q| == maxSize }
  }

  datatype Event<T> =
    | TryPush(v: T) | TryPop
    | Push(t: Tid, v: T) | PushWakes(t: Tid)
    | Pop(t: Tid) | PopWakes(t: Tid)
    | Spurious(t: Tid)
    | Close

  datatype Outcome<T> = Done | Refused | Got(v: T) | RaisedClosed | RaisedAlreadyClosed | Sleeps | Silent

  function Initial<T>(maxSize: nat): State<T> {
    State(maxSize, [], false, map[], {}, {}, {}, [], [])
  }

  /** A thread calls one method at a time and comes out of a wait only after it was woken. */
  ghost predicate Enabled<T>(s: State<T>, e: Event<T>) {
    match e
    case Push(t, _) => t !in s.pushers && t !in s.poppers
    case Pop(t) => t !in s.pushers && t !in s.poppers
    case PushWakes(t) => t in s.pushers && t !in s.asleepOnFull
    case PopWakes(t) => t in s.poppers && t !in s.asleepOnEmpty
    case _ => true
  }

  function Insert<T>(s: State<T>, v: T): State<T> {
    s.(asleepOnEmpty := if s.q == [] then {} else s.asleepOnEmpty,
       q := s.q + [v],
       pushed := s.pushed + [v])
  }

  function Remove<T>(s: State<T>): State<T>
    requires s.q != []
  {
    s.(asleepOnFull := if s.Full() then {} else s.asleepOnFull,
       q := s.q[1..],
       popped := s.popped + [s.q[0]])
  }

  function Next<T>(s: State<T>, e: Event<T>): (r: (State<T>, Outcome<T>))
    requires Enabled(s, e)
  {
    match e
    case TryPush(v) =>
      if s.closed then (s, RaisedClosed)
      else if s.Full() then (s, Refused)
      else (Insert(s, v), Done)
    case TryPop =>
      if s.q == [] then (s, if s.closed then RaisedClosed else Refused)
      else (Remove(s), Got(s.q[0]))
    case Push(t, v) =>
      if s.closed then (s, RaisedClosed)
      else if s.Full() then (s.(pushers := s.pushers[t := v], asleepOnFull := s.asleepOnFull + {t}), Sleeps)
      else (Insert(s, v), Done)
    case PushWakes(t) =>
      if s.Full() then (s.(asleepOnFull := s.asleepOnFull + {t}), Sleeps)
      else (Insert(s, s.pushers[t]).(pushers := s.pushers - {t}), Done)
    case Pop(t) =>
      if s.q == [] && s.closed then (s, RaisedClosed)
      else if s.q == [] then (s.(poppers := s.poppers + {t}, asleepOnEmpty := s.asleepOnEmpty + {t}), Sleeps)
      else (Remove(s), Got(s.q[0]))
    case PopWakes(t) =>
      if s.q == [] && s.closed then (s.(poppers := s.poppers - {t}), RaisedClosed)
      else if s.q == [] then (s.(asleepOnEmpty := s.asleepOnEmpty + {t}), Sleeps)
      else (Remove(s).(poppers := s.poppers - {t}), Got(s.q[0]))
    case Spurious(t) =>
      (s.(asleepOnFull := s.asleepOnFull - {t}, asleepOnEmpty := s.asleepOnEmpty - {t}), Silent)
    case Close =>
      if s.closed then (s, RaisedAlreadyClosed) else (s.(closed := true, asleepOnEmpty := {}), Done)
  }

  /** The queue proper: every method body is one critical section of queue.h, with the
      condition variables' wait sets and the history of insertions kept beside the container. */
  class Queue<T> {
    var q: seq<T>
    const maxSize: nat
    var closed: bool
    var pushers: map<Tid, T>
    var asleepOnFull: set<Tid>
    var poppers: set<Tid>
    var asleepOnEmpty: set<Tid>
    ghost var pushed: seq<T>
    ghost var popped: seq<T>

    ghost function Model(): State<T>
      reads this
    {
      State(maxSize, q, closed, pushers, asleepOnFull, poppers, asleepOnEmpty, pushed, popped)
    }

    constructor (maxSize: nat)
      ensures Model() == Initial(maxSize)
    {
      this.maxSize := maxSize;
      q, closed := [], false;
      pushers, asleepOnFull, poppers, asleepOnEmpty := map[], {}, {}, {};
      pushed, popped := [], [];
    }

    method TryPush(v: T) returns (r: Outcome<T>)
      modifies this
      ensures (Model(), r) == Next(old(Model()), Event.TryPush(v))
    {
      if closed { return RaisedClosed; }
      if |q| == maxSize { return Refused; }
      if q == [] { asleepOnEmpty := {}; }
      q := q + [v];
      pushed := pushed + [v];
      r := Done;
    }

    method TryPop() returns (r: Outcome<T>)
      modifies this
      ensures (Model(), r) == Next(old(Model()), Event.TryPop)
    {
      if q == [] {
        if closed { return RaisedClosed; }
        return Refused;
      }
      r := TakeFront();
    }

    method TakeFront() returns (r: Outcome<T>)
      requires q != []
      modifies this
      ensures Model() == Remove(old(Model())) && r == Got(old(q)[0])
    {
      if |q| == maxSize { asleepOnFull := {}; }
      r := Got(q[0]);
      popped := popped + [q[0]];
      q := q[1..];
    }

    /** push, from the call to its return or its first sleep. */
    method Push(t: Tid, v: T) returns (r: Outcome<T>)
      requires Enabled(Model(), Event.Push(t, v))
      modifies this
      ensures (Model(), r) == Next(old(Model()), Event.Push(t, v))
    {
      if closed { return RaisedClosed; }
      if |q| == maxSize {
        pushers, asleepOnFull := pushers[t := v], asleepOnFull + {t};
        return Sleeps;
      }
      if q == [] { asleepOnEmpty := {}; }
      q := q + [v];
      pushed := pushed + [v];
      r := Done;
    }

    /** push, from a wake-up to its return or its next sleep. */
    method PushWakes(t: Tid) returns (r: Outcome<T>)
      requires Enabled(Model(), Event.PushWakes(t))
      modifies this
      ensures (Model(), r) == Next(old(Model()), Event.PushWakes(t))
    {
      if |q| == maxSize {
        asleepOnFull := asleepOnFull + {t};
        return Sleeps;
      }
      if q == [] { asleepOnEmpty := {}; }
      var v := pushers[t];
      q := q + [v];
      pushed := pushed + [v];
      pushers := pushers - {t};
      r := Done;
    }

    /** pop, from the call to its return or its first sleep. */
    method Pop(t: Tid) returns (r: Outcome<T>)
      requires Enabled(Model(), Event.Pop(t))
      modifies this
      ensures (Model(), r) == Next(old(Model()), Event.Pop(t))
    {
      if q == [] {
        if closed { return RaisedClosed; }
        poppers, asleepOnEmpty := poppers + {t}, asleepOnEmpty + {t};
        return Sleeps;
      }
      r := TakeFront();
    }

    /** pop, from a wake-up to its return or its next sleep. */
    method PopWakes(t: Tid) returns (r: Outcome<T>)
      requires Enabled(Model(), Event.PopWakes(t))
      modifies this
      ensures (Model(), r) == Next(old(Model()), Event.PopWakes(t))
    {
      if q == [] {
        if closed {
          poppers := poppers - {t};
          return RaisedClosed;
        }
        asleepOnEmpty := asleepOnEmpty + {t};
        return Sleeps;
      }
      r := TakeFront();
      poppers := poppers - {t};
    }

    method Close() returns (r: Outcome<T>)
      modifies this
      ensures (Model(), r) == Next(old(Model()), Event.Close)
    {
      if closed { return RaisedAlreadyClosed; }
      closed := true;
      asleepOnEmpty := {};
      r := Done;
    }
  }

  /** An interleaving: the events one after the other, each enabled when it happens. */
  ghost predicate Possible<T>(s: State<T>, es: seq<Event<T>>)
    decreases |es|
  {
    es != [] ==> Enabled(s, es[0]) && Possible(Next(s, es[0]).0, es[1..])
  }

  ghost function Run<T>(s: State<T>, es: seq<Event<T>>): State<T>
    requires Possible(s, es)
    decreases |es|
  {
    if es == [] then s else Run(Next(s, es[0]).0, es[1..])
  }

  /** A thread is asleep on a condition only while that condition is false, so no wake-up was
      lost; and the contents are what was inserted and not yet removed, in order. */
  ghost predicate Inv<T>(s: State<T>) {
    && s.asleepOnFull <= s.pushers.Keys
    && s.asleepOnEmpty <= s.poppers
    && s.pushers.Keys !! s.poppers
    && (s.asleepOnEmpty != {} ==> s.q == [] && !s.closed)
    && (s.asleepOnFull != {} ==> s.Full())
    && |s.q| <= s.maxSize
    && s.popped + s.q == s.pushed
  }

  lemma StepKeepsInv<T>(s: State<T>, e: Event<T>)
    requires Inv(s) && Enabled(s, e)
    ensures Inv(Next(s, e).0)
  {
    var s' := Next(s, e).0;
    if |s'.popped| > |s.popped| {
      assert s.q == [s.q[0]] + s.q[1..];
    } else if |s'.pushed| > |s.pushed| {
      assert s'.popped + s'.q == (s.popped + s.q) + [s'.q[|s.q|]];
    }
  }

  lemma {:induction false} RunKeepsInv<T>(s: State<T>, es: seq<Event<T>>)
    requires Inv(s) && Possible(s, es)
    ensures Inv(Run(s, es))
    decreases |es|
  {
    if es != [] {
      StepKeepsInv(s, es[0]);
      RunKeepsInv(Next(s, es[0]).0, es[1..]);
    }
  }

  /** In every interleaving from an empty queue: no wake-up is lost, removals follow insertions in
      order without loss, the bound holds, and with room for at least one value producers and
      consumers are never all asleep against each other. */
  lemma EveryInterleaving<T>(maxSize: nat, es: seq<Event<T>>)
    requires Possible(Initial<T>(maxSize), es)
    ensures var s := Run(Initial<T>(maxSize), es);
            && (forall t <- s.asleepOnEmpty :: s.q == [] && !s.closed)
            && (forall t <- s.asleepOnFull :: |s.q| == s.maxSize)
            && s.popped + s.q == s.pushed
            && |s.q| <= maxSize
            && (maxSize > 0 ==> s.asleepOnEmpty == {} || s.asleepOnFull == {})
  {
    RunKeepsInv(Initial<T>(maxSize), es);
    KeepsMaxSize(Initial<T>(maxSize), es);
  }

  lemma {:induction false} KeepsMaxSize<T>(s: State<T>, es: seq<Event<T>>)
    requires Possible(s, es)
    ensures Run(s, es).maxSize == s.maxSize
    decreases |es|
  {
    if es != [] { KeepsMaxSize(Next(s, es[0]).0, es[1..]); }
  }

  /** The header promises that any method raises ClosedQueue on a closed queue. A step raises it exactly if the
      queue is closed and it is a new try_push or push, or a removal that finds the queue empty: what is left
      can still be taken out, and a pusher already inside the wait loop does not look at `closed`. */
  lemma RaisesClosedIff<T>(s: State<T>, e: Event<T>)
    requires Enabled(s, e)
    ensures Next(s, e).1 == RaisedClosed <==>
            s.closed && (e.TryPush? || e.Push? || ((e.TryPop? || e.Pop? || e.PopWakes?) && s.q == []))
  {}

  /** The values the given threads carry, in that order. */
  ghost function Carried<T>(m: map<Tid, T>, ts: seq<Tid>): seq<T>
    requires forall t <- ts :: t in m
  {
    seq(|ts|, i requires 0 <= i < |ts| => m[ts[i]])
  }

  /** After close, only the pushers that were already waiting can insert, each at most once and
      the value it came with: `served` lists them in the order in which they got in. */
  lemma {:induction false} AfterCloseOnlyBlockedPushersInsert<T>(s: State<T>, es: seq<Event<T>>)
    returns (served: seq<Tid>)
    requires s.closed && Possible(s, es)
    ensures Run(s, es).closed
    ensures forall t <- served :: t in s.pushers
    ensures forall i, j :: 0 <= i < j < |served| ==> served[i] != served[j]
    ensures Run(s, es).pushers == s.pushers - (set t <- served)
    ensures Run(s, es).pushed == s.pushed + Carried(s.pushers, served)
    decreases |es|
  {
    if es == [] {
      served := [];
      assert Run(s, es).pushers == s.pushers - (set t <- served);
    } else {
      var s1 := Next(s, es[0]).0;
      var rest := AfterCloseOnlyBlockedPushersInsert(s1, es[1..]);
      if es[0].PushWakes? && !s.Full() {
        var t := es[0].t;
        served := [t] + rest;
        var values := Carried(s1.pushers, rest);
        assert forall x <- served :: x in s.pushers;
        assert Carried(s.pushers, served) == [s.pushers[t]] + values;
        assert (set x <- served) == {t} + (set x <- rest);
        assert s.pushed + ([s.pushers[t]] + values) == (s.pushed + [s.pushers[t]]) + values;
      } else {
        assert s1.pushers == s.pushers && s1.pushed == s.pushed;
        served := rest;
      }
    }
  }

  /** close() does not notify is_not_full: a pusher asleep at that moment stays asleep until some
      value is taken out, for as long as the run lasts. */
  lemma {:induction false} BlockedPusherNeedsAPop<T>(s: State<T>, es: seq<Event<T>>, t: Tid)
    requires Inv(s) && Possible(s, es) && t in s.asleepOnFull
    requires Spurious(t) !in es
    ensures t in Run(s, es).asleepOnFull || |Run(s, es).popped| > |s.popped|
    decreases |es|
  {
    if es != [] {
      var s1 := Next(s, es[0]).0;
      StepKeepsInv(s, es[0]);
      RemovalsGrow(s1, es[1..]);
      if t in s1.asleepOnFull { BlockedPusherNeedsAPop(s1, es[1..], t); }
    }
  }

  lemma {:induction false} RemovalsGrow<T>(s: State<T>, es: seq<Event<T>>)
    requires Possible(s, es)
    ensures |Run(s, es).popped| >= |s.popped|
    decreases |es|
  {
    if es != [] { RemovalsGrow(Next(s, es[0]).0, es[1..]); }
  }

  /** A removal from a full queue wakes every sleeping pusher, and an insertion into an empty
      queue, or its closing, every sleeping popper. */
  lemma WakeUps<T>(s: State<T>, e: Event<T>)
    requires Inv(s) && Enabled(s, e)
    ensures |Next(s, e).0.popped| > |s.popped| ==> Next(s, e).0.asleepOnFull == {}
    ensures |Next(s, e).0.pushed| > |s.pushed| ==> Next(s, e).0.asleepOnEmpty == {}
    ensures e == Close ==> Next(s, e).0.asleepOnEmpty == {}
  {}

  // ---- What the callers see

  /** The calls and wake-ups of an interleaving with their answers. */
  ghost function Log<T>(s: State<T>, es: seq<Event<T>>): seq<(Event<T>, Outcome<T>)>
    requires Possible(s, es)
    decreases |es|
  {
    if es == [] then [] else [(es[0], Next(s, es[0]).1)] + Log(Next(s, es[0]).0, es[1..])
  }

  /** The values that the callers were handed, in that order. */
  function Took<T>(log: seq<(Event<T>, Outcome<T>)>): seq<T> {
    if log == [] then [] else (if log[0].1.Got? then [log[0].1.v] else []) + Took(log[1..])
  }

  /** The value with which each thread last called push. */
  function Calls<T>(e: Event<T>, last: map<Tid, T>): map<Tid, T> { if e.Push? then last[e.t := e.v] else last }

  /** The values whose pushes were done, at once or after a wait, in the order in which they were. */
  function Put<T>(log: seq<(Event<T>, Outcome<T>)>, last: map<Tid, T>): seq<T> {
    if log == [] then []
    else
      var (e, r) := log[0];
      (match e
       case TryPush(v) => if r == Done then [v] else []
       case Push(_, v) => if r == Done then [v] else []
       case PushWakes(t) => if r == Done && t in last then [last[t]] else []
       case _ => [])
      + Put(log[1..], Calls(e, last))
  }

  /** The threads in the wait loop of push carry what they called it with. */
  ghost predicate Remembers<T>(last: map<Tid, T>, s: State<T>) {
    forall t <- s.pushers :: t in last && last[t] == s.pushers[t]
  }

  lemma StepIsSeen<T>(s: State<T>, e: Event<T>, last: map<Tid, T>)
    requires Enabled(s, e) && Remembers(last, s)
    ensures var (s', r) := Next(s, e);
            && Remembers(Calls(e, last), s')
            && s.q + Put([(e, r)], last) == Took([(e, r)]) + s'.q
  {
    var (s', r) := Next(s, e);
    assert [(e, r)][1..] == [];
    if r.Got? { assert s.q == [s.q[0]] + s.q[1..]; }
  }

  lemma LogSplits<T>(e: Event<T>, r: Outcome<T>, rest: seq<(Event<T>, Outcome<T>)>, last: map<Tid, T>)
    ensures Took([(e, r)] + rest) == Took([(e, r)]) + Took(rest)
    ensures Put([(e, r)] + rest, last) == Put([(e, r)], last) + Put(rest, Calls(e, last))
  {
    assert ([(e, r)] + rest)[1..] == rest && [(e, r)][1..] == [];
  }

  lemma {:induction false} WhatIsTakenWasPut<T>(s: State<T>, es: seq<Event<T>>, last: map<Tid, T>)
    requires Possible(s, es) && Remembers(last, s)
    ensures s.q + Put(Log(s, es), last) == Took(Log(s, es)) + Run(s, es).q
    decreases |es|
  {
    if es != [] {
      var e, s1, r := es[0], Next(s, es[0]).0, Next(s, es[0]).1;
      var rest := Log(s1, es[1..]);
      StepIsSeen(s, e, last);
      WhatIsTakenWasPut(s1, es[1..], Calls(e, last));
      LogSplits(e, r, rest, last);
      Rebracket(s.q, Put([(e, r)], last), Put(rest, Calls(e, last)), Took([(e, r)]), s1.q, Took(rest), Run(s, es).q);
    }
  }

  lemma Rebracket<T>(q: seq<T>, put: seq<T>, puts: seq<T>, took: seq<T>, q1: seq<T>, tooks: seq<T>, q2: seq<T>)
    requires q + put == took + q1 && q1 + puts == tooks + q2
    ensures q + (put + puts) == (took + tooks) + q2
  {
    assert q + (put + puts) == (q + put) + puts == took + (q1 + puts) == took + (tooks + q2);
  }

  lemma {:induction false} ClosedIff<T>(s: State<T>, es: seq<Event<T>>)
    requires Possible(s, es)
    ensures Run(s, es).closed <==> s.closed || Close in es
    decreases |es|
  {
    if es != [] {
      ClosedIff(Next(s, es[0]).0, es[1..]);
      assert es == [es[0]] + es[1..];
    }
  }

  /** First in, first out, as the callers see it: in every interleaving the values handed out, followed by what the
      queue holds, are the values whose pushes were done. */
  lemma FirstInFirstOut<T>(maxSize: nat, es: seq<Event<T>>)
    requires Possible(Initial<T>(maxSize), es)
    ensures var s := Initial<T>(maxSize); Took(Log(s, es)) + Run(s, es).q == Put(Log(s, es), map[])
  {
    var s := Initial<T>(maxSize);
    WhatIsTakenWasPut(s, es, map[]);
    assert s.q + Put(Log(s, es), map[]) == Put(Log(s, es), map[]);
  }

  predicate Inserts<T>(e: Event<T>) { e.TryPush? || e.Push? || e.PushWakes? }
  predicate Removes<T>(e: Event<T>) { e.TryPop? || e.Pop? || e.PopWakes? }

  /** What a removal answers when `put` was put in, `took` handed out, and the queue closed or not. */
  predicate RemovalAnswers<T(==)>(e: Event<T>, put: seq<T>, took: seq<T>, closed: bool, r: Outcome<T>) {
    if |took| < |put| then r == Got(put[|took|])
    else if closed then r == RaisedClosed
    else if e.TryPop? then r == Refused
    else r == Sleeps
  }

  /** A pusher that is in the wait loop does not look whether the queue is closed. */
  predicate InsertionAnswers<T(==)>(e: Event<T>, room: bool, closed: bool, r: Outcome<T>) {
    if closed && !e.PushWakes? then r == RaisedClosed
    else if room then r == Done
    else if e.TryPush? then r == Refused
    else r == Sleeps
  }

  /** Every answer follows from the answers before it. */
  lemma AnswersFollow<T>(maxSize: nat, es: seq<Event<T>>, e: Event<T>)
    requires Possible(Initial<T>(maxSize), es) && Enabled(Run(Initial<T>(maxSize), es), e)
    ensures var s := Initial<T>(maxSize);
            var put, took, r := Put(Log(s, es), map[]), Took(Log(s, es)), Next(Run(s, es), e).1;
            && |took| <= |put| <= |took| + maxSize && put[..|took|] == took
            && (Removes(e) ==> RemovalAnswers(e, put, took, Close in es, r))
            && (Inserts(e) ==> InsertionAnswers(e, |put| < |took| + maxSize, Close in es, r))
  {
    var s := Initial<T>(maxSize);
    FirstInFirstOut(maxSize, es);
    ClosedIff(s, es);
    EveryInterleaving(maxSize, es);
    KeepsMaxSize(s, es);
    var put, took, s' := Put(Log(s, es), map[]), Took(Log(s, es)), Run(s, es);
    assert put[|took|..] == s'.q;
  }
}
