/** Dispatch over whole runs: who is tried for each event, what every channel holds,
    and in which order (internal/broker/broker.go:208-226, internal/broker/subscriber.go:35, 73-83). */
module BrokerDispatch {
  import opened Events
  import opened Topics
  import opened ReceiverLists
  import opened BrokerMachine
  import opened BrokerLocks

  // ----- dispatch exactness -----

  /** The attempts of an entry went to a prefix of the list it found, in order. */
  ghost predicate TriedPrefix(en: Entry) {
    en.Handled? ==>
      && |en.attempts| <= |en.snapshot|
      && forall j :: 0 <= j < |en.attempts| ==> en.attempts[j].c == en.snapshot[j]
  }

  ghost predicate TriedAll(en: Entry) {
    en.Handled? ==> TriedPrefix(en) && |en.attempts| == |en.snapshot|
  }

  /** The send loop works on the newest entry, and the list it ranges over is the
      one it found when it took the read lock. */
  ghost predicate Serving(s: State, th: Thread)
    requires th.MsgSending?
  {
    && s.log != []
    && var en := s.log[|s.log| - 1];
       en.Handled? && en.e == th.e && en.snapshot == List(s, Key(th.e)) && |en.attempts| == th.i
  }

  ghost predicate DispatchInv(s: State) {
    && (forall t :: t in s.threads && s.threads[t].MsgSending? ==> Serving(s, s.threads[t]))
    && (forall k :: 0 <= k < |s.log| ==> TriedPrefix(s.log[k]))
    && (forall k :: 0 <= k < |s.log| - 1 ==> TriedAll(s.log[k]))
    && (s.log == [] || TriedAll(s.log[|s.log| - 1]) || exists t :: t in s.threads && s.threads[t].MsgSending?)
  }

  lemma {:induction false} RecordShape(log: seq<Entry>, a: Attempt)
    requires log != [] && log[|log| - 1].Handled?
    ensures |Record(log, a)| == |log|
    ensures forall k :: 0 <= k < |log| - 1 ==> Record(log, a)[k] == log[k]
    ensures Record(log, a)[|log| - 1] == log[|log| - 1].(attempts := log[|log| - 1].attempts + [a])
  {
  }

  lemma {:induction false} DispatchLock(s: State, st: Step)
    requires LockInv(s) && DispatchInv(s) && Enabled(s, st) && st.MsgLock?
    ensures DispatchInv(Next(s, st))
  {
    var n := Next(s, st);
    assert IsMsg(s.threads[st.t]);
    assert st.t in n.threads && n.threads[st.t].MsgSending?;
    forall t | t in n.threads && n.threads[t].MsgSending?
      ensures t == st.t
    {
      if t != st.t { assert IsMsg(s.threads[t]); }
    }
  }

  /** What one attempt changes: the newest entry, and the position of its thread. */
  lemma {:induction false} AttemptEffect(s: State, st: Step)
    requires DispatchInv(s) && Enabled(s, st)
    requires st.MsgSend? || st.MsgDrop?
    ensures Serving(s, s.threads[st.t])
    ensures Next(s, st).crash == None ==>
              && Next(s, st).threads == s.threads[st.t := MsgSending(s.threads[st.t].e, s.threads[st.t].i + 1)]
              && Next(s, st).log == Record(s.log, Attempt(Receiver(s, st.t), st.MsgSend?))
              && Next(s, st).receivers == s.receivers
    ensures Next(s, st).crash != None ==> Next(s, st) == s.(crash := Next(s, st).crash)
  {
  }

  lemma {:induction false} AttemptKeeps(s: State, n: State, t: Tid, a: Attempt)
    requires Exclusive(s.threads) && DispatchInv(s)
    requires t in s.threads && s.threads[t].MsgSending? && Serving(s, s.threads[t])
    requires s.threads[t].i < |List(s, Key(s.threads[t].e))|
    requires a.c == List(s, Key(s.threads[t].e))[s.threads[t].i]
    requires n.threads == s.threads[t := MsgSending(s.threads[t].e, s.threads[t].i + 1)]
    requires n.log == Record(s.log, a) && n.receivers == s.receivers
    ensures DispatchInv(n)
  {
    RecordShape(s.log, a);
    assert n.threads[t].MsgSending?;
    forall q | q in s.threads && q != t
      ensures !s.threads[q].MsgSending?
    {
      assert !Conflict(s.threads[q], s.threads[t]);
    }
  }

  lemma {:induction false} DispatchAttempt(s: State, st: Step)
    requires LockInv(s) && DispatchInv(s) && Enabled(s, st)
    requires st.MsgSend? || st.MsgDrop?
    ensures DispatchInv(Next(s, st))
  {
    AttemptEffect(s, st);
    if Next(s, st).crash == None {
      AttemptKeeps(s, Next(s, st), st.t, Attempt(Receiver(s, st.t), st.MsgSend?));
    } else {
      assert forall t :: t in s.threads && s.threads[t].MsgSending? ==> Serving(s, s.threads[t]);
    }
  }

  lemma {:induction false} DispatchEnd(s: State, st: Step)
    requires LockInv(s) && DispatchInv(s) && Enabled(s, st) && st.MsgEnd?
    ensures DispatchInv(Next(s, st))
  {
    assert Serving(s, s.threads[st.t]);
    assert IsMsg(s.threads[st.t]);
  }

  /** Nobody can change a list while a dispatch ranges over one. */
  lemma {:induction false} DispatchChange(s: State, st: Step)
    requires DispatchInv(s) && Enabled(s, st)
    requires st.SubAppend? || st.ClsRemove?
    ensures DispatchInv(Next(s, st))
  {
    var n := Next(s, st);
    FrameStep(s, st);
    forall t | t in n.threads
      ensures !n.threads[t].MsgSending?
    {
      if t in s.threads { assert !Reads(s.threads[t]); }
    }
    forall t | t in s.threads
      ensures !s.threads[t].MsgSending?
    {
      assert !Reads(s.threads[t]);
    }
    assert n.log == s.log || exists keys :: n.log == s.log + [Cleaned(keys)];
  }

  lemma {:induction false} SendersKept(s: State, st: Step)
    requires Enabled(s, st)
    requires !st.MsgLock? && !st.MsgSend? && !st.MsgDrop? && !st.MsgEnd? && !st.SubAppend? && !st.ClsRemove?
    ensures forall t :: t in Next(s, st).threads && Next(s, st).threads[t].MsgSending? ==>
              t in s.threads && s.threads[t] == Next(s, st).threads[t]
    ensures forall t :: t in s.threads && s.threads[t].MsgSending? ==>
              t in Next(s, st).threads && Next(s, st).threads[t].MsgSending?
  {
    forall t | t in Next(s, st).threads && Next(s, st).threads[t].MsgSending?
      ensures t in s.threads && s.threads[t] == Next(s, st).threads[t]
    {
      OriginStep(s, st, t);
    }
    forall t | t in s.threads && s.threads[t].MsgSending?
      ensures t in Next(s, st).threads && Next(s, st).threads[t].MsgSending?
    {
      StaysPut(s, st, t);
    }
  }

  lemma {:induction false} DispatchOther(s: State, st: Step)
    requires DispatchInv(s) && Enabled(s, st)
    requires !st.MsgLock? && !st.MsgSend? && !st.MsgDrop? && !st.MsgEnd? && !st.SubAppend? && !st.ClsRemove?
    ensures DispatchInv(Next(s, st))
  {
    FrameStep(s, st);
    SendersKept(s, st);
  }

  lemma {:induction false} DispatchStep(s: State, st: Step)
    requires LockInv(s) && DispatchInv(s) && Enabled(s, st)
    ensures DispatchInv(Next(s, st))
  {
    if st.MsgLock? { DispatchLock(s, st); }
    else if st.MsgSend? { DispatchAttempt(s, st); }
    else if st.MsgDrop? { DispatchAttempt(s, st); }
    else if st.MsgEnd? { DispatchEnd(s, st); }
    else if st.SubAppend? { DispatchChange(s, st); }
    else if st.ClsRemove? { DispatchChange(s, st); }
    else { DispatchOther(s, st); }
  }

  // ----- what a channel holds -----

  /** What a step puts into channel `c`. */
  ghost function Added(s: State, st: Step, c: Chan): seq<Item>
    requires Enabled(s, st)
  {
    if st.MsgSend? && Receiver(s, st.t) == c && !Ch(s, c).closed then
      [Delivery(s.threads[st.t].e, if s.log == [] then 0 else |s.log| - 1)]
    else if st.SubGreet? && s.threads[st.t].c == c && !Ch(s, c).closed then
      [Greeting(s.threads[st.t].e, s.threads[st.t].u, |s.log|)]
    else []
  }

  /** One step seen from one channel: it gains at the back or loses the front. */
  ghost predicate ChannelMoves(s: State, st: Step, c: Chan)
    requires Enabled(s, st)
  {
    var a, b, x := Ch(s, c), Ch(Next(s, st), c), Added(s, st, c);
    && b.enq == a.enq + x
    && (if st == Take(c) then a.queue != [] && b.queue == a.queue[1..] && b.taken == a.taken + [a.queue[0]]
        else b.queue == a.queue + x && b.taken == a.taken)
    && (x != [] ==> |x| == 1 && |a.queue| < CAPACITY)
  }

  lemma {:induction false} ChannelSend(s: State, st: Step, c: Chan)
    requires Enabled(s, st) && st.MsgSend?
    ensures ChannelMoves(s, st, c)
  {
  }

  lemma {:induction false} GreetAdds(s: State, t: Tid, c: Chan)
    requires t in s.threads && s.threads[t].SubGreeting?
    ensures var th, a, b := s.threads[t], Ch(s, c), Ch(DoSubGreet(s, t), c);
            var x := if c == th.c && !a.closed then [Greeting(th.e, th.u, |s.log|)] else [];
            b.queue == a.queue + x && b.enq == a.enq + x && b.taken == a.taken
  {
  }

  lemma {:induction false} ChannelGreet(s: State, st: Step, c: Chan)
    requires Enabled(s, st) && st.SubGreet?
    ensures ChannelMoves(s, st, c)
  {
    GreetAdds(s, st.t, c);
  }

  lemma {:induction false} ChannelTake(s: State, st: Step, c: Chan)
    requires Enabled(s, st) && st.Take?
    ensures ChannelMoves(s, st, c)
  {
  }

  lemma {:induction false} ChannelFlags(s: State, st: Step, c: Chan)
    requires Enabled(s, st) && (st.ContextDone? || st.StopConsumer?)
    ensures ChannelMoves(s, st, c)
  {
    var a, b := Ch(s, c), Ch(Next(s, st), c);
    assert b.queue == a.queue && b.enq == a.enq && b.taken == a.taken;
  }

  lemma {:induction false} ChannelClose(s: State, st: Step, c: Chan)
    requires Enabled(s, st) && st.ClsClose?
    ensures ChannelMoves(s, st, c)
  {
    CloseFlags(s, st.t);
  }

  lemma {:induction false} ChannelOther(s: State, st: Step, c: Chan)
    requires Enabled(s, st)
    requires !st.MsgSend? && !st.SubGreet? && !st.Take? && !st.ContextDone? && !st.StopConsumer? && !st.ClsClose?
    ensures ChannelMoves(s, st, c)
  {
    FrameStep(s, st);
  }

  lemma {:induction false} ChannelStep(s: State, st: Step, c: Chan)
    requires Enabled(s, st)
    ensures ChannelMoves(s, st, c)
  {
    if st.MsgSend? { ChannelSend(s, st, c); }
    else if st.SubGreet? { ChannelGreet(s, st, c); }
    else if st.Take? { ChannelTake(s, st, c); }
    else if st.ContextDone? { ChannelFlags(s, st, c); }
    else if st.StopConsumer? { ChannelFlags(s, st, c); }
    else if st.ClsClose? { ChannelClose(s, st, c); }
    else { ChannelOther(s, st, c); }
  }

  /** Conservation: nothing enqueued is lost, duplicated or reordered, and no
      channel ever holds more than its capacity. */
  ghost predicate QueuesInv(s: State) {
    forall c :: Ch(s, c).taken + Ch(s, c).queue == Ch(s, c).enq && |Ch(s, c).queue| <= CAPACITY
  }

  lemma {:induction false} QueuesStep(s: State, st: Step)
    requires QueuesInv(s) && Enabled(s, st)
    ensures QueuesInv(Next(s, st))
  {
    forall c
      ensures Ch(Next(s, st), c).taken + Ch(Next(s, st), c).queue == Ch(Next(s, st), c).enq
      ensures |Ch(Next(s, st), c).queue| <= CAPACITY
    {
      ChannelStep(s, st, c);
      var a := Ch(s, c);
      if st == Take(c) {
        assert (a.taken + [a.queue[0]]) + a.queue[1..] == a.taken + a.queue;
      } else {
        assert a.taken + (a.queue + Added(s, st, c)) == (a.taken + a.queue) + Added(s, st, c);
      }
    }
  }

  // ----- channels against the log -----

  /** The deliveries among the items of a channel. */
  function Deliveries(items: seq<Item>): seq<Item> {
    if items == [] then []
    else
      var n := |items| - 1;
      Deliveries(items[..n]) + (if items[n].Delivery? then [items[n]] else [])
  }

  /** The successful attempts on `c`, each as the item `x`. */
  function Sent(attempts: seq<Attempt>, c: Chan, x: Item): seq<Item> {
    if attempts == [] then []
    else
      var n := |attempts| - 1;
      Sent(attempts[..n], c, x) + (if attempts[n] == Attempt(c, true) then [x] else [])
  }

  function DeliveredBy(en: Entry, k: nat, c: Chan): seq<Item> {
    if en.Handled? then Sent(en.attempts, c, Delivery(en.e, k)) else []
  }

  /** What the log says channel `c` was sent, in the order the events were handled. */
  function Delivered(log: seq<Entry>, c: Chan): seq<Item> {
    if log == [] then []
    else
      var n := |log| - 1;
      Delivered(log[..n], c) + DeliveredBy(log[n], n, c)
  }

  ghost predicate DeliveryInv(s: State) {
    forall c :: Deliveries(Ch(s, c).enq) == Delivered(s.log, c)
  }

  lemma {:induction false} DeliveriesSnoc(items: seq<Item>, x: Item)
    ensures Deliveries(items + [x]) == Deliveries(items) + (if x.Delivery? then [x] else [])
  {
    assert (items + [x])[..|items|] == items;
  }

  lemma {:induction false} DeliveredSnoc(log: seq<Entry>, en: Entry, c: Chan)
    requires en.Handled? ==> en.attempts == []
    ensures Delivered(log + [en], c) == Delivered(log, c)
  {
    assert (log + [en])[..|log|] == log;
  }

  lemma {:induction false} DeliveredRecord(log: seq<Entry>, a: Attempt, c: Chan)
    requires log != [] && log[|log| - 1].Handled?
    ensures Delivered(Record(log, a), c) ==
            Delivered(log, c) + (if a == Attempt(c, true) then [Delivery(log[|log| - 1].e, |log| - 1)] else [])
  {
    var n := |log| - 1;
    var en := log[n];
    var x := Delivery(en.e, n);
    RecordShape(log, a);
    assert Record(log, a)[..n] == log[..n];
    assert (en.attempts + [a])[..|en.attempts|] == en.attempts;
    assert Sent(en.attempts + [a], c, x) == Sent(en.attempts, c, x) + (if a == Attempt(c, true) then [x] else []);
  }

  lemma {:induction false} LogStep(s: State, st: Step)
    requires DispatchInv(s) && Enabled(s, st)
    ensures st.MsgSend? || st.MsgDrop? ==> Serving(s, s.threads[st.t])
    ensures var n := Next(s, st);
            || n.log == s.log
            || (st.MsgLock? && n.log == s.log + [Handled(Stamp(s.threads[st.t].e, s.threads[st.t].flagged),
                  s.threads[st.t].flagged, List(s, Key(s.threads[st.t].e)), [])])
            || (st.ClsRemove? && n.log == s.log + [Cleaned(CleanupKeys(s.receivers, s.threads[st.t].c))])
            || ((st.MsgSend? || st.MsgDrop?) && n.log == Record(s.log, Attempt(Receiver(s, st.t), st.MsgSend?)))
    ensures st.MsgSend? && !Ch(s, Receiver(s, st.t)).closed ==>
              Next(s, st).log == Record(s.log, Attempt(Receiver(s, st.t), true))
    ensures st.MsgSend? && Ch(s, Receiver(s, st.t)).closed ==> Next(s, st).log == s.log
  {
    if st.MsgSend? || st.MsgDrop? {
      AttemptEffect(s, st);
    } else if st.MsgLock? || st.ClsRemove? {
    } else {
      FrameStep(s, st);
    }
  }

  lemma {:induction false} DeliverySend(s: State, st: Step, c: Chan)
    requires DispatchInv(s) && DeliveryInv(s) && Enabled(s, st) && st.MsgSend?
    ensures Deliveries(Ch(s, c).enq + Added(s, st, c)) == Delivered(Next(s, st).log, c)
  {
    LogStep(s, st);
    var log, items, target := s.log, Ch(s, c).enq, Receiver(s, st.t);
    assert items + [] == items;
    assert Deliveries(items) == Delivered(log, c);
    if !Ch(s, target).closed {
      var x := Delivery(log[|log| - 1].e, |log| - 1);
      assert Added(s, st, c) == if c == target then [x] else [];
      DeliveredRecord(log, Attempt(target, true), c);
      if c == target { DeliveriesSnoc(items, x); }
    } else {
      assert Added(s, st, c) == [];
    }
  }

  lemma {:induction false} DeliveryDrop(s: State, st: Step, c: Chan)
    requires DispatchInv(s) && DeliveryInv(s) && Enabled(s, st) && st.MsgDrop?
    ensures Deliveries(Ch(s, c).enq) == Delivered(Next(s, st).log, c)
  {
    LogStep(s, st);
    DeliveredRecord(s.log, Attempt(Receiver(s, st.t), false), c);
  }

  lemma {:induction false} DeliveryKept(s: State, st: Step, c: Chan)
    requires DispatchInv(s) && DeliveryInv(s) && Enabled(s, st)
    ensures Deliveries(Ch(s, c).enq + Added(s, st, c)) == Delivered(Next(s, st).log, c)
  {
    var log, items := s.log, Ch(s, c).enq;
    assert items + [] == items;
    if st.MsgSend? {
      DeliverySend(s, st, c);
    } else if st.MsgDrop? {
      DeliveryDrop(s, st, c);
    } else if st.SubGreet? {
      FrameStep(s, st);
      DeliveriesSnoc(items, Greeting(s.threads[st.t].e, s.threads[st.t].u, |log|));
    } else {
      LogStep(s, st);
      if Next(s, st).log != log {
        DeliveredSnoc(log, Next(s, st).log[|log|], c);
      }
    }
  }

  lemma {:induction false} DeliveryStep(s: State, st: Step)
    requires DispatchInv(s) && DeliveryInv(s) && Enabled(s, st)
    ensures DeliveryInv(Next(s, st))
  {
    var n := Next(s, st);
    LogStep(s, st);
    forall c
      ensures Deliveries(Ch(n, c).enq) == Delivered(n.log, c)
    {
      ChannelStep(s, st, c);
      DeliveryKept(s, st, c);
    }
  }

  // ----- order -----

  /** Events are handled at odd times and greetings sent at even ones, between them. */
  function Time(x: Item): nat {
    match x
    case Greeting(_, _, at) => 2 * at
    case Delivery(_, idx) => 2 * idx + 1
  }

  ghost predicate InOrder(items: seq<Item>) {
    forall i, j :: 0 <= i < j < |items| ==> Time(items[i]) <= Time(items[j])
  }

  ghost predicate NoSender(s: State) {
    forall t :: t in s.threads ==> !s.threads[t].MsgSending?
  }

  /** The latest time at which anything can have been sent so far. */
  ghost predicate Upto(s: State, items: seq<Item>) {
    && (forall i :: 0 <= i < |items| ==> Time(items[i]) <= 2 * |s.log|)
    && (!NoSender(s) ==> forall i :: 0 <= i < |items| ==> Time(items[i]) < 2 * |s.log|)
  }

  ghost predicate OrderInv(s: State) {
    forall c :: InOrder(Ch(s, c).enq) && Upto(s, Ch(s, c).enq)
  }

  lemma {:induction false} SendersStay(s: State, st: Step)
    requires Enabled(s, st) && NoSender(s)
    requires !st.MsgLock? && !st.MsgSend? && !st.MsgDrop?
    ensures NoSender(Next(s, st))
  {
    forall t | t in Next(s, st).threads
      ensures !Next(s, st).threads[t].MsgSending?
    {
      OriginStep(s, st, t);
    }
  }

  lemma {:induction false} GreeterAlone(s: State, t: Tid)
    requires Exclusive(s.threads) && t in s.threads && s.threads[t].SubGreeting?
    ensures NoSender(s)
  {
    forall q | q in s.threads
      ensures !s.threads[q].MsgSending?
    {
      if q != t { assert !Conflict(s.threads[t], s.threads[q]); }
    }
  }

  lemma {:induction false} SenderStep(s: State, st: Step)
    requires LockInv(s) && DispatchInv(s) && Enabled(s, st)
    ensures |Next(s, st).log| >= |s.log|
    ensures st.MsgLock? ==> |Next(s, st).log| == |s.log| + 1
    ensures !st.MsgLock? && NoSender(s) ==> NoSender(Next(s, st))
    ensures st.SubGreet? ==> NoSender(s) && Next(s, st).log == s.log
    ensures st.MsgSend? || st.MsgDrop? ==> !NoSender(s) && |s.log| > 0
  {
    LogStep(s, st);
    if st.SubGreet? {
      GreeterAlone(s, st.t);
      SendersStay(s, st);
      FrameStep(s, st);
    } else if st.MsgSend? || st.MsgDrop? || st.MsgLock? {
      if st.MsgSend? || st.MsgDrop? { RecordShape(s.log, Attempt(Receiver(s, st.t), st.MsgSend?)); }
    } else if NoSender(s) {
      SendersStay(s, st);
    }
  }

  lemma {:induction false} OrderKept(s: State, n: State, st: Step, c: Chan)
    requires Enabled(s, st) && OrderInv(s)
    requires |n.log| >= |s.log| && (st.MsgLock? ==> |n.log| == |s.log| + 1)
    requires !st.MsgLock? && NoSender(s) ==> NoSender(n)
    requires st.SubGreet? ==> NoSender(s) && n.log == s.log
    requires st.MsgSend? || st.MsgDrop? ==> !NoSender(s) && |s.log| > 0
    requires Ch(n, c).enq == Ch(s, c).enq + Added(s, st, c)
    ensures InOrder(Ch(n, c).enq) && Upto(n, Ch(n, c).enq)
  {
    var items := Ch(s, c).enq;
    assert InOrder(items) && Upto(s, items);
  }

  lemma {:induction false} OrderStep(s: State, st: Step)
    requires LockInv(s) && DispatchInv(s) && OrderInv(s) && Enabled(s, st)
    ensures OrderInv(Next(s, st))
  {
    var n := Next(s, st);
    SenderStep(s, st);
    forall c
      ensures InOrder(Ch(n, c).enq) && Upto(n, Ch(n, c).enq)
    {
      ChannelStep(s, st, c);
      OrderKept(s, n, st, c);
    }
  }

  // ----- over whole runs -----

  ghost predicate Traced(s: State) {
    LockInv(s) && DispatchInv(s) && QueuesInv(s) && DeliveryInv(s) && OrderInv(s)
  }

  lemma {:induction false} TracedStep(s: State, st: Step)
    requires Traced(s) && Enabled(s, st)
    ensures Traced(Next(s, st))
  {
    ExclusiveStep(s, st);
    ClosersStep(s, st);
    DispatchStep(s, st);
    QueuesStep(s, st);
    DeliveryStep(s, st);
    OrderStep(s, st);
  }

  lemma {:induction false} TracedRun(s: State, run: seq<Step>)
    requires Traced(s) && Run(s, run)
    ensures Traced(After(s, run))
    decreases |run|
  {
    if run != [] {
      TracedStep(s, run[0]);
      TracedRun(Next(s, run[0]), run[1..]);
    }
  }

  /** Per-subscriber FIFO and conservation, in every run: what the consumer took,
      followed by what is queued, is what was enqueued; at most 100 items wait;
      apart from greetings these are exactly the events whose send the log records
      as successful, and everything is in the order in which it happened. */
  lemma {:induction false} SubscriberFifo(run: seq<Step>, c: Chan)
    requires Run(INIT, run)
    ensures var s := After(INIT, run);
            var ch := Ch(s, c);
            && |ch.queue| <= 100
            && ch.taken + ch.queue == ch.enq
            && Deliveries(ch.taken + ch.queue) == Delivered(s.log, c)
            && InOrder(ch.taken + ch.queue)
  {
    TracedRun(INIT, run);
  }

  /** `b` is `a` with possibly more attempts. */
  predicate Grown(a: Entry, b: Entry) {
    if a.Handled? then b.Handled? && b == a.(attempts := b.attempts) && a.attempts <= b.attempts else b == a
  }

  lemma {:induction false} LogGrowsStep(s: State, st: Step)
    requires DispatchInv(s) && Enabled(s, st)
    ensures |s.log| <= |Next(s, st).log|
    ensures forall k :: 0 <= k < |s.log| ==> Grown(s.log[k], Next(s, st).log[k])
  {
    LogStep(s, st);
    if st.MsgSend? || st.MsgDrop? {
      RecordShape(s.log, Attempt(Receiver(s, st.t), st.MsgSend?));
    }
  }

  lemma {:induction false} LogGrows(s: State, run: seq<Step>)
    requires DispatchInv(s) && LockInv(s) && Run(s, run)
    ensures |s.log| <= |After(s, run).log|
    ensures forall k :: 0 <= k < |s.log| ==> Grown(s.log[k], After(s, run).log[k])
    decreases |run|
  {
    if run != [] {
      var n := Next(s, run[0]);
      LogGrowsStep(s, run[0]);
      ExclusiveStep(s, run[0]);
      ClosersStep(s, run[0]);
      DispatchStep(s, run[0]);
      LogGrows(n, run[1..]);
      var f := After(n, run[1..]);
      forall k | 0 <= k < |s.log|
        ensures Grown(s.log[k], f.log[k])
      {
        assert Grown(s.log[k], n.log[k]) && Grown(n.log[k], f.log[k]);
      }
    }
  }

  lemma {:induction false} EntryProgress(s: State, k: nat)
    requires DispatchInv(s) && k < |s.log|
    ensures TriedPrefix(s.log[k])
    ensures TriedAll(s.log[k]) || (|s.log| == k + 1 && !NoSender(s))
  {
  }

  lemma {:induction false} LockedEntry(s: State, t: Tid)
    requires Traced(s) && Enabled(s, MsgLock(t))
    ensures var n, th := Next(s, MsgLock(t)), s.threads[t];
            var e := Stamp(th.e, th.flagged);
            Traced(n) && n.log == s.log + [Handled(e, th.flagged, List(s, Key(e)), [])]
  {
    TracedStep(s, MsgLock(t));
    LogStep(s, MsgLock(t));
  }

  /** The channels an entry tried. */
  function Tried(attempts: seq<Attempt>): seq<Chan> {
    seq(|attempts|, i requires 0 <= i < |attempts| => attempts[i].c)
  }

  lemma {:induction false} EntryEnds(f: State, k: nat, entry: Entry)
    requires DispatchInv(f) && k < |f.log| && entry.Handled? && Grown(entry, f.log[k])
    ensures var en := f.log[k];
            && en.Handled? && en.e == entry.e && en.flagged == entry.flagged && en.snapshot == entry.snapshot
            && Tried(en.attempts) <= en.snapshot
            && (Tried(en.attempts) == en.snapshot || (|f.log| == k + 1 && !NoSender(f)))
  {
    EntryProgress(f, k);
  }

  lemma {:induction false} LastEntryGrows(n: State, rest: seq<Step>, log: seq<Entry>, entry: Entry)
    requires Traced(n) && Run(n, rest) && n.log == log + [entry]
    ensures var f := After(n, rest); Traced(f) && |log| < |f.log| && Grown(entry, f.log[|log|])
  {
    TracedRun(n, rest);
    LogGrows(n, rest);
    assert n.log[|log|] == entry;
  }

  /** Dispatch exactness, in every run: an event whose read lock was taken in state
      `s` is attempted for the receivers registered in `s` under its stripped type
      URL, in their order, each entry once; all of them once its thread has gone. */
  lemma {:induction false} DispatchExact(before: seq<Step>, t: Tid, rest: seq<Step>)
    requires Run(INIT, before) && Enabled(After(INIT, before), MsgLock(t))
    requires Run(Next(After(INIT, before), MsgLock(t)), rest)
    ensures var s := After(INIT, before);
            var f := After(Next(s, MsgLock(t)), rest);
            var a, flagged := s.threads[t].e, s.threads[t].flagged;
            && |s.log| < |f.log| && f.log[|s.log|].Handled?
            && var en := f.log[|s.log|];
            && en.e == Event(a.typeUrl, a.payload, a.retained || flagged) && en.flagged == flagged
            && en.snapshot == ListOf(s.receivers, DispatchKey(a.typeUrl))
            && Tried(en.attempts) <= en.snapshot
            && (Tried(en.attempts) == en.snapshot || (|f.log| == |s.log| + 1 && !NoSender(f)))
  {
    var s := After(INIT, before);
    var n, th := Next(s, MsgLock(t)), s.threads[t];
    var e := Stamp(th.e, th.flagged);
    TracedRun(INIT, before);
    LockedEntry(s, t);
    LastEntryGrows(n, rest, s.log, Handled(e, th.flagged, List(s, Key(e)), []));
    EntryEnds(After(n, rest), |s.log|, Handled(e, th.flagged, List(s, Key(e)), []));
  }

  /** Attempts on `c` that ended one way. */
  function Tally(attempts: seq<Attempt>, c: Chan, ok: bool): nat {
    if attempts == [] then 0
    else
      var n := |attempts| - 1;
      Tally(attempts[..n], c, ok) + (if attempts[n] == Attempt(c, ok) then 1 else 0)
  }

  lemma {:induction false} TallyCount(attempts: seq<Attempt>, c: Chan)
    ensures Tally(attempts, c, true) + Tally(attempts, c, false) == Count(Tried(attempts), c)
  {
    if attempts != [] {
      var n := |attempts| - 1;
      TallyCount(attempts[..n], c);
      assert Tried(attempts) == Tried(attempts[..n]) + [attempts[n].c];
      CountAppend(Tried(attempts[..n]), [attempts[n].c], c);
    }
  }

  lemma {:induction false} SentTally(attempts: seq<Attempt>, c: Chan, x: Item)
    ensures |Sent(attempts, c, x)| == Tally(attempts, c, true)
  {
    if attempts != [] {
      SentTally(attempts[..|attempts| - 1], c, x);
    }
  }

  /** Over the whole log: attempts on `c` that ended one way, all attempts on `c`, and
      how often `c` was registered for an event that was handled. */
  function TallyOver(log: seq<Entry>, c: Chan, ok: bool): nat {
    if log == [] then 0
    else
      var n := |log| - 1;
      TallyOver(log[..n], c, ok) + (if log[n].Handled? then Tally(log[n].attempts, c, ok) else 0)
  }

  function AttemptedOver(log: seq<Entry>, c: Chan): nat {
    if log == [] then 0
    else
      var n := |log| - 1;
      AttemptedOver(log[..n], c) + (if log[n].Handled? then Count(Tried(log[n].attempts), c) else 0)
  }

  function RegisteredOver(log: seq<Entry>, c: Chan): nat {
    if log == [] then 0
    else
      var n := |log| - 1;
      RegisteredOver(log[..n], c) + (if log[n].Handled? then Count(log[n].snapshot, c) else 0)
  }

  lemma {:induction false} DeliveredCount(log: seq<Entry>, c: Chan)
    ensures |Delivered(log, c)| == TallyOver(log, c, true)
    ensures TallyOver(log, c, true) + TallyOver(log, c, false) == AttemptedOver(log, c)
  {
    if log != [] {
      var n := |log| - 1;
      DeliveredCount(log[..n], c);
      if log[n].Handled? {
        SentTally(log[n].attempts, c, Delivery(log[n].e, n));
        TallyCount(log[n].attempts, c);
      }
    }
  }

  lemma {:induction false} FinishedCount(log: seq<Entry>, c: Chan)
    requires forall k :: 0 <= k < |log| ==> TriedAll(log[k])
    ensures AttemptedOver(log, c) == RegisteredOver(log, c)
  {
    if log != [] {
      var n := |log| - 1;
      FinishedCount(log[..n], c);
      if log[n].Handled? { assert Tried(log[n].attempts) == log[n].snapshot; }
    }
  }

  /** How often a send to `c` timed out during a run. */
  ghost function TimedOut(s: State, run: seq<Step>, c: Chan): nat
    requires Run(s, run)
    decreases |run|
  {
    if run == [] then 0
    else (if run[0].MsgDrop? && Receiver(s, run[0].t) == c then 1 else 0) + TimedOut(Next(s, run[0]), run[1..], c)
  }

  lemma {:induction false} TallyRecord(log: seq<Entry>, a: Attempt, c: Chan)
    requires log != [] && log[|log| - 1].Handled?
    ensures TallyOver(Record(log, a), c, false) == TallyOver(log, c, false) + (if a == Attempt(c, false) then 1 else 0)
  {
    var n := |log| - 1;
    RecordShape(log, a);
    assert Record(log, a)[..n] == log[..n];
    assert (log[n].attempts + [a])[..|log[n].attempts|] == log[n].attempts;
  }

  lemma {:induction false} TallyStep(s: State, st: Step, c: Chan)
    requires DispatchInv(s) && Enabled(s, st)
    ensures TallyOver(Next(s, st).log, c, false) ==
            TallyOver(s.log, c, false) + (if st.MsgDrop? && Receiver(s, st.t) == c then 1 else 0)
  {
    LogStep(s, st);
    if st.MsgDrop? || st.MsgSend? {
      TallyRecord(s.log, Attempt(Receiver(s, st.t), st.MsgSend?), c);
      AttemptEffect(s, st);
    } else if Next(s, st).log != s.log {
      assert Next(s, st).log[..|s.log|] == s.log;
    }
  }

  lemma {:induction false} TimedOutRun(s: State, run: seq<Step>, c: Chan)
    requires Traced(s) && Run(s, run)
    ensures TallyOver(After(s, run).log, c, false) == TallyOver(s.log, c, false) + TimedOut(s, run, c)
    decreases |run|
  {
    if run != [] {
      TallyStep(s, run[0], c);
      TracedStep(s, run[0]);
      TimedOutRun(Next(s, run[0]), run[1..], c);
    }
  }

  /** How many events have entered a channel. */
  ghost function Entered(s: State, c: Chan): nat {
    |Deliveries(Ch(s, c).taken + Ch(s, c).queue)|
  }

  lemma {:induction false} EnteredCount(s: State, c: Chan)
    requires QueuesInv(s) && DeliveryInv(s)
    ensures Entered(s, c) == TallyOver(s.log, c, true)
    ensures Entered(s, c) + TallyOver(s.log, c, false) == AttemptedOver(s.log, c)
  {
    assert Ch(s, c).taken + Ch(s, c).queue == Ch(s, c).enq;
    assert Deliveries(Ch(s, c).enq) == Delivered(s.log, c);
    DeliveredCount(s.log, c);
  }

  lemma {:induction false} AllTried(s: State, c: Chan)
    requires DispatchInv(s) && NoSender(s)
    ensures AttemptedOver(s.log, c) == RegisteredOver(s.log, c)
  {
    FinishedCount(s.log, c);
  }

  lemma {:induction false} InitTraced()
    ensures Traced(INIT) && TallyOver(INIT.log, 0, false) == 0
  {
  }

  /** Conservation over whole runs: the events that entered a channel and the sends to it
      that timed out are together the attempts made on it; and whenever no dispatch is
      in progress, they are as many as there were registrations of the channel for the
      events handled. */
  lemma {:induction false} AttemptsAddUp(run: seq<Step>, c: Chan)
    requires Run(INIT, run)
    ensures var s := After(INIT, run);
            && Entered(s, c) == TallyOver(s.log, c, true)
            && TimedOut(INIT, run, c) == TallyOver(s.log, c, false)
            && Entered(s, c) + TimedOut(INIT, run, c) == AttemptedOver(s.log, c)
            && (NoSender(s) ==> Entered(s, c) + TimedOut(INIT, run, c) == RegisteredOver(s.log, c))
  {
    var s := After(INIT, run);
    InitTraced();
    TracedRun(INIT, run);
    EnteredCount(s, c);
    TimedOutRun(INIT, run, c);
    if NoSender(s) { AllTried(s, c); }
  }

  // ----- when a send times out -----

  lemma {:induction false} SendEffect(s: State, t: Tid)
    requires AtReceiver(s, t) && !Ch(s, Receiver(s, t)).closed
    ensures Ch(DoMsgSend(s, t), Receiver(s, t)).queue ==
            Ch(s, Receiver(s, t)).queue + [Delivery(s.threads[t].e, if s.log == [] then 0 else |s.log| - 1)]
  {
  }

  lemma {:induction false} SendTaken(s: State, t: Tid)
    requires Enabled(s, MsgSend(t))
    ensures var ch, n := Ch(s, Receiver(s, t)), Next(s, MsgSend(t));
            if ch.closed then n.crash == Some(SendOnClosed)
            else
              |ch.queue| < 100 && exists k :: Ch(n, Receiver(s, t)).queue == ch.queue + [Delivery(s.threads[t].e, k)]
  {
    SendFlags(s, t);
    if !Ch(s, Receiver(s, t)).closed { SendEffect(s, t); }
  }

  lemma {:induction false} DropKeeps(s: State, t: Tid)
    requires Enabled(s, MsgDrop(t))
    ensures Next(s, MsgDrop(t)).chans == s.chans && Next(s, MsgDrop(t)).crash == None
    ensures var ch := Ch(s, Receiver(s, t)); !ch.closed && |ch.queue| >= 100
  {
  }

  /** In every run, a send of the dispatch to a closed channel can only panic, one to an
      open channel with room can only put the event at the end of it, and one to an open
      channel can time out only if there are 100 events in it, and then changes no channel. */
  lemma {:induction false} TimesOutOnlyWhenFull(run: seq<Step>, t: Tid)
    requires Run(INIT, run) && After(INIT, run).crash == None && AtReceiver(After(INIT, run), t)
    ensures var s := After(INIT, run);
            var c := Receiver(s, t);
            var ch, sent, dropped := Ch(s, c), Next(s, MsgSend(t)), Next(s, MsgDrop(t));
            && (Enabled(s, MsgDrop(t)) <==> !ch.closed && |ch.queue| == 100)
            && (Enabled(s, MsgSend(t)) <==> ch.closed || |ch.queue| < 100)
            && (ch.closed ==> sent.crash == Some(SendOnClosed))
            && (!ch.closed && |ch.queue| < 100 ==>
                  exists k :: Ch(sent, c).queue == ch.queue + [Delivery(s.threads[t].e, k)])
            && (Enabled(s, MsgDrop(t)) ==> dropped.chans == s.chans && dropped.crash == None)
  {
    var s := After(INIT, run);
    TracedRun(INIT, run);
    assert |Ch(s, Receiver(s, t)).queue| <= 100;
    if Enabled(s, MsgSend(t)) { SendTaken(s, t); }
    if Enabled(s, MsgDrop(t)) { DropKeeps(s, t); }
  }
}
