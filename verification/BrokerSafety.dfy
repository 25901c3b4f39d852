/** No goroutine panics: not on a send to a closed channel, not on a double close, not
    on a missing connection (internal/broker/subscriber.go:37-71, internal/broker/broker.go). */
module BrokerSafety {
  import opened Events
  import opened Topics
  import opened ReceiverLists
  import opened BrokerMachine
  import opened BrokerLocks
  import opened BrokerDispatch

  ghost predicate HasJoined(s: State, c: Chan, u: string) {
    exists j :: j in s.joins && j.c == c && j.u == u
  }

  /** What Subscribe expects of a stream: it names a type URL once, and does not
      subscribe after its own UnsubscribeAll. */
  ghost predicate Tidy(s: State, st: Step) {
    st.SubAppend? && st.t in s.threads && s.threads[st.t].SubAnnounced? ==>
      var th := s.threads[st.t];
      th.c !in s.removed && !HasJoined(s, th.c, th.u)
  }

  /** Subscribe waits for the first connection. */
  ghost predicate Linked(s: State, st: Step) {
    st.SubAppend? ==> s.linked
  }

  ghost predicate TidyLinked(s: State, st: Step) {
    Tidy(s, st) && Linked(s, st)
  }

  /** Every registered channel joined once and has not been removed. */
  ghost predicate ListInv(s: State) {
    && (forall u, c :: c in List(s, u) ==> HasJoined(s, c, u) && c !in s.removed)
    && (forall u :: NoDup(List(s, u)))
  }

  /** Channels are closed only after their removal, and once. */
  ghost predicate CloseInv(s: State) {
    && (forall c :: Ch(s, c).closed ==> Ch(s, c).done && c in s.removed)
    && (forall t :: t in s.threads && IsClosing(s.threads[t]) ==> !Ch(s, s.threads[t].c).closed)
    && (forall t :: t in s.threads && s.threads[t].ClsRemoved? ==> s.threads[t].c in s.removed)
  }

  ghost predicate GreetInv(s: State) {
    forall t :: t in s.threads && s.threads[t].SubGreeting? ==> s.threads[t].c !in s.removed
  }

  predicate NeedsLink(th: Thread) {
    th.SubGreeting? || th.SubFinishing? || IsSubscribing(th) || IsUnsub(th)
  }

  ghost predicate LinkInv(s: State) {
    && (s.joins != [] ==> s.linked)
    && (forall t :: t in s.threads && NeedsLink(s.threads[t]) ==> s.linked)
  }

  ghost predicate SafeInv(s: State) {
    LockInv(s) && ListInv(s) && CloseInv(s) && GreetInv(s)
  }

  // ----- the lists -----

  lemma {:induction false} ListAppend(s: State, st: Step)
    requires ListInv(s) && Enabled(s, st) && st.SubAppend? && Tidy(s, st)
    ensures ListInv(Next(s, st))
  {
    var n := Next(s, st);
    var c, u := s.threads[st.t].c, s.threads[st.t].u;
    assert n.joins[|s.joins|].c == c && n.joins[|s.joins|].u == u;
    forall q, d | d in List(n, q)
      ensures HasJoined(n, d, q) && d !in n.removed
    {
      if d in List(s, q) {
        assert HasJoined(s, d, q);
        var j :| j in s.joins && j.c == d && j.u == q;
        assert j in n.joins;
      }
    }
    forall q
      ensures NoDup(List(n, q))
    {
      assert NoDup(List(s, q));
      if q == u { assert c !in List(s, u); }
    }
  }

  lemma {:induction false} ListRemove(s: State, st: Step)
    requires ListInv(s) && Enabled(s, st) && st.ClsRemove?
    ensures ListInv(Next(s, st))
  {
    var n := Next(s, st);
    var m := s.threads[st.t].c;
    FrameStep(s, st);
    forall q
      ensures NoDup(List(n, q)) && forall d :: d in List(n, q) ==> d in List(s, q) && d != m
    {
      assert NoDup(List(s, q));
      RemoveNoDup(List(s, q), m);
    }
    forall q, d | d in List(n, q)
      ensures HasJoined(n, d, q) && d !in n.removed
    {
      assert d in List(s, q) && d != m;
      assert HasJoined(s, d, q);
    }
  }

  lemma {:induction false} ListOther(s: State, st: Step)
    requires ListInv(s) && Enabled(s, st) && !st.SubAppend? && !st.ClsRemove?
    ensures ListInv(Next(s, st))
  {
    FrameStep(s, st);
    var n := Next(s, st);
    forall q, d | d in List(n, q)
      ensures HasJoined(n, d, q) && d !in n.removed
    {
      assert d in List(s, q) && HasJoined(s, d, q);
    }
    forall q
      ensures NoDup(List(n, q))
    {
      assert NoDup(List(s, q));
    }
  }

  lemma {:induction false} ListStep(s: State, st: Step)
    requires ListInv(s) && Enabled(s, st) && Tidy(s, st)
    ensures ListInv(Next(s, st))
  {
    if st.SubAppend? { ListAppend(s, st); }
    else if st.ClsRemove? { ListRemove(s, st); }
    else { ListOther(s, st); }
  }

  // ----- closing, in every run -----

  lemma {:induction false} FlagsOther(s: State, st: Step, c: Chan)
    requires Enabled(s, st)
    requires !st.MsgSend? && !st.SubGreet? && !st.ContextDone? && !st.Take? && !st.StopConsumer? && !st.ClsClose?
    ensures Ch(Next(s, st), c) == Ch(s, c)
  {
    FrameStep(s, st);
  }

  lemma {:induction false} FlagsSend(s: State, st: Step, c: Chan)
    requires Enabled(s, st)
    requires st.MsgSend? || st.SubGreet?
    ensures Ch(Next(s, st), c).done == Ch(s, c).done && Ch(Next(s, st), c).closed == Ch(s, c).closed
  {
    if st.MsgSend? { SendFlags(s, st.t); } else { GreetFlags(s, st.t); }
  }

  lemma {:induction false} FlagsSet(s: State, st: Step, c: Chan)
    requires Enabled(s, st)
    requires st.ContextDone? || st.Take? || st.StopConsumer? || st.ClsClose?
    ensures Ch(s, c).done ==> Ch(Next(s, st), c).done
    ensures Ch(Next(s, st), c).closed ==> Ch(s, c).closed || (st.ClsClose? && s.threads[st.t].c == c)
  {
  }

  /** The flags of a channel change only by these steps. */
  lemma {:induction false} FlagsStep(s: State, st: Step, c: Chan)
    requires Enabled(s, st)
    ensures Ch(s, c).done ==> Ch(Next(s, st), c).done
    ensures Ch(Next(s, st), c).closed ==> Ch(s, c).closed || (st.ClsClose? && s.threads[st.t].c == c)
  {
    if st.MsgSend? { FlagsSend(s, st, c); }
    else if st.SubGreet? { FlagsSend(s, st, c); }
    else if st.ContextDone? { FlagsSet(s, st, c); }
    else if st.Take? { FlagsSet(s, st, c); }
    else if st.StopConsumer? { FlagsSet(s, st, c); }
    else if st.ClsClose? { FlagsSet(s, st, c); }
    else { FlagsOther(s, st, c); }
  }

  lemma {:induction false} LeadsToClosing(a: Thread, b: Thread, losses: nat)
    requires Leads(a, b, losses) && IsClosing(b)
    ensures (a.ClsWantWrite? || a.ClsAnnounced?) && a.c == b.c && (b.ClsRemoved? ==> a.ClsAnnounced?)
  {
  }

  /** Where the closing goroutines of the next state come from. */
  lemma {:induction false} ClosersFrom(s: State, st: Step, n: State, t: Tid)
    requires t in n.threads && Origin(s, st, n, t) && IsClosing(n.threads[t])
    ensures var th := n.threads[t];
            || (st.ContextDone? && st.t == t && st.c == th.c && !th.ClsRemoved?)
            || (t in s.threads && IsClosing(s.threads[t]) && s.threads[t].c == th.c)
    ensures var th := n.threads[t];
            th.ClsRemoved? ==> t in s.threads && (s.threads[t].ClsRemoved? || (st.ClsRemove? && t in Actors(st)))
  {
    if t in s.threads && n.threads[t] != s.threads[t] { LeadsToClosing(s.threads[t], n.threads[t], s.losses); }
  }

  lemma {:induction false} RemovedGrows(s: State, st: Step)
    requires Enabled(s, st)
    ensures Next(s, st).removed == s.removed + (if st.ClsRemove? then {s.threads[st.t].c} else {})
  {
    if !st.ClsRemove? { FrameStep(s, st); }
  }

  lemma {:induction false} ClosePanics(s: State, st: Step)
    requires Enabled(s, st) && st.ClsClose?
    ensures Next(s, st).crash != None ==> Ch(s, s.threads[st.t].c).closed
    ensures Next(s, st).crash == None ==> st.t !in Next(s, st).threads
  {
    CloseFlags(s, st.t);
  }

  lemma {:induction false} CloserKept(s: State, st: Step, t: Tid)
    requires LockInv(s) && CloseInv(s) && Enabled(s, st)
    requires t in Next(s, st).threads && IsClosing(Next(s, st).threads[t])
    ensures !Ch(Next(s, st), Next(s, st).threads[t].c).closed
    ensures Next(s, st).threads[t].ClsRemoved? ==> Next(s, st).threads[t].c in Next(s, st).removed
  {
    var c := Next(s, st).threads[t].c;
    OriginStep(s, st, t);
    ClosersFrom(s, st, Next(s, st), t);
    FlagsStep(s, st, c);
    RemovedGrows(s, st);
    if st.ClsClose? { ClosePanics(s, st); }
  }

  lemma {:induction false} CloseStep(s: State, st: Step)
    requires LockInv(s) && CloseInv(s) && Enabled(s, st)
    ensures CloseInv(Next(s, st))
  {
    var n := Next(s, st);
    RemovedGrows(s, st);
    forall c
      ensures Ch(n, c).closed ==> Ch(n, c).done && c in n.removed
    {
      FlagsStep(s, st, c);
    }
    forall t | t in n.threads && IsClosing(n.threads[t])
      ensures !Ch(n, n.threads[t].c).closed
      ensures n.threads[t].ClsRemoved? ==> n.threads[t].c in n.removed
    {
      CloserKept(s, st, t);
    }
  }

  // ----- greetings and the connection -----

  lemma {:induction false} GreetersFrom(s: State, st: Step, n: State, t: Tid)
    requires t in n.threads && Origin(s, st, n, t) && n.threads[t].SubGreeting?
    ensures t in s.threads
    ensures || s.threads[t] == n.threads[t]
            || (st == SubAppend(t) && s.threads[t].SubAnnounced? && s.threads[t].c == n.threads[t].c)
  {
  }

  lemma {:induction false} GreetStep(s: State, st: Step)
    requires LockInv(s) && GreetInv(s) && Enabled(s, st) && Tidy(s, st)
    ensures GreetInv(Next(s, st))
  {
    var n := Next(s, st);
    RemovedGrows(s, st);
    if st.ClsRemove? {
      assert forall t :: t in s.threads && t != st.t ==> !Conflict(s.threads[t], s.threads[st.t]);
    }
    forall t | t in n.threads && n.threads[t].SubGreeting?
      ensures n.threads[t].c !in n.removed
    {
      OriginStep(s, st, t);
      GreetersFrom(s, st, n, t);
    }
  }

  lemma {:induction false} LinkersFrom(s: State, st: Step, n: State, t: Tid)
    requires t in n.threads && Origin(s, st, n, t) && NeedsLink(n.threads[t])
    ensures || (t in s.threads && NeedsLink(s.threads[t]))
            || st == SubAppend(t)
            || (st.ClsRemove? && CleanupKeys(s.receivers, s.threads[st.t].c) != {})
  {
  }

  lemma {:induction false} StaysLinked(s: State, st: Step)
    requires Enabled(s, st)
    ensures s.linked ==> Next(s, st).linked
    ensures !st.SubAppend? ==> Next(s, st).joins == s.joins
  {
    if !st.LockConn? && !st.SubAppend? { FrameStep(s, st); }
  }

  lemma {:induction false} LinkStep(s: State, st: Step)
    requires ListInv(s) && LinkInv(s) && Enabled(s, st) && Linked(s, st)
    ensures LinkInv(Next(s, st))
  {
    var n := Next(s, st);
    StaysLinked(s, st);
    forall t | t in n.threads && NeedsLink(n.threads[t])
      ensures n.linked
    {
      OriginStep(s, st, t);
      LinkersFrom(s, st, n, t);
      if st.ClsRemove? && CleanupKeys(s.receivers, s.threads[st.t].c) != {} {
        var m := s.threads[st.t].c;
        var k :| k in CleanupKeys(s.receivers, m);
        assert m in List(s, k);
        assert HasJoined(s, m, k);
      }
    }
  }

  // ----- no panic -----

  lemma {:induction false} SendIsSafe(s: State, st: Step, c: Chan)
    requires CloseInv(s) && Enabled(s, st)
    requires (st.MsgSend? && c == Receiver(s, st.t)) || (st.SubGreet? && c == s.threads[st.t].c)
    requires c !in s.removed
    ensures Next(s, st).crash == None
  {
    assert !Ch(s, c).closed;
  }

  lemma {:induction false} CallIsSafe(s: State, st: Step)
    requires Enabled(s, st)
    requires st.FlCall? || st.UnCall?
    ensures Next(s, st).crash == None || (Next(s, st).crash == Some(NilConn) && !LinkInv(s))
  {
    assert NeedsLink(s.threads[st.t]);
  }

  lemma {:induction false} OthersNeverPanic(s: State, st: Step)
    requires Enabled(s, st)
    requires !st.MsgSend? && !st.SubGreet? && !st.ClsClose? && !st.FlCall? && !st.UnCall?
    ensures Next(s, st).crash == None
  {
  }

  lemma {:induction false} NoPanic(s: State, st: Step)
    requires SafeInv(s) && Enabled(s, st)
    ensures Next(s, st).crash == None || (Next(s, st).crash == Some(NilConn) && !LinkInv(s))
  {
    if st.MsgSend? {
      assert Receiver(s, st.t) in List(s, Key(s.threads[st.t].e));
      SendIsSafe(s, st, Receiver(s, st.t));
    } else if st.SubGreet? {
      SendIsSafe(s, st, s.threads[st.t].c);
    } else if st.ClsClose? {
      ClosePanics(s, st);
    } else if st.FlCall? || st.UnCall? {
      CallIsSafe(s, st);
    } else {
      OthersNeverPanic(s, st);
    }
  }

  lemma {:induction false} SafeStep(s: State, st: Step)
    requires SafeInv(s) && Enabled(s, st) && Tidy(s, st)
    ensures SafeInv(Next(s, st)) && (Next(s, st).crash == None || Next(s, st).crash == Some(NilConn))
  {
    ExclusiveStep(s, st);
    ClosersStep(s, st);
    ListStep(s, st);
    CloseStep(s, st);
    GreetStep(s, st);
    NoPanic(s, st);
  }

  lemma {:induction false} SafeRun(s: State, run: seq<Step>)
    requires SafeInv(s) && Run(s, run) && Along(Tidy, s, run)
    requires s.crash == None || s.crash == Some(NilConn)
    ensures SafeInv(After(s, run))
    ensures After(s, run).crash == None || After(s, run).crash == Some(NilConn)
    decreases |run|
  {
    if run != [] {
      SafeStep(s, run[0]);
      SafeRun(Next(s, run[0]), run[1..]);
    }
  }

  /** In every interleaving in which the streams keep the rules, no send ever meets a
      closed channel, no channel is closed twice, and no registered channel is closed. */
  lemma {:induction false} NoSendOnClosed(run: seq<Step>)
    requires Run(INIT, run) && Along(Tidy, INIT, run)
    ensures After(INIT, run).crash != Some(SendOnClosed) && After(INIT, run).crash != Some(CloseOfClosed)
    ensures forall u, c :: c in List(After(INIT, run), u) ==> !Ch(After(INIT, run), c).closed
    ensures forall u :: NoDup(List(After(INIT, run), u))
  {
    SafeRun(INIT, run);
  }

  lemma {:induction false} LinkedRun(s: State, run: seq<Step>)
    requires SafeInv(s) && LinkInv(s) && s.crash == None && Run(s, run) && Along(TidyLinked, s, run)
    ensures After(s, run).crash == None
    decreases |run|
  {
    if run != [] {
      NoPanic(s, run[0]);
      SafeStep(s, run[0]);
      LinkStep(s, run[0]);
      LinkedRun(Next(s, run[0]), run[1..]);
    }
  }

  /** If Subscribe also waits for the first connection, nothing panics at all. */
  lemma {:induction false} NothingPanics(run: seq<Step>)
    requires Run(INIT, run) && Along(TidyLinked, INIT, run)
    ensures After(INIT, run).crash == None
  {
    LinkedRun(INIT, run);
  }

  lemma {:induction false} SendPanics(s: State, st: Step)
    requires Enabled(s, st) && st.MsgSend?
    ensures Next(s, st).crash != Some(CloseOfClosed)
  {
    SendFlags(s, st.t);
  }

  lemma {:induction false} GreetPanics(s: State, st: Step)
    requires Enabled(s, st) && st.SubGreet?
    ensures Next(s, st).crash != Some(CloseOfClosed)
  {
    GreetFlags(s, st.t);
  }

  lemma {:induction false} CallPanics(s: State, st: Step)
    requires Enabled(s, st)
    requires st.FlCall? || st.UnCall?
    ensures Next(s, st).crash != Some(CloseOfClosed)
  {
  }

  lemma {:induction false} NoDoubleClose(s: State, st: Step)
    requires CloseInv(s) && Enabled(s, st)
    ensures Next(s, st).crash != Some(CloseOfClosed)
  {
    if st.ClsClose? { ClosePanics(s, st); }
    else if st.MsgSend? { SendPanics(s, st); }
    else if st.SubGreet? { GreetPanics(s, st); }
    else if st.FlCall? || st.UnCall? { CallPanics(s, st); }
    else { OthersNeverPanic(s, st); }
  }

  lemma {:induction false} CloseRun(s: State, run: seq<Step>)
    requires LockInv(s) && CloseInv(s) && s.crash != Some(CloseOfClosed) && Run(s, run)
    ensures CloseInv(After(s, run)) && After(s, run).crash != Some(CloseOfClosed)
    decreases |run|
  {
    if run != [] {
      var n := Next(s, run[0]);
      ExclusiveStep(s, run[0]);
      ClosersStep(s, run[0]);
      CloseStep(s, run[0]);
      NoDoubleClose(s, run[0]);
      CloseRun(n, run[1..]);
    }
  }

  /** Whatever the callers do, no channel is closed twice, and one is closed only
      after its UnsubscribeAll. */
  lemma {:induction false} ClosedOnceAfterRemoval(run: seq<Step>, c: Chan)
    requires Run(INIT, run)
    ensures After(INIT, run).crash != Some(CloseOfClosed)
    ensures Ch(After(INIT, run), c).closed ==> c in After(INIT, run).removed
  {
    CloseRun(INIT, run);
  }

  // ----- each event at most once -----

  ghost predicate SnapshotInv(s: State) {
    forall k :: 0 <= k < |s.log| && s.log[k].Handled? ==> NoDup(s.log[k].snapshot)
  }

  lemma {:induction false} SnapshotStep(s: State, st: Step)
    requires DispatchInv(s) && ListInv(s) && SnapshotInv(s) && Enabled(s, st)
    ensures SnapshotInv(Next(s, st))
  {
    LogStep(s, st);
    if st.MsgSend? || st.MsgDrop? {
      RecordShape(s.log, Attempt(Receiver(s, st.t), st.MsgSend?));
    } else if st.MsgLock? {
      assert NoDup(List(s, Key(s.threads[st.t].e)));
    }
  }

  lemma {:induction false} SnapshotRun(s: State, run: seq<Step>)
    requires Traced(s) && SafeInv(s) && SnapshotInv(s) && Run(s, run) && Along(Tidy, s, run)
    ensures Traced(After(s, run)) && SnapshotInv(After(s, run))
    decreases |run|
  {
    if run != [] {
      TracedStep(s, run[0]);
      SafeStep(s, run[0]);
      SnapshotStep(s, run[0]);
      SnapshotRun(Next(s, run[0]), run[1..]);
    }
  }

  /** Deliveries of distinct log entries, in log order, each of an event whose type
      URL the channel was registered for. */
  ghost predicate Increasing(items: seq<Item>, log: seq<Entry>, c: Chan) {
    && (forall i :: 0 <= i < |items| ==>
          items[i].Delivery? && items[i].idx < |log| &&
          var en := log[items[i].idx]; en.Handled? && en.e == items[i].e && c in en.snapshot)
    && (forall i, j :: 0 <= i < j < |items| ==> items[i].idx < items[j].idx)
  }

  lemma {:induction false} SentAtMostOnce(attempts: seq<Attempt>, snapshot: seq<Chan>, c: Chan, x: Item)
    requires NoDup(snapshot) && |attempts| <= |snapshot|
    requires forall j :: 0 <= j < |attempts| ==> attempts[j].c == snapshot[j]
    ensures Sent(attempts, c, x) == [] || Sent(attempts, c, x) == [x]
    ensures (forall j :: 0 <= j < |attempts| ==> attempts[j].c != c) ==> Sent(attempts, c, x) == []
  {
    if attempts != [] {
      var n := |attempts| - 1;
      SentAtMostOnce(attempts[..n], snapshot, c, x);
      if attempts[n].c == c {
        forall j | 0 <= j < n
          ensures attempts[..n][j].c != c
        {
          assert attempts[j].c == snapshot[j] && attempts[n].c == snapshot[n];
        }
      }
    }
  }

  lemma {:induction false} DeliveredIncreasing(log: seq<Entry>, c: Chan)
    requires forall k :: 0 <= k < |log| && log[k].Handled? ==> NoDup(log[k].snapshot) && TriedPrefix(log[k])
    ensures Increasing(Delivered(log, c), log, c)
  {
    if log != [] {
      var n := |log| - 1;
      DeliveredIncreasing(log[..n], c);
      if log[n].Handled? {
        SentAtMostOnce(log[n].attempts, log[n].snapshot, c, Delivery(log[n].e, n));
        if c !in log[n].snapshot {
          assert forall j :: 0 <= j < |log[n].attempts| ==> log[n].attempts[j].c == log[n].snapshot[j];
        }
      }
    }
  }

  /** When the callers keep the rules, the events that reach a subscriber are a
      subsequence of the events handled: none twice, none out of order. */
  lemma {:induction false} EventsAtMostOnceInOrder(run: seq<Step>, c: Chan)
    requires Run(INIT, run) && Along(Tidy, INIT, run)
    ensures var s := After(INIT, run);
            var items := Deliveries(Ch(s, c).taken + Ch(s, c).queue);
            Increasing(items, s.log, c)
  {
    SnapshotRun(INIT, run);
    SubscriberFifo(run, c);
    DeliveredIncreasing(After(INIT, run).log, c);
  }
}
