/** From the network to the log: what is handled is what arrived, each message once and in
    order, with the RETAIN flag added (internal/broker/broker.go:200-218). */
module BrokerArrivals {
  import opened Events
  import opened Topics
  import opened ReceiverLists
  import opened BrokerMachine
  import opened BrokerLocks
  import opened BrokerDispatch

  /** A message, and whether it came with the RETAIN flag. */
  datatype Arrival = Arrival(e: Event, flagged: bool)

  function ArrivalOf(st: Step): seq<Arrival> {
    if st.Arrive? then [Arrival(st.e, st.flagged)] else []
  }

  function Arrivals(run: seq<Step>): seq<Arrival> {
    if run == [] then [] else ArrivalOf(run[0]) + Arrivals(run[1..])
  }

  function HandledIn(en: Entry): seq<Arrival> {
    if en.Handled? then [Arrival(en.e, en.flagged)] else []
  }

  /** The messages of the log. */
  function HandledOf(log: seq<Entry>): seq<Arrival> {
    if log == [] then []
    else HandledOf(log[..|log| - 1]) + HandledIn(log[|log| - 1])
  }

  /** `b` is message `a` after the flag has been added. */
  predicate Marks(a: Arrival, b: Arrival) {
    && b.flagged == a.flagged && b.e.typeUrl == a.e.typeUrl && b.e.payload == a.e.payload
    && b.e.retained == (a.e.retained || a.flagged)
  }

  /** `done` are the first arrivals, marked. */
  ghost predicate Follow(done: seq<Arrival>, all: seq<Arrival>) {
    |done| <= |all| && forall i :: 0 <= i < |done| ==> Marks(all[i], done[i])
  }

  ghost predicate Waiting(s: State, a: Arrival) {
    exists t :: t in s.threads && s.threads[t] == MsgWantRead(a.e, a.flagged)
  }

  /** All arrivals so far have been handled, except possibly the last, which waits. */
  ghost predicate ArrivalInv(s: State, all: seq<Arrival>) {
    var done := HandledOf(s.log);
    && Follow(done, all) && |all| <= |done| + 1
    && (|all| == |done| + 1 ==> Waiting(s, all[|done|]))
    && (forall t :: t in s.threads && s.threads[t].MsgWantRead? ==>
          |all| == |done| + 1 && all[|done|] == Arrival(s.threads[t].e, s.threads[t].flagged))
  }

  lemma {:induction false} HandledSnoc(log: seq<Entry>, en: Entry)
    ensures HandledOf(log + [en]) == HandledOf(log) + HandledIn(en)
  {
    assert (log + [en])[..|log|] == log;
  }

  lemma {:induction false} HandledRecord(log: seq<Entry>, a: Attempt)
    ensures HandledOf(Record(log, a)) == HandledOf(log)
  {
    if log != [] && log[|log| - 1].Handled? {
      RecordShape(log, a);
      assert Record(log, a)[..|log| - 1] == log[..|log| - 1];
    }
  }

  lemma {:induction false} NothingWaits(s: State, all: seq<Arrival>)
    requires ArrivalInv(s, all) && NoMessage(s)
    ensures |all| == |HandledOf(s.log)|
  {
  }

  lemma {:induction false} ArrivesNext(s: State, st: Step, all: seq<Arrival>)
    requires LockInv(s) && ArrivalInv(s, all) && Enabled(s, st) && st.Arrive?
    ensures ArrivalInv(Next(s, st), all + ArrivalOf(st))
  {
    var n := Next(s, st);
    assert n.threads[st.t] == MsgWantRead(st.e, st.flagged) && n.log == s.log;
    NothingWaits(s, all);
  }

  lemma {:induction false} HandledNext(s: State, st: Step, all: seq<Arrival>)
    requires LockInv(s) && ArrivalInv(s, all) && Enabled(s, st) && st.MsgLock?
    ensures ArrivalInv(Next(s, st), all)
  {
    var n, th := Next(s, st), s.threads[st.t];
    var e := Stamp(th.e, th.flagged);
    assert n == DoMsgLock(s, st.t);
    HandledSnoc(s.log, Handled(e, th.flagged, List(s, Key(e)), []));
    forall t | t in n.threads
      ensures !n.threads[t].MsgWantRead?
    {
      if t != st.t { assert !Conflict(s.threads[t], th); }
    }
  }

  lemma {:induction false} WaiterFrom(s: State, st: Step, n: State, t: Tid)
    requires t in n.threads && Origin(s, st, n, t) && !st.Arrive?
    ensures n.threads[t].MsgWantRead? ==> t in s.threads && s.threads[t] == n.threads[t]
  {
  }

  /** The waiting message stays where it is in every other step. */
  lemma {:induction false} WaitersStay(s: State, st: Step, t: Tid)
    requires Enabled(s, st) && !st.Arrive? && !st.MsgLock?
    ensures t in Next(s, st).threads && Next(s, st).threads[t].MsgWantRead? ==>
              t in s.threads && s.threads[t] == Next(s, st).threads[t]
    ensures t in s.threads && s.threads[t].MsgWantRead? ==>
              t in Next(s, st).threads && Next(s, st).threads[t] == s.threads[t]
  {
    var n := Next(s, st);
    if t in n.threads {
      OriginStep(s, st, t);
      WaiterFrom(s, st, n, t);
    }
    if t in s.threads && s.threads[t].MsgWantRead? { StaysPut(s, st, t); }
  }

  lemma {:induction false} HandledSame(s: State, st: Step)
    requires DispatchInv(s) && Enabled(s, st) && !st.MsgLock?
    ensures HandledOf(Next(s, st).log) == HandledOf(s.log)
  {
    LogStep(s, st);
    if st.MsgSend? || st.MsgDrop? {
      HandledRecord(s.log, Attempt(Receiver(s, st.t), st.MsgSend?));
    } else if st.ClsRemove? {
      HandledSnoc(s.log, Cleaned(CleanupKeys(s.receivers, s.threads[st.t].c)));
    }
  }

  lemma {:induction false} OthersNext(s: State, st: Step, all: seq<Arrival>)
    requires DispatchInv(s) && ArrivalInv(s, all) && Enabled(s, st) && !st.Arrive? && !st.MsgLock?
    ensures ArrivalInv(Next(s, st), all)
  {
    var n := Next(s, st);
    HandledSame(s, st);
    forall t
      ensures t in n.threads && n.threads[t].MsgWantRead? ==> t in s.threads && s.threads[t] == n.threads[t]
      ensures t in s.threads && s.threads[t].MsgWantRead? ==> t in n.threads && n.threads[t] == s.threads[t]
    {
      WaitersStay(s, st, t);
    }
  }

  lemma {:induction false} ArrivalStep(s: State, st: Step, all: seq<Arrival>)
    requires Traced(s) && ArrivalInv(s, all) && Enabled(s, st)
    ensures ArrivalInv(Next(s, st), all + ArrivalOf(st))
  {
    if st.Arrive? {
      ArrivesNext(s, st, all);
    } else {
      assert all + [] == all;
      if st.MsgLock? { HandledNext(s, st, all); } else { OthersNext(s, st, all); }
    }
  }

  lemma {:induction false} ArrivalsSplit(all: seq<Arrival>, run: seq<Step>)
    requires run != []
    ensures (all + ArrivalOf(run[0])) + Arrivals(run[1..]) == all + Arrivals(run)
  {
  }

  lemma {:induction false} ArrivalRun(s: State, run: seq<Step>, all: seq<Arrival>)
    requires Traced(s) && ArrivalInv(s, all) && Run(s, run)
    ensures ArrivalInv(After(s, run), all + Arrivals(run))
    decreases |run|
  {
    if run == [] {
      assert all + [] == all;
    } else {
      var n := Next(s, run[0]);
      ArrivalStep(s, run[0], all);
      TracedStep(s, run[0]);
      ArrivalsSplit(all, run);
      ArrivalRun(n, run[1..], all + ArrivalOf(run[0]));
    }
  }

  /** In every run the messages handled are the messages that arrived, in the order of
      their arrival and each of them once, with nothing changed but the RETAIN flag
      added; only the last one may still be waiting for the read lock. */
  lemma {:induction false} HandledAsArrived(run: seq<Step>)
    requires Run(INIT, run)
    ensures var s, all := After(INIT, run), Arrivals(run);
            var done := HandledOf(s.log);
            && (|done| == |all| || |done| + 1 == |all|)
            && (forall i :: 0 <= i < |done| ==>
                  && done[i].flagged == all[i].flagged
                  && done[i].e == Event(all[i].e.typeUrl, all[i].e.payload, all[i].e.retained || all[i].flagged))
            && (|done| < |all| <==> exists t :: t in s.threads && s.threads[t].MsgWantRead?)
  {
    InitTraced();
    assert ArrivalInv(INIT, []);
    ArrivalRun(INIT, run, []);
    assert [] + Arrivals(run) == Arrivals(run);
  }
}
