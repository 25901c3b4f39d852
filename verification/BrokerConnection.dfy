/** The rule "not before the first connection" is exact (internal/broker/broker.go:71-79
    and 110-118). */
module BrokerConnection {
  import opened Events
  import opened Topics
  import opened ReceiverLists
  import opened BrokerMachine
  import opened BrokerLocks
  import opened BrokerSafety
  import opened BrokerNecessity
  import opened BrokerTidiness

  // ----- before the first connection -----

  /** The goroutine is about to use b.conn, or could be there only because b.conn is set. */
  predicate UsesLink(th: Thread) {
    NeedsLink(th) || th.FlLeaving? || th.OcWantRead? || th.OcResub?
  }

  /** As long as Subscribe waits for the first connection, nothing has happened before it. */
  ghost predicate Unused(s: State) {
    !s.linked ==>
      && s.joins == [] && s.topics == {}
      && (forall u :: List(s, u) == []) && (forall c :: Ch(s, c).queue == [])
      && (forall t :: t in s.threads ==> !UsesLink(s.threads[t]))
  }

  lemma {:induction false} NothingCleaned(s: State, st: Step)
    requires Enabled(s, st) && st.ClsRemove? && forall u :: List(s, u) == []
    ensures CleanupKeys(s.receivers, s.threads[st.t].c) == {}
    ensures forall u :: List(Next(s, st), u) == []
    ensures Next(s, st).topics <= s.topics && Next(s, st).chans == s.chans
  {
    forall u
      ensures u !in CleanupKeys(s.receivers, s.threads[st.t].c)
      ensures List(Next(s, st), u) == []
    {
      assert List(s, u) == [];
    }
  }

  lemma {:induction false} LeadsToUse(a: Thread, b: Thread, losses: nat)
    requires Leads(a, b, losses) && UsesLink(b)
    ensures UsesLink(a) || a.SubAnnounced? || a.OcWantConn?
  {
  }

  lemma {:induction false} NothingUses(s: State, st: Step, n: State, t: Tid)
    requires !n.linked && Unused(s) && !st.SubAppend? && !s.linked
    requires t in n.threads && Origin(s, st, n, t)
    requires st.LockConn? && st.t in s.threads && s.threads[st.t].OcWantConn? ==> n.linked
    requires st.ClsRemove? && st.t in s.threads && s.threads[st.t].ClsAnnounced? ==>
               CleanupKeys(s.receivers, s.threads[st.t].c) == {}
    ensures !UsesLink(n.threads[t])
  {
    if t in s.threads && n.threads[t] != s.threads[t] && UsesLink(n.threads[t]) {
      LeadsToUse(s.threads[t], n.threads[t], s.losses);
    }
  }

  lemma {:induction false} NothingSent(s: State, st: Step)
    requires Unused(s) && Enabled(s, st) && !s.linked
    ensures !st.MsgSend? && !st.SubGreet? && !st.FlStore?
  {
    if st.SubGreet? || st.FlStore? { assert NeedsLink(s.threads[st.t]); }
  }

  lemma {:induction false} QueuesSet(s: State, st: Step, c: Chan)
    requires Enabled(s, st)
    requires st.ContextDone? || st.Take? || st.StopConsumer? || st.ClsClose?
    ensures |Ch(Next(s, st), c).queue| <= |Ch(s, c).queue|
  {
  }

  lemma {:induction false} QueuesEmpty(s: State, st: Step, c: Chan)
    requires Unused(s) && Enabled(s, st) && !s.linked
    ensures Ch(Next(s, st), c).queue == []
  {
    NothingSent(s, st);
    assert Ch(s, c).queue == [];
    if st.ContextDone? || st.Take? || st.StopConsumer? || st.ClsClose? {
      QueuesSet(s, st, c);
    } else {
      FrameStep(s, st);
    }
  }

  lemma {:induction false} UnusedStep(s: State, st: Step)
    requires Unused(s) && Enabled(s, st) && Linked(s, st)
    ensures Unused(Next(s, st))
  {
    var n := Next(s, st);
    StaysLinked(s, st);
    if !n.linked {
      FrameStep(s, st);
      NothingSent(s, st);
      if st.ClsRemove? { NothingCleaned(s, st); }
      forall c ensures Ch(n, c).queue == [] { QueuesEmpty(s, st, c); }
      forall u ensures List(n, u) == [] { assert List(s, u) == []; }
      forall t | t in n.threads ensures !UsesLink(n.threads[t]) {
        OriginStep(s, st, t);
        NothingUses(s, st, n, t);
      }
    }
  }

  lemma {:induction false} UnusedRun(s: State, run: seq<Step>)
    requires LockInv(s) && Unused(s) && Run(s, run) && Along(Linked, s, run)
    ensures LockInv(After(s, run)) && Unused(After(s, run))
    decreases |run|
  {
    if run != [] {
      UnusedStep(s, run[0]);
      LockAfter(s, run[0]);
      UnusedRun(Next(s, run[0]), run[1..]);
    }
  }

  // ----- when the connection is never missing -----

  lemma {:induction false} LinkedCalls(s: State, st: Step)
    requires Enabled(s, st) && (st.FlCall? || st.UnCall?) && s.linked
    ensures Next(s, st).crash != Some(NilConn)
  {
  }

  lemma {:induction false} SendPanicKind(s: State, st: Step)
    requires Enabled(s, st) && (st.MsgSend? || st.SubGreet? || st.ClsClose?)
    ensures Next(s, st).crash != Some(NilConn)
  {
    if st.MsgSend? { assert Next(s, st) == DoMsgSend(s, st.t); }
    else if st.SubGreet? { assert Next(s, st) == DoSubGreet(s, st.t); }
    else { assert Next(s, st) == DoClsClose(s, st.t); }
  }

  /** The call on a nil connection happens in FlCall and UnCall only. */
  lemma {:induction false} NilCalls(s: State, st: Step)
    requires Enabled(s, st) && Next(s, st).crash == Some(NilConn)
    ensures (st.FlCall? || st.UnCall?) && !s.linked
  {
    if st.MsgSend? || st.SubGreet? || st.ClsClose? {
      SendPanicKind(s, st);
    } else if st.FlCall? || st.UnCall? {
      if s.linked { LinkedCalls(s, st); }
    } else {
      OthersNeverPanic(s, st);
    }
  }

  lemma {:induction false} LinkedNeverNil(s: State, run: seq<Step>)
    requires s.linked && s.crash != Some(NilConn) && Run(s, run)
    ensures After(s, run).crash != Some(NilConn)
    decreases |run|
  {
    if run != [] {
      StaysLinked(s, run[0]);
      if Next(s, run[0]).crash == Some(NilConn) { NilCalls(s, run[0]); }
      LinkedNeverNil(Next(s, run[0]), run[1..]);
    }
  }

  /** `t` is sending to a closed channel, and nobody else is about to use b.conn. */
  ghost predicate Doomed(s: State, t: Tid) {
    && t in s.threads && s.threads[t].SubGreeting? && Ch(s, s.threads[t].c).closed
    && forall q :: q in s.threads && q != t ==> !NeedsLink(s.threads[q])
  }

  lemma {:induction false} DoomedOthers(s: State, t: Tid, st: Step, n: State, q: Tid)
    requires Doomed(s, t) && q in n.threads && q != t && Origin(s, st, n, q)
    requires !st.SubAppend? && !st.ClsRemove?
    ensures !NeedsLink(n.threads[q])
  {
    if NeedsLink(n.threads[q]) { LinkersFrom(s, st, n, q); }
  }

  lemma {:induction false} DoomedHolds(s: State, t: Tid, st: Step)
    requires LockInv(s) && Doomed(s, t) && Enabled(s, st) && !st.SubGreet?
    ensures Doomed(Next(s, st), t)
  {
    var n := Next(s, st);
    NoOtherSender(s, st, t);
    StaysPut(s, st, t);
    DoneStep(s, st, s.threads[t].c);
    forall q | q in n.threads && q != t
      ensures !NeedsLink(n.threads[q])
    {
      OriginStep(s, st, q);
      DoomedOthers(s, t, st, n, q);
    }
  }

  lemma {:induction false} DoomedSends(s: State, t: Tid, st: Step)
    requires LockInv(s) && Doomed(s, t) && Enabled(s, st) && st.SubGreet?
    ensures Next(s, st).crash == Some(SendOnClosed)
  {
    NoOtherSender(s, st, t);
    assert Next(s, st) == DoSubGreet(s, st.t);
  }

  lemma {:induction false} DoomedCalls(s: State, t: Tid, st: Step)
    requires Doomed(s, t) && Enabled(s, st)
    ensures !st.FlCall? && !st.UnCall?
  {
  }

  lemma {:induction false} DoomedNeverNil(s: State, t: Tid, run: seq<Step>)
    requires LockInv(s) && Doomed(s, t) && s.crash == None && Run(s, run)
    ensures After(s, run).crash != Some(NilConn)
    decreases |run|
  {
    if run != [] {
      var n := Next(s, run[0]);
      DoomedCalls(s, t, run[0]);
      if n.crash == Some(NilConn) { NilCalls(s, run[0]); }
      if run[0].SubGreet? { DoomedSends(s, t, run[0]); }
      if n.crash == None {
        DoomedHolds(s, t, run[0]);
        LockAfter(s, run[0]);
        DoomedNeverNil(n, t, run[1..]);
      }
    }
  }

  // ----- when it can be -----

  /** `t` is in a Subscribe before the first connection, and nobody else uses b.conn. */
  ghost predicate Early(s: State, t: Tid) {
    && LockInv(s) && s.crash == None && !s.linked && s.topics == {} && t in s.threads
    && forall q :: q in s.threads && q != t ==> !UsesLink(s.threads[q])
  }

  lemma {:induction false} PublishEnds(s: State, p: Tid) returns (n: State)
    requires LockInv(s) && s.crash == None && p in s.threads && s.threads[p].PubHasConn?
    ensures Enabled(s, PubCall(p)) && n == Next(s, PubCall(p)) && n == s.(threads := s.threads - {p}) && ConnFree(n)
  {
    n := Next(s, PubCall(p));
    assert n == s.(threads := s.threads - {p});
    forall q | q in n.threads ensures !HoldsConn(n.threads[q]) { assert !Conflict(s.threads[q], s.threads[p]); }
  }

  /** A Publish that holds connLock finishes. */
  lemma {:induction false} ConnFrees(s: State, t: Tid) returns (run: seq<Step>, n: State)
    requires Early(s, t) && !HoldsConn(s.threads[t])
    ensures Run(s, run) && After(s, run) == n && Appendless(run)
    ensures Early(n, t) && ConnFree(n) && n.threads[t] == s.threads[t]
  {
    if p :| p in s.threads && HoldsConn(s.threads[p]) {
      assert s.threads[p].PubHasConn?;
      n := PublishEnds(s, p);
      LockAfter(s, PubCall(p));
      RunOne(s, PubCall(p));
      run := [PubCall(p)];
    } else {
      run, n := [], s;
    }
  }

  lemma {:induction false} StartCrashes(s: State, t: Tid, u: string) returns (run: seq<Step>)
    requires Early(s, t) && s.threads[t] == GoStart(u)
    ensures Run(s, run) && After(s, run).crash == Some(NilConn) && Appendless(run)
  {
    var run1, s1 := ConnFrees(s, t);
    assert FlightReady(s1, t, u);
    var rest := FlightCrashes(s1, t, u);
    RunConcat(s, run1, rest);
    run := run1 + rest;
  }

  lemma {:induction false} FinishLeads(s: State, t: Tid, c: Chan, u: string) returns (n: State)
    requires Early(s, t) && s.threads[t] == SubFinishing(c, u)
    ensures Enabled(s, SubFinish(t)) && n == Next(s, SubFinish(t)) && Early(n, t) && n.threads[t] == GoStart(u)
  {
    n := Next(s, SubFinish(t));
    assert n == s.(threads := s.threads[t := GoStart(u)]);
    LockAfter(s, SubFinish(t));
  }

  lemma {:induction false} FinishCrashes(s: State, t: Tid, c: Chan, u: string) returns (run: seq<Step>)
    requires Early(s, t) && s.threads[t] == SubFinishing(c, u)
    ensures Run(s, run) && After(s, run).crash == Some(NilConn) && Appendless(run)
  {
    var n := FinishLeads(s, t, c, u);
    var rest := StartCrashes(n, t, u);
    RunCons(s, SubFinish(t), rest);
    run := [SubFinish(t)] + rest;
  }

  lemma {:induction false} GreetLeads(s: State, t: Tid) returns (n: State)
    requires Early(s, t) && s.threads[t].SubGreeting? && NoReader(s)
    requires !Ch(s, s.threads[t].c).closed && Ch(s, s.threads[t].c).queue == []
    ensures Enabled(s, SubGreet(t)) && n == Next(s, SubGreet(t)) && Early(n, t)
    ensures n.threads[t] == SubFinishing(s.threads[t].c, s.threads[t].u)
  {
    n := GreetStepGoes(s, t);
    FrameStep(s, SubGreet(t));
  }

  lemma {:induction false} GreetingCrashes(s: State, t: Tid) returns (run: seq<Step>)
    requires Early(s, t) && s.threads[t].SubGreeting? && NoReader(s)
    requires !Ch(s, s.threads[t].c).closed && Ch(s, s.threads[t].c).queue == []
    ensures Run(s, run) && After(s, run).crash == Some(NilConn) && Appendless(run)
  {
    var n := GreetLeads(s, t);
    var rest := FinishCrashes(n, t, s.threads[t].c, s.threads[t].u);
    RunCons(s, SubGreet(t), rest);
    run := [SubGreet(t)] + rest;
  }

  lemma {:induction false} AppendlessIsLinked(s: State, run: seq<Step>)
    requires Run(s, run) && Appendless(run)
    ensures Along(Linked, s, run)
    decreases |run|
  {
    if run != [] {
      assert Appendless(run[1..]);
      AppendlessIsLinked(Next(s, run[0]), run[1..]);
    }
  }

  /** From here a run that keeps the rule can end in a call on a nil connection. */
  ghost predicate CanCallNil(s: State) {
    exists run :: Run(s, run) && Along(Linked, s, run) && After(s, run).crash == Some(NilConn)
  }

  lemma {:induction false} EarlyAppend(s: State, t: Tid) returns (n: State)
    requires LockInv(s) && Unused(s) && Enabled(s, SubAppend(t)) && !s.linked
    ensures n == Next(s, SubAppend(t)) && Early(n, t) && NoReader(n) && n.chans == s.chans
    ensures var c, u := s.threads[t].c, s.threads[t].u;
            n.threads[t] == if u in s.retained then SubGreeting(c, u, s.retained[u]) else SubFinishing(c, u)
  {
    n := AppendLeads(s, t);
    FrameStep(s, SubAppend(t));
  }

  /** In every state that a run within the rule can reach, the Subscribe that is about to
      append can lead to a call on a nil connection if and only if there has been no
      connection yet and no greeting of it meets a closed channel first. */
  lemma {:induction false} NilConnIsExact(run: seq<Step>, t: Tid)
    requires Run(INIT, run) && Along(Linked, INIT, run)
    requires Enabled(After(INIT, run), SubAppend(t))
    ensures var s := After(INIT, run);
            var c, u := s.threads[t].c, s.threads[t].u;
            CanCallNil(Next(s, SubAppend(t))) <==> !s.linked && (u in s.retained ==> !Ch(s, c).closed)
  {
    var s := After(INIT, run);
    var c, u := s.threads[t].c, s.threads[t].u;
    UnusedRun(INIT, run);
    var n := Next(s, SubAppend(t));
    if s.linked {
      StaysLinked(s, SubAppend(t));
      OthersNeverPanic(s, SubAppend(t));
      forall rest | Run(n, rest) ensures After(n, rest).crash != Some(NilConn) { LinkedNeverNil(n, rest); }
    } else {
      var n0 := EarlyAppend(s, t);
      var rest;
      if u !in s.retained {
        rest := FinishCrashes(n, t, c, u);
        AppendlessIsLinked(n, rest);
      } else if !Ch(s, c).closed {
        rest := GreetingCrashes(n, t);
        AppendlessIsLinked(n, rest);
      } else {
        forall rest | Run(n, rest) ensures After(n, rest).crash != Some(NilConn) { DoomedNeverNil(n, t, rest); }
      }
    }
  }
}
