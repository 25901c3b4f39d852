/** The rules that the results about whole runs assume are needed: from each state of a
    whole family, breaking one of them leads to the failure. BrokerWitness reaches
    states of these families from the initial state. */
module BrokerNecessity {
  import opened Events
  import opened Topics
  import opened ReceiverLists
  import opened BrokerMachine
  import opened BrokerLocks
  import opened BrokerSafety

  // ----- kinds of runs -----

  /** Nothing arrives, nobody leaves, and the session loses nothing and has all it should. */
  predicate CalmStep(st: Step) {
    TruthfulStep(st) && !st.Arrive? && !st.ConnectionLost? && !st.UnCall? && !st.ClsRemove? && !st.ContextDone?
  }

  predicate Calm(run: seq<Step>) {
    forall i :: 0 <= i < |run| ==> CalmStep(run[i])
  }

  /** A stream ends. */
  predicate LeavingStep(st: Step) {
    st.ContextDone? || st.Announce? || st.ClsRemove? || st.ClsClose?
  }

  predicate Leaving(run: seq<Step>) {
    forall i :: 0 <= i < |run| ==> LeavingStep(run[i])
  }

  /** The session keeps what it has, and what arrives was published to `topic`. */
  predicate SteadyStep(st: Step, topic: string) {
    !st.ConnectionLost? && !st.UnCall? && (st.Arrive? ==> MakeTopic(st.e.typeUrl) == topic)
  }

  predicate Steady(run: seq<Step>, topic: string) {
    forall i :: 0 <= i < |run| ==> SteadyStep(run[i], topic)
  }

  lemma {:induction false} CalmIsSteady(run: seq<Step>, topic: string)
    requires Calm(run)
    ensures Steady(run, topic)
  {
    forall i | 0 <= i < |run|
      ensures SteadyStep(run[i], topic)
    {
      assert CalmStep(run[i]);
    }
  }

  lemma {:induction false} SteadyConcat(a: seq<Step>, b: seq<Step>, topic: string)
    requires Calm(a) || Leaving(a) || Steady(a, topic)
    requires Steady(b, topic)
    ensures Steady(a + b, topic)
  {
    forall i | 0 <= i < |a|
      ensures SteadyStep(a[i], topic)
    {
      assert Calm(a) ==> CalmStep(a[i]);
      assert Leaving(a) ==> LeavingStep(a[i]);
    }
  }

  /** Whoever subscribes, subscribes `u`, and success means that the server has granted it. */
  predicate AsksStep(st: Step, u: string) {
    TruthfulStep(st) && (st.Request? ==> st.u == u)
  }

  predicate Asks(run: seq<Step>, u: string) {
    forall i :: 0 <= i < |run| ==> AsksStep(run[i], u)
  }

  lemma {:induction false} LeavingAsks(run: seq<Step>, u: string)
    requires Leaving(run)
    ensures Asks(run, u)
  {
    forall i | 0 <= i < |run|
      ensures AsksStep(run[i], u)
    {
      assert LeavingStep(run[i]);
    }
  }

  lemma {:induction false} RunAsks(s: State, a: seq<Step>, b: seq<Step>, u: string)
    requires Run(s, a) && Run(After(s, a), b) && Asks(a, u) && Asks(b, u)
    ensures Run(s, a + b) && After(s, a + b) == After(After(s, a), b) && Asks(a + b, u)
  {
    RunConcat(s, a, b);
  }

  /** No Subscribe gets as far as the lists. */
  predicate Appendless(run: seq<Step>) {
    forall i :: 0 <= i < |run| ==> !run[i].SubAppend?
  }

  lemma {:induction false} AlongConcat(guard: (State, Step) -> bool, s: State, a: seq<Step>, b: seq<Step>)
    requires Run(s, a) && Run(After(s, a), b) && Run(s, a + b)
    requires Along(guard, s, a) && Along(guard, After(s, a), b)
    ensures Along(guard, s, a + b)
    decreases |a|
  {
    if a == [] {
      assert a + b == b;
    } else {
      assert (a + b)[1..] == a[1..] + b;
      AlongConcat(guard, Next(s, a[0]), a[1..], b);
    }
  }

  lemma {:induction false} AppendlessIsTidy(s: State, run: seq<Step>)
    requires Run(s, run) && Appendless(run)
    ensures Along(Tidy, s, run)
    decreases |run|
  {
    if run != [] {
      assert Appendless(run[1..]);
      AppendlessIsTidy(Next(s, run[0]), run[1..]);
    }
  }

  /** Nobody holds or awaits `l`, and no message is being handled. */
  ghost predicate Idle(s: State) {
    s.crash == None && NoWriter(s) && NoReader(s) && NoMessage(s)
  }

  // ----- a dispatch that has a closed channel ahead panics -----

  lemma {:induction false} DispatchMoves(s: State, st: Step, t: Tid, c: Chan)
    requires Enabled(s, st) && (st == MsgSend(t) || st == MsgDrop(t)) && !Ch(s, Receiver(s, t)).closed
    ensures var n, th := Next(s, st), s.threads[t];
            && n.crash == None && n.receivers == s.receivers
            && t in n.threads && n.threads[t] == MsgSending(th.e, th.i + 1)
            && Ch(n, c).closed == Ch(s, c).closed
  {
  }

  lemma {:induction false} DispatchPanics(s: State, t: Tid, j: nat) returns (run: seq<Step>)
    requires s.crash == None && t in s.threads && s.threads[t].MsgSending?
    requires s.threads[t].i <= j < |List(s, Key(s.threads[t].e))|
    requires Ch(s, List(s, Key(s.threads[t].e))[j]).closed
    ensures Run(s, run) && After(s, run).crash == Some(SendOnClosed)
    ensures Calm(run) && Appendless(run)
    decreases j - s.threads[t].i
  {
    var ch := Ch(s, Receiver(s, t));
    var st := if ch.closed || |ch.queue| < CAPACITY then MsgSend(t) else MsgDrop(t);
    var n := Next(s, st);
    if ch.closed {
      RunCons(s, st, []);
      run := [st];
    } else {
      DispatchMoves(s, st, t, List(s, Key(s.threads[t].e))[j]);
      var rest := DispatchPanics(n, t, j);
      RunCons(s, st, rest);
      run := [st] + rest;
    }
  }

  /** A message of the type URL arrives and takes the read lock. */
  lemma {:induction false} EventBegins(s: State, u: string, t: Tid) returns (run: seq<Step>, n: State)
    requires Idle(s) && t !in s.threads
    ensures Run(s, run) && After(s, run) == n && n.crash == None && n.receivers == s.receivers && n.chans == s.chans
    ensures t in n.threads && n.threads[t] == MsgSending(Event(FullUrl(u), 0, false), 0)
    ensures Steady(run, MakeTopic(FullUrl(u))) && Appendless(run)
  {
    var e := Event(FullUrl(u), 0, false);
    var s1 := Next(s, Arrive(e, false, t));
    assert s1 == s.(threads := s.threads[t := MsgWantRead(e, false)]);
    n := Next(s1, MsgLock(t));
    RunOne(s1, MsgLock(t));
    RunCons(s, Arrive(e, false, t), [MsgLock(t)]);
    run := [Arrive(e, false, t)] + [MsgLock(t)];
  }

  /** If a closed channel is registered, the next event of that type panics. */
  lemma {:induction false} EventPanics(s: State, c: Chan, u: string) returns (run: seq<Step>)
    requires Idle(s) && c in List(s, u) && Ch(s, c).closed
    ensures Run(s, run) && After(s, run).crash == Some(SendOnClosed)
    ensures Steady(run, MakeTopic(FullUrl(u))) && Appendless(run)
  {
    var t := FreshTid(s.threads.Keys);
    assert t !in s.threads;
    FullUrlReachesKey(u);
    var run1, n := EventBegins(s, u, t);
    var j :| 0 <= j < |List(s, u)| && List(s, u)[j] == c;
    var rest := DispatchPanics(n, t, j);
    RunConcat(s, run1, rest);
    CalmIsSteady(rest, MakeTopic(FullUrl(u)));
    SteadyConcat(run1, rest, MakeTopic(FullUrl(u)));
    run := run1 + rest;
  }

  // ----- one Subscribe, run alone -----

  /** Everything but the threads, the lists, the joins and the channels is as it was. */
  ghost predicate SameBroker(s: State, n: State) {
    && n.crash == s.crash && n.topics == s.topics && n.retained == s.retained && n.linked == s.linked
    && n.up == s.up && n.session == s.session && n.losses == s.losses && n.synced == s.synced
    && n.removed == s.removed && n.failed == s.failed
  }

  /** `c` may still subscribe `u`. */
  ghost predicate MayJoin(s: State, c: Chan, u: string) {
    c !in s.removed && !HasJoined(s, c, u)
  }

  lemma {:induction false} AppendLast(s: State, before: map<Tid, Thread>, c: Chan, u: string, t: Tid)
    requires Enabled(s, SubAppend(t)) && s.threads == before[t := SubAnnounced(c, u)]
    ensures var n := Next(s, SubAppend(t));
            && SameBroker(s, n) && n.chans == s.chans && n.receivers == AppendTo(s.receivers, u, c)
            && n.joins == s.joins + [Join(c, u, |s.log|, Cached(s, u))]
            && (MayJoin(s, c, u) ==> Tidy(s, SubAppend(t)))
            && n.threads ==
               before[t := if u in s.retained then SubGreeting(c, u, s.retained[u]) else SubFinishing(c, u)]
  {
  }

  lemma {:induction false} AppendAnnounced(s: State, c: Chan, u: string, t: Tid) returns (run: seq<Step>, n: State)
    requires Idle(s) && t !in s.threads
    ensures Run(s, run) && After(s, run) == n && Calm(run) && Asks(run, u) && Appendless(run)
    ensures n == s.(threads := s.threads[t := SubAnnounced(c, u)])
  {
    var s1 := Next(s, Request(c, u, t));
    assert s1 == s.(threads := s.threads[t := SubWantWrite(c, u)]);
    n := Next(s1, Announce(t));
    assert s.threads[t := SubWantWrite(c, u)][t := SubAnnounced(c, u)] == s.threads[t := SubAnnounced(c, u)];
    RunOne(s1, Announce(t));
    RunCons(s, Request(c, u, t), [Announce(t)]);
    run := [Request(c, u, t)] + [Announce(t)];
  }

  lemma {:induction false} RunLast(s: State, run: seq<Step>, st: Step)
    requires Run(s, run) && Enabled(After(s, run), st)
    ensures Run(s, run + [st]) && After(s, run + [st]) == Next(After(s, run), st)
  {
    RunOne(After(s, run), st);
    RunConcat(s, run, [st]);
  }

  lemma {:induction false} TidyLast(s: State, run: seq<Step>, st: Step)
    requires Run(s, run) && Appendless(run) && Enabled(After(s, run), st) && Tidy(After(s, run), st)
    ensures Run(s, run + [st]) && After(s, run + [st]) == Next(After(s, run), st) && Along(Tidy, s, run + [st])
  {
    RunLast(s, run, st);
    AppendlessIsTidy(s, run);
    RunOne(After(s, run), st);
    assert [st][1..] == [];
    AlongConcat(Tidy, s, run, [st]);
  }

  lemma {:induction false} AppendAlone(s: State, c: Chan, u: string, t: Tid) returns (run: seq<Step>, n: State)
    requires Idle(s) && t !in s.threads
    ensures Run(s, run) && After(s, run) == n && SameBroker(s, n) && n.chans == s.chans
    ensures n.receivers == AppendTo(s.receivers, u, c) && n.joins == s.joins + [Join(c, u, |s.log|, Cached(s, u))]
    ensures n.threads ==
            s.threads[t := if u in s.retained then SubGreeting(c, u, s.retained[u]) else SubFinishing(c, u)]
    ensures Calm(run) && Asks(run, u) && (MayJoin(s, c, u) ==> Along(Tidy, s, run))
  {
    var run1, s2 := AppendAnnounced(s, c, u, t);
    n := Next(s2, SubAppend(t));
    AppendLast(s2, s.threads, c, u, t);
    RunLast(s, run1, SubAppend(t));
    run := run1 + [SubAppend(t)];
    if MayJoin(s, c, u) { TidyLast(s, run1, SubAppend(t)); }
  }

  /** What a complete Subscribe leaves behind; its thread is left over as the goroutine
      that subscribes `u`, if one is needed. */
  ghost predicate Joined(s: State, n: State, c: Chan, u: string, t: Tid) {
    && SameBroker(s, n) && n.receivers == AppendTo(s.receivers, u, c)
    && n.joins == s.joins + [Join(c, u, |s.log|, Cached(s, u))]
    && n.threads == (if u in s.topics then s.threads else s.threads[t := GoStart(u)])
    && (forall d :: Ch(n, d).closed == Ch(s, d).closed && Ch(n, d).done == Ch(s, d).done)
    && (forall d :: d != c ==> Ch(n, d) == Ch(s, d))
    && |Ch(n, c).queue| <= |Ch(s, c).queue| + 1
  }

  lemma {:induction false} FinishAlone(s: State, before: map<Tid, Thread>, c: Chan, u: string, t: Tid)
    returns (n: State)
    requires s.crash == None && t !in before && s.threads == before[t := SubFinishing(c, u)]
    ensures Run(s, [SubFinish(t)]) && After(s, [SubFinish(t)]) == n && SameBroker(s, n)
    ensures n.chans == s.chans && n.receivers == s.receivers && n.joins == s.joins
    ensures n.threads == if u in s.topics then before else before[t := GoStart(u)]
  {
    n := Next(s, SubFinish(t));
    assert before[t := SubFinishing(c, u)] - {t} == before;
    RunOne(s, SubFinish(t));
  }

  lemma {:induction false} GreetAlone(s: State, before: map<Tid, Thread>, c: Chan, u: string, e: Event, t: Tid)
    returns (n: State)
    requires s.crash == None && t !in before && s.threads == before[t := SubGreeting(c, u, e)]
    requires !Ch(s, c).closed && |Ch(s, c).queue| < CAPACITY
    ensures Run(s, [SubGreet(t)]) && After(s, [SubGreet(t)]) == n && SameBroker(s, n)
    ensures n.receivers == s.receivers && n.joins == s.joins && n.threads == before[t := SubFinishing(c, u)]
    ensures forall d :: Ch(n, d).closed == Ch(s, d).closed && Ch(n, d).done == Ch(s, d).done
    ensures forall d :: d != c ==> Ch(n, d) == Ch(s, d)
    ensures |Ch(n, c).queue| == |Ch(s, c).queue| + 1
  {
    n := Next(s, SubGreet(t));
    RunOne(s, SubGreet(t));
  }

  lemma {:induction false} GreetFinishAlone(s: State, before: map<Tid, Thread>, c: Chan, u: string, e: Event, t: Tid)
    returns (run: seq<Step>, n: State)
    requires s.crash == None && t !in before && s.threads == before[t := SubGreeting(c, u, e)]
    requires !Ch(s, c).closed && |Ch(s, c).queue| < CAPACITY
    ensures Run(s, run) && After(s, run) == n && SameBroker(s, n) && Calm(run) && Asks(run, u) && Appendless(run)
    ensures n.receivers == s.receivers && n.joins == s.joins
    ensures n.threads == if u in s.topics then before else before[t := GoStart(u)]
    ensures forall d :: Ch(n, d).closed == Ch(s, d).closed && Ch(n, d).done == Ch(s, d).done
    ensures forall d :: d != c ==> Ch(n, d) == Ch(s, d)
    ensures |Ch(n, c).queue| == |Ch(s, c).queue| + 1
  {
    var s2 := GreetAlone(s, before, c, u, e, t);
    n := FinishAlone(s2, before, c, u, t);
    RunConcat(s, [SubGreet(t)], [SubFinish(t)]);
    run := [SubGreet(t)] + [SubFinish(t)];
  }

  lemma {:induction false} CalmThen(s: State, a: seq<Step>, b: seq<Step>, u: string)
    requires Run(s, a) && Run(After(s, a), b) && Calm(a) && Calm(b) && Asks(a, u) && Asks(b, u)
    ensures Run(s, a + b) && After(s, a + b) == After(After(s, a), b) && Calm(a + b) && Asks(a + b, u)
  {
    RunConcat(s, a, b);
  }

  /** A run that appends first and then no more. */
  lemma {:induction false} TidyThen(s: State, a: seq<Step>, b: seq<Step>)
    requires Run(s, a) && Run(After(s, a), b) && Appendless(b)
    requires Along(Tidy, s, a)
    ensures Run(s, a + b) && Along(Tidy, s, a + b)
  {
    RunConcat(s, a, b);
    AppendlessIsTidy(After(s, a), b);
    AlongConcat(Tidy, s, a, b);
  }

  lemma {:induction false} GreetingJoins(s: State, s1: State, n: State, c: Chan, u: string, t: Tid)
    requires t !in s.threads && SameBroker(s, s1) && SameBroker(s1, n) && s1.chans == s.chans
    requires s1.receivers == AppendTo(s.receivers, u, c) && s1.joins == s.joins + [Join(c, u, |s.log|, Cached(s, u))]
    requires n.receivers == s1.receivers && n.joins == s1.joins
    requires n.threads == if u in s1.topics then s.threads else s.threads[t := GoStart(u)]
    requires forall d :: Ch(n, d).closed == Ch(s1, d).closed && Ch(n, d).done == Ch(s1, d).done
    requires forall d :: d != c ==> Ch(n, d) == Ch(s1, d)
    requires |Ch(n, c).queue| == |Ch(s1, c).queue| + 1
    ensures Joined(s, n, c, u, t)
  {
  }

  lemma {:induction false} SubscribeCached(s: State, c: Chan, u: string, t: Tid) returns (run: seq<Step>, n: State)
    requires Idle(s) && t !in s.threads && !Ch(s, c).closed && |Ch(s, c).queue| < CAPACITY && u in s.retained
    ensures Run(s, run) && After(s, run) == n && Joined(s, n, c, u, t)
    ensures Calm(run) && Asks(run, u) && (MayJoin(s, c, u) ==> Along(Tidy, s, run))
  {
    var run1, s1 := AppendAlone(s, c, u, t);
    var run2;
    run2, n := GreetFinishAlone(s1, s.threads, c, u, s.retained[u], t);
    GreetingJoins(s, s1, n, c, u, t);
    CalmThen(s, run1, run2, u);
    run := run1 + run2;
    if MayJoin(s, c, u) { TidyThen(s, run1, run2); }
  }

  lemma {:induction false} SubscribePlain(s: State, c: Chan, u: string, t: Tid) returns (run: seq<Step>, n: State)
    requires Idle(s) && t !in s.threads && u !in s.retained
    ensures Run(s, run) && After(s, run) == n && Joined(s, n, c, u, t) && n.chans == s.chans
    ensures Calm(run) && Asks(run, u) && (MayJoin(s, c, u) ==> Along(Tidy, s, run))
  {
    var run1, s1 := AppendAlone(s, c, u, t);
    n := FinishAlone(s1, s.threads, c, u, t);
    CalmThen(s, run1, [SubFinish(t)], u);
    run := run1 + [SubFinish(t)];
    if MayJoin(s, c, u) { TidyThen(s, run1, [SubFinish(t)]); }
  }

  /** A complete Subscribe by a stream that has room for a greeting. */
  lemma {:induction false} SubscribeAlone(s: State, c: Chan, u: string, t: Tid) returns (run: seq<Step>, n: State)
    requires Idle(s) && t !in s.threads && !Ch(s, c).closed && |Ch(s, c).queue| < CAPACITY
    ensures Run(s, run) && After(s, run) == n && Joined(s, n, c, u, t)
    ensures Calm(run) && Asks(run, u) && (MayJoin(s, c, u) ==> Along(Tidy, s, run))
  {
    if u in s.retained {
      run, n := SubscribeCached(s, c, u, t);
    } else {
      run, n := SubscribePlain(s, c, u, t);
    }
  }

  lemma {:induction false} IdleAfter(s: State, n: State, u: string, t: Tid)
    requires Idle(s) && n.crash == None
    requires n.threads == if u in s.topics then s.threads else s.threads[t := GoStart(u)]
    ensures Idle(n)
  {
  }

  // ----- the end of a stream, run alone -----

  lemma {:induction false} RemoveAnnounced(s: State, c: Chan, t: Tid) returns (n: State)
    requires Idle(s) && t !in s.threads && !Ch(s, c).done
    ensures Run(s, [ContextDone(c, t), Announce(t)]) && After(s, [ContextDone(c, t), Announce(t)]) == n
    ensures n == s.(threads := s.threads[t := ClsAnnounced(c)], chans := s.chans[c := Ch(s, c).(done := true)])
  {
    var s1 := Next(s, ContextDone(c, t));
    assert s1 == s.(threads := s.threads[t := ClsWantWrite(c)], chans := s.chans[c := Ch(s, c).(done := true)]);
    n := Next(s1, Announce(t));
    assert s.threads[t := ClsWantWrite(c)][t := ClsAnnounced(c)] == s.threads[t := ClsAnnounced(c)];
    RunOne(s1, Announce(t));
    RunCons(s, ContextDone(c, t), [Announce(t)]);
    assert [ContextDone(c, t)] + [Announce(t)] == [ContextDone(c, t), Announce(t)];
  }

  lemma {:induction false} RemoveEffect(s: State, before: map<Tid, Thread>, c: Chan, t: Tid, g: Tid) returns (n: State)
    requires Enabled(s, ClsRemove(t, g)) && s.threads == before[t := ClsAnnounced(c)]
    ensures n == Next(s, ClsRemove(t, g)) && n.crash == None
    ensures n.receivers == RemoveEverywhere(s.receivers, c) && n.topics == s.topics - CleanupKeys(s.receivers, c)
    ensures n.chans == s.chans && n.linked == s.linked
    ensures n.up == s.up && n.session == s.session && n.synced == s.synced && n.losses == s.losses
    ensures n.failed == s.failed
    ensures n.retained == s.retained - CleanupKeys(s.receivers, c)
    ensures n.threads == if CleanupKeys(s.receivers, c) == {} then before[t := ClsRemoved(c)]
                         else before[t := ClsRemoved(c)][g := UnWantConn(CleanupKeys(s.receivers, c))]
  {
    n := Next(s, ClsRemove(t, g));
    assert s.threads[t := ClsRemoved(c)] == before[t := ClsRemoved(c)];
  }

  lemma {:induction false} RemoveAlone(s: State, c: Chan, t: Tid, g: Tid) returns (run: seq<Step>, n: State)
    requires Idle(s) && t !in s.threads && g !in s.threads && t != g && !Ch(s, c).done
    ensures Run(s, run) && After(s, run) == n && n.crash == None
    ensures n.receivers == RemoveEverywhere(s.receivers, c) && n.topics == s.topics - CleanupKeys(s.receivers, c)
    ensures n.chans == s.chans[c := Ch(s, c).(done := true)] && n.linked == s.linked
    ensures n.up == s.up && n.session == s.session && n.synced == s.synced && n.losses == s.losses
    ensures n.failed == s.failed
    ensures n.retained == s.retained - CleanupKeys(s.receivers, c) && Leaving(run)
    ensures n.threads == if CleanupKeys(s.receivers, c) == {} then s.threads[t := ClsRemoved(c)]
                         else s.threads[t := ClsRemoved(c)][g := UnWantConn(CleanupKeys(s.receivers, c))]
  {
    var s2 := RemoveAnnounced(s, c, t);
    n := RemoveEffect(s2, s.threads, c, t, g);
    RunOne(s2, ClsRemove(t, g));
    RunConcat(s, [ContextDone(c, t), Announce(t)], [ClsRemove(t, g)]);
    run := [ContextDone(c, t), Announce(t)] + [ClsRemove(t, g)];
  }

  lemma {:induction false} CloseAlone(s: State, c: Chan, t: Tid) returns (n: State)
    requires s.crash == None && t in s.threads && s.threads[t] == ClsRemoved(c) && !Ch(s, c).closed
    ensures Run(s, [ClsClose(t)]) && After(s, [ClsClose(t)]) == n && n.crash == None
    ensures Ch(n, c).closed && n.threads == s.threads - {t} && n.receivers == s.receivers
    ensures n == s.(threads := n.threads, chans := n.chans)
  {
    n := Next(s, ClsClose(t));
    RunOne(s, ClsClose(t));
  }

  lemma {:induction false} LeavingConcat(a: seq<Step>, b: seq<Step>)
    requires Leaving(a) && Leaving(b)
    ensures Leaving(a + b)
  {
  }

  lemma {:induction false} IdleEnds(s: State, n: State, c: Chan, t: Tid, g: Tid, keys: set<string>)
    requires Idle(s) && n.crash == None && t !in s.threads && g !in s.threads && t != g
    requires n.threads == (if keys == {} then s.threads[t := ClsRemoved(c)]
                           else s.threads[t := ClsRemoved(c)][g := UnWantConn(keys)]) - {t}
    ensures Idle(n)
  {
  }

  lemma {:induction false} RemovedCloses(s: State, s1: State, c: Chan, t: Tid, g: Tid, keys: set<string>)
    returns (n: State)
    requires Idle(s) && t !in s.threads && g !in s.threads && t != g && !Ch(s, c).closed
    requires s1.crash == None && s1.chans == s.chans[c := Ch(s, c).(done := true)]
    requires s1.threads == if keys == {} then s.threads[t := ClsRemoved(c)]
                           else s.threads[t := ClsRemoved(c)][g := UnWantConn(keys)]
    ensures Run(s1, [ClsClose(t)]) && After(s1, [ClsClose(t)]) == n
    ensures Idle(n) && Ch(n, c).closed && n == s1.(threads := n.threads, chans := n.chans)
  {
    n := CloseAlone(s1, c, t);
    IdleEnds(s, n, c, t, g, keys);
  }

  /** A stream ends while nothing else is going on. */
  lemma {:induction false} EndAlone(s: State, c: Chan) returns (run: seq<Step>, n: State)
    requires Idle(s) && !Ch(s, c).done && !Ch(s, c).closed
    ensures Run(s, run) && After(s, run) == n && Idle(n) && Leaving(run)
    ensures Ch(n, c).closed && n.receivers == RemoveEverywhere(s.receivers, c)
    ensures n.up == s.up && n.session == s.session && n.linked == s.linked
  {
    var t := FreshTid(s.threads.Keys);
    assert t !in s.threads && t + 1 !in s.threads;
    var run1, s1 := RemoveAlone(s, c, t, t + 1);
    n := RemovedCloses(s, s1, c, t, t + 1, CleanupKeys(s.receivers, c));
    RunConcat(s, run1, [ClsClose(t)]);
    LeavingConcat(run1, [ClsClose(t)]);
    run := run1 + [ClsClose(t)];
  }

  /** A stream whose channel survives its own UnsubscribeAll can panic the broker. */
  lemma {:induction false} SurvivorPanics(s: State, c: Chan, u: string) returns (run: seq<Step>)
    requires Idle(s) && !Ch(s, c).done && !Ch(s, c).closed
    requires c in RemoveInPlace(List(s, u), c)
    ensures Run(s, run) && After(s, run).crash == Some(SendOnClosed)
    ensures Steady(run, MakeTopic(FullUrl(u))) && Appendless(run)
  {
    var run1, s1 := EndAlone(s, c);
    assert List(s1, u) == RemoveInPlace(List(s, u), c);
    var rest := EventPanics(s1, c, u);
    RunConcat(s, run1, rest);
    SteadyConcat(run1, rest, MakeTopic(FullUrl(u)));
    run := run1 + rest;
  }

  /** The channel is closed, or its closing goroutine has removed it and is about to. */
  ghost predicate Finished(s: State, c: Chan) {
    Ch(s, c).closed || exists q :: q in s.threads && s.threads[q] == ClsRemoved(c)
  }

  /** The channel is closed next, if it is not closed yet. */
  lemma {:induction false} FinishClosing(s: State, c: Chan) returns (run: seq<Step>, n: State)
    requires Idle(s) && Finished(s, c)
    ensures Run(s, run) && After(s, run) == n && Idle(n) && Ch(n, c).closed && n.up == s.up && n.session == s.session
    ensures Leaving(run)
  {
    if Ch(s, c).closed {
      run, n := [], s;
    } else {
      var q :| q in s.threads && s.threads[q] == ClsRemoved(c);
      n := CloseAlone(s, c, q);
      run := [ClsClose(q)];
    }
  }

  lemma {:induction false} ClosedSubscribePanics(s: State, c: Chan, u: string) returns (run: seq<Step>)
    requires Idle(s) && Ch(s, c).closed
    ensures Run(s, run) && After(s, run).crash == Some(SendOnClosed)
    ensures Steady(run, MakeTopic(FullUrl(u)))
  {
    var t := FreshTid(s.threads.Keys);
    assert t !in s.threads;
    if u in s.retained {
      var run1, s1 := AppendAlone(s, c, u, t);
      RunOne(s1, SubGreet(t));
      RunConcat(s, run1, [SubGreet(t)]);
      SteadyConcat(run1, [SubGreet(t)], MakeTopic(FullUrl(u)));
      run := run1 + [SubGreet(t)];
    } else {
      var run1, s1 := SubscribePlain(s, c, u, t);
      IdleAfter(s, s1, u, t);
      assert c == List(s1, u)[|List(s, u)|];
      var rest := EventPanics(s1, c, u);
      RunConcat(s, run1, rest);
      SteadyConcat(run1, rest, MakeTopic(FullUrl(u)));
      run := run1 + rest;
    }
  }

  /** Breaking the rule "no Subscribe after the stream's own UnsubscribeAll": once the
      channel is removed, a late Subscribe of any type URL, in any idle state, leads to
      a panic. */
  lemma {:induction false} LateSubscribePanics(s: State, c: Chan, u: string) returns (run: seq<Step>)
    requires Idle(s) && Finished(s, c)
    ensures Run(s, run) && After(s, run).crash == Some(SendOnClosed)
    ensures Steady(run, MakeTopic(FullUrl(u)))
  {
    var run0, s0 := FinishClosing(s, c);
    var rest := ClosedSubscribePanics(s0, c, u);
    RunConcat(s, run0, rest);
    SteadyConcat(run0, rest, MakeTopic(FullUrl(u)));
    run := run0 + rest;
  }

  /** A channel that is listed and appended once more survives its own removal. */
  lemma {:induction false} OnceMoreSurvives(list: seq<Chan>, c: Chan)
    requires c in list
    ensures c in RemoveInPlace(list + [c], c)
  {
    CountAppend(list, [c], c);
    WithoutMembers(list, c);
    SurvivesIff(list + [c], c);
  }

  /** Breaking the rule "once per type URL": in any idle state, a live stream that
      subscribes a type URL it is registered for once more can panic the broker when it
      ends. */
  lemma {:induction false} RepeatedSubscribePanics(s: State, c: Chan, u: string) returns (run: seq<Step>)
    requires Idle(s) && c in List(s, u)
    requires !Ch(s, c).done && !Ch(s, c).closed && |Ch(s, c).queue| < CAPACITY
    ensures Run(s, run) && After(s, run).crash == Some(SendOnClosed)
    ensures Steady(run, MakeTopic(FullUrl(u)))
  {
    var t := FreshTid(s.threads.Keys);
    assert t !in s.threads;
    var run1, s1 := SubscribeAlone(s, c, u, t);
    IdleAfter(s, s1, u, t);
    OnceMoreSurvives(List(s, u), c);
    var rest := SurvivorPanics(s1, c, u);
    RunConcat(s, run1, rest);
    SteadyConcat(run1, rest, MakeTopic(FullUrl(u)));
    run := run1 + rest;
  }

  /** In particular two Subscribes of the same type URL, by any stream with room. */
  lemma {:induction false} DoubleSubscribePanics(s: State, c: Chan, u: string) returns (run: seq<Step>)
    requires Idle(s)
    requires !Ch(s, c).done && !Ch(s, c).closed && |Ch(s, c).queue| + 2 <= CAPACITY
    ensures Run(s, run) && After(s, run).crash == Some(SendOnClosed)
    ensures Steady(run, MakeTopic(FullUrl(u)))
  {
    var t := FreshTid(s.threads.Keys);
    assert t !in s.threads;
    var run1, s1 := SubscribeAlone(s, c, u, t);
    IdleAfter(s, s1, u, t);
    assert List(s1, u)[|List(s, u)|] == c;
    var rest := RepeatedSubscribePanics(s1, c, u);
    RunConcat(s, run1, rest);
    SteadyConcat(run1, rest, MakeTopic(FullUrl(u)));
    run := run1 + rest;
  }

  // ----- the connection -----

  /** `t` is about to run the flight of `u` alone. */
  ghost predicate FlightReady(s: State, t: Tid, u: string) {
    && s.crash == None && t in s.threads && s.threads[t] == GoStart(u)
    && ConnFree(s) && !InFlight(s, MakeTopic(u))
  }

  lemma {:induction false} FlightLocks(s: State, t: Tid, u: string) returns (n: State)
    requires s.crash == None && ConnFree(s) && t in s.threads && s.threads[t] == FlWantConn(u)
    ensures Enabled(s, LockConn(t)) && n == Next(s, LockConn(t)) && n == s.(threads := s.threads[t := FlHasConn(u)])
  {
    n := Next(s, LockConn(t));
  }

  lemma {:induction false} FlightEnters(s: State, t: Tid, u: string) returns (n: State)
    requires FlightReady(s, t, u)
    ensures Enabled(s, FlStart(t)) && n == Next(s, FlStart(t)) && n == s.(threads := s.threads[t := FlWantConn(u)])
    ensures ConnFree(n)
  {
    n := Next(s, FlStart(t));
  }

  lemma {:induction false} FlightBegins(s: State, t: Tid, u: string) returns (run: seq<Step>, n: State)
    requires FlightReady(s, t, u)
    ensures Run(s, run) && After(s, run) == n && Calm(run) && Appendless(run) && Asks(run, u)
    ensures n == s.(threads := s.threads[t := FlHasConn(u)])
  {
    var s1 := FlightEnters(s, t, u);
    n := FlightLocks(s1, t, u);
    assert n.threads == s.threads[t := FlHasConn(u)];
    RunOne(s1, LockConn(t));
    RunCons(s, FlStart(t), [LockConn(t)]);
    run := [FlStart(t)] + [LockConn(t)];
  }

  lemma {:induction false} FlightCrashes(s: State, t: Tid, u: string) returns (run: seq<Step>)
    requires FlightReady(s, t, u) && !s.linked
    ensures Run(s, run) && After(s, run).crash == Some(NilConn) && Appendless(run)
  {
    var run1, s2 := FlightBegins(s, t, u);
    RunLast(s, run1, FlCall(t, false, false));
    run := run1 + [FlCall(t, false, false)];
  }

  /** After a complete Subscribe of a new URL with nobody in the way. */
  lemma {:induction false} JoinedIsReady(s: State, n: State, c: Chan, u: string, t: Tid)
    requires Idle(s) && ConnFree(s) && !InFlight(s, MakeTopic(u)) && Joined(s, n, c, u, t) && u !in s.topics
    ensures FlightReady(n, t, u) && NoWriter(n) && NoReader(n) && n.threads == s.threads[t := GoStart(u)]
  {
  }

  /** Breaking the rule "not before the first connection": while b.conn is nil, a
      Subscribe of a URL that is not subscribed yet leads to a panic. */
  lemma {:induction false} EarlySubscribePanics(s: State, c: Chan, u: string) returns (run: seq<Step>)
    requires Idle(s) && ConnFree(s) && !InFlight(s, MakeTopic(u)) && !s.linked
    requires u !in s.topics && u !in s.retained
    ensures Run(s, run) && After(s, run).crash == Some(NilConn)
  {
    var t := FreshTid(s.threads.Keys);
    assert t !in s.threads;
    var run1, s1 := SubscribePlain(s, c, u, t);
    JoinedIsReady(s, s1, c, u, t);
    var rest := FlightCrashes(s1, t, u);
    RunConcat(s, run1, rest);
    run := run1 + rest;
  }

  /** What a successful flight of `u` leaves behind. */
  ghost function Landed(s: State, before: map<Tid, Thread>, u: string): State {
    s.(threads := before, topics := s.topics + {u}, session := s.session + {MakeTopic(u)}, failed := s.failed - {u})
  }

  lemma {:induction false} FlightStores(s: State, t: Tid, u: string) returns (n: State)
    requires s.crash == None && NoWriter(s) && NoReader(s) && t in s.threads && s.threads[t] == FlWantWrite(u)
    ensures Run(s, [Announce(t), FlStore(t)]) && After(s, [Announce(t), FlStore(t)]) == n
    ensures n == s.(threads := s.threads[t := FlLeaving(u)], topics := s.topics + {u}, failed := s.failed - {u})
  {
    var s1 := Next(s, Announce(t));
    assert s1 == s.(threads := s.threads[t := FlAnnounced(u)]);
    n := Next(s1, FlStore(t));
    assert n.threads == s.threads[t := FlLeaving(u)];
    RunOne(s1, FlStore(t));
    RunCons(s, Announce(t), [FlStore(t)]);
    assert [Announce(t)] + [FlStore(t)] == [Announce(t), FlStore(t)];
  }

  /** A flight whose call reports success, up to the point where its function returns. */
  lemma {:induction false} FlightAnswered(s: State, t: Tid, u: string, acked: bool) returns (run: seq<Step>, n: State)
    requires s.crash == None && s.linked && s.up && NoWriter(s) && NoReader(s)
    requires t in s.threads && s.threads[t] == FlHasConn(u)
    ensures Run(s, run) && After(s, run) == n && run == [FlCall(t, true, acked)] + [Announce(t), FlStore(t)]
    ensures n == s.(threads := s.threads[t := FlLeaving(u)], topics := s.topics + {u}, failed := s.failed - {u},
                    session := s.session + (if acked then {MakeTopic(u)} else {}))
  {
    var s1 := Next(s, FlCall(t, true, acked));
    assert s1 == s.(session := s.session + (if acked then {MakeTopic(u)} else {}),
                    threads := s.threads[t := FlWantWrite(u)]);
    n := FlightStores(s1, t, u);
    assert n.threads == s.threads[t := FlLeaving(u)];
    RunCons(s, FlCall(t, true, acked), [Announce(t), FlStore(t)]);
    run := [FlCall(t, true, acked)] + [Announce(t), FlStore(t)];
  }

  /** A flight that has the connection, up to the point where its function returns. */
  lemma {:induction false} FlightReturns(s: State, before: map<Tid, Thread>, t: Tid, u: string) returns (run: seq<Step>)
    requires s.crash == None && s.linked && s.up && NoWriter(s) && NoReader(s)
    requires t !in before && s.threads == before[t := FlHasConn(u)]
    ensures Run(s, run) && After(s, run) == Landed(s, before[t := FlLeaving(u)], u)
    ensures Calm(run) && Appendless(run) && Asks(run, u)
  {
    var n;
    run, n := FlightAnswered(s, t, u, true);
    assert n.threads == before[t := FlLeaving(u)];
  }

  lemma {:induction false} FlightLeaves(s: State, before: map<Tid, Thread>, t: Tid, u: string)
    requires s.crash == None && t !in before && s.threads == before[t := FlLeaving(u)]
    ensures Run(s, [FlLeave(t)]) && After(s, [FlLeave(t)]) == s.(threads := before)
  {
    assert before[t := FlLeaving(u)] - {t} == before;
    RunOne(s, FlLeave(t));
  }

  lemma {:induction false} FlightLands(s: State, before: map<Tid, Thread>, t: Tid, u: string) returns (run: seq<Step>)
    requires s.crash == None && s.linked && s.up && NoWriter(s) && NoReader(s)
    requires t !in before && s.threads == before[t := FlHasConn(u)]
    ensures Run(s, run) && After(s, run) == Landed(s, before, u)
    ensures Calm(run) && Appendless(run) && Asks(run, u)
  {
    var run1 := FlightReturns(s, before, t, u);
    FlightLeaves(Landed(s, before[t := FlLeaving(u)], u), before, t, u);
    CalmThen(s, run1, [FlLeave(t)], u);
    run := run1 + [FlLeave(t)];
  }

  lemma {:induction false} StillFree(s: State, n: State, before: map<Tid, Thread>, t: Tid, u: string)
    requires NoWriter(s) && NoReader(s) && t !in before && s.threads == before[t := GoStart(u)]
    requires n.threads == s.threads[t := FlHasConn(u)]
    ensures n.threads == before[t := FlHasConn(u)] && NoWriter(n) && NoReader(n)
  {
  }

  lemma {:induction false} FlightAlone(s: State, before: map<Tid, Thread>, t: Tid, u: string) returns (run: seq<Step>)
    requires FlightReady(s, t, u) && s.linked && s.up && NoWriter(s) && NoReader(s)
    requires t !in before && s.threads == before[t := GoStart(u)]
    ensures Run(s, run) && After(s, run) == Landed(s, before, u)
    ensures Calm(run) && Appendless(run) && Asks(run, u)
  {
    var run1, s1 := FlightBegins(s, t, u);
    StillFree(s, s1, before, t, u);
    var rest := FlightLands(s1, before, t, u);
    CalmThen(s, run1, rest, u);
    run := run1 + rest;
  }

  lemma {:induction false} UnsubLands(s: State, g: Tid, keys: set<string>) returns (run: seq<Step>)
    requires s.crash == None && s.linked && ConnFree(s) && g in s.threads && s.threads[g] == UnWantConn(keys)
    ensures Run(s, run) && After(s, run) == s.(threads := s.threads - {g}, session := s.session - MakeTopics(keys))
    ensures run == [LockConn(g), UnCall(g, MakeTopics(keys))]
  {
    var s1 := Next(s, LockConn(g));
    assert s1 == s.(threads := s.threads[g := UnHasConn(keys)]);
    assert s.threads[g := UnHasConn(keys)] - {g} == s.threads - {g};
    RunOne(s1, UnCall(g, MakeTopics(keys)));
    RunCons(s, LockConn(g), [UnCall(g, MakeTopics(keys))]);
    run := [LockConn(g)] + [UnCall(g, MakeTopics(keys))];
  }

  /** A Subscribe of a new URL, together with its flight. */
  lemma {:induction false} SubscribeLands(s: State, d: Chan, u: string, t: Tid) returns (run: seq<Step>, n: State)
    requires Idle(s) && ConnFree(s) && !InFlight(s, MakeTopic(u)) && s.linked && s.up && u !in s.topics
    requires t !in s.threads && !Ch(s, d).closed && |Ch(s, d).queue| < CAPACITY
    ensures Run(s, run) && After(s, run) == n && Asks(run, u)
    ensures n.crash == None && n.threads == s.threads && n.linked && n.synced == s.synced && u in n.topics
  {
    var run1, s1 := SubscribeAlone(s, d, u, t);
    JoinedIsReady(s, s1, d, u, t);
    var run2 := FlightAlone(s1, s.threads, t, u);
    n := Landed(s1, s.threads, u);
    RunAsks(s, run1, run2, u);
    run := run1 + run2;
  }

  /** A subscribe goes through while the unsubscribe of `keys` is still waiting. */
  lemma {:induction false} OverlapTail(s: State, d: Chan, u: string, g: Tid, keys: set<string>) returns (run: seq<Step>)
    requires Idle(s) && ConnFree(s) && !InFlight(s, MakeTopic(u)) && s.linked && s.up && s.synced
    requires u in keys && u !in s.topics && g in s.threads && s.threads[g] == UnWantConn(keys) && g + 2 !in s.threads
    requires !Ch(s, d).closed && |Ch(s, d).queue| < CAPACITY
    ensures Run(s, run)
    ensures After(s, run).crash == None && After(s, run).synced
    ensures u in After(s, run).topics && MakeTopic(u) !in After(s, run).session && Asks(run, u)
  {
    var run1, n := SubscribeLands(s, d, u, g + 2);
    var run2 := UnsubLands(n, g, keys);
    assert MakeTopic(u) in MakeTopics(keys);
    RunAsks(s, run1, run2, u);
    run := run1 + run2;
  }

  /** Nobody is in the way after the removal. */
  lemma {:induction false} OverlapResubscribes(s: State, n: State, c: Chan, d: Chan, u: string, g: Tid)
    requires Idle(s) && ConnFree(s) && !InFlight(s, MakeTopic(u)) && n.crash == None && d != c
    requires g !in s.threads && g + 1 !in s.threads
    requires n.threads == s.threads[g + 1 := ClsRemoved(c)][g := UnWantConn(CleanupKeys(s.receivers, c))]
    requires n.chans == s.chans[c := Ch(s, c).(done := true)]
    ensures Idle(n) && ConnFree(n) && !InFlight(n, MakeTopic(u)) && Ch(n, d) == Ch(s, d)
  {
  }

  /** Breaking the rule "no pending subscribe and unsubscribe of one URL at once": the
      last receiver of `u` leaves, another stream subscribes `u` at once, and the
      unsubscribe goroutine runs last. The broker still counts `u` as subscribed and
      the connection as renewed, but the server sends nothing for it any more. */
  lemma {:induction false} OverlapLosesTopic(s: State, c: Chan, d: Chan, u: string) returns (run: seq<Step>)
    requires Idle(s) && ConnFree(s) && !InFlight(s, MakeTopic(u)) && s.linked && s.up && s.synced
    requires List(s, u) == [c] && !Ch(s, c).done && d != c
    requires !Ch(s, d).closed && |Ch(s, d).queue| < CAPACITY
    ensures Run(s, run)
    ensures After(s, run).crash == None && After(s, run).synced
    ensures u in After(s, run).topics && MakeTopic(u) !in After(s, run).session && Asks(run, u)
  {
    var g := FreshTid(s.threads.Keys);
    assert g !in s.threads && g + 1 !in s.threads && g + 2 !in s.threads;
    var keys := CleanupKeys(s.receivers, c);
    assert u in keys;
    var run1, s1 := RemoveAlone(s, c, g + 1, g);
    assert s1.threads == s.threads[g + 1 := ClsRemoved(c)][g := UnWantConn(keys)];
    OverlapResubscribes(s, s1, c, d, u, g);
    var rest := OverlapTail(s1, d, u, g, keys);
    RunConcat(s, run1, rest);
    LeavingAsks(run1, u);
    run := run1 + rest;
  }
}
