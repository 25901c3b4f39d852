/** Runs from the initial state into the failures of BrokerNecessity, BrokerSession and
    BrokerLocks: the states those results start from can be reached, with a connection,
    and with messages only on topics that the session is subscribed to. */
module BrokerWitness {
  import opened Events
  import opened Topics
  import opened ReceiverLists
  import opened BrokerMachine
  import opened BrokerLocks
  import opened BrokerSafety
  import opened BrokerSession
  import opened BrokerReconnect
  import opened BrokerNecessity

  /** What arrives was published to a topic of the session. */
  ghost predicate Expected(s: State, st: Step) {
    st.Arrive? ==> s.up && MakeTopic(st.e.typeUrl) in s.session
  }

  lemma {:induction false} NothingArrives(s: State, run: seq<Step>)
    requires Run(s, run) && (Calm(run) || Leaving(run))
    ensures Along(Expected, s, run)
    decreases |run|
  {
    if run != [] {
      assert Calm(run) ==> CalmStep(run[0]) && Calm(run[1..]);
      assert Leaving(run) ==> LeavingStep(run[0]) && Leaving(run[1..]);
      NothingArrives(Next(s, run[0]), run[1..]);
    }
  }

  lemma {:induction false} SessionGrows(s: State, st: Step)
    requires Enabled(s, st) && (st.FlCall? || st.OcSub?)
    ensures Next(s, st).up == s.up && s.session <= Next(s, st).session
  {
  }

  lemma {:induction false} UpStays(s: State, st: Step)
    requires Enabled(s, st) && !st.ConnectionLost? && !st.FlCall? && !st.OcSub?
    ensures s.up ==> Next(s, st).up
    ensures !st.UnCall? ==> Next(s, st).session == s.session
  {
    FrameStep(s, st);
  }

  lemma {:induction false} SessionStays(s: State, st: Step, topic: string)
    requires Enabled(s, st) && SteadyStep(st, topic) && s.up && topic in s.session
    ensures Next(s, st).up && topic in Next(s, st).session
  {
    if st.FlCall? || st.OcSub? { SessionGrows(s, st); } else { UpStays(s, st); }
  }

  lemma {:induction false} SteadyIsExpected(s: State, run: seq<Step>, topic: string)
    requires Run(s, run) && Steady(run, topic) && s.up && topic in s.session
    ensures Along(Expected, s, run)
    decreases |run|
  {
    if run != [] {
      assert SteadyStep(run[0], topic) && Steady(run[1..], topic);
      SessionStays(s, run[0], topic);
      SteadyIsExpected(Next(s, run[0]), run[1..], topic);
    }
  }

  /** A run of streams that keep the rules, with messages on subscribed topics only. */
  ghost predicate Proper(s: State, run: seq<Step>)
    requires Run(s, run)
  {
    Along(Tidy, s, run) && Along(Expected, s, run)
  }

  lemma {:induction false} ProperConcat(s: State, a: seq<Step>, b: seq<Step>)
    requires Run(s, a) && Run(After(s, a), b) && Proper(s, a) && Proper(After(s, a), b)
    ensures Run(s, a + b) && After(s, a + b) == After(After(s, a), b) && Proper(s, a + b)
  {
    RunConcat(s, a, b);
    AlongConcat(Tidy, s, a, b);
    AlongConcat(Expected, s, a, b);
  }

  // ----- connected, and subscribed -----

  const CONNECTED := INIT.(linked := true, up := true, synced := true)

  const CONNECT: seq<Step> := [ConnectionUp(0), LockConn(0), OcLock(0), OcEnd(0)]

  lemma {:induction false} ConnectFirst() returns (n: State)
    ensures Run(INIT, [ConnectionUp(0), LockConn(0)]) && After(INIT, [ConnectionUp(0), LockConn(0)]) == n
    ensures n == INIT.(linked := true, up := true, threads := map[0 := OcWantRead(0)])
  {
    var s1 := Next(INIT, ConnectionUp(0));
    assert s1 == INIT.(up := true, threads := map[0 := OcWantConn]);
    n := Next(s1, LockConn(0));
    assert n.threads == map[0 := OcWantRead(0)];
    RunOne(s1, LockConn(0));
    RunCons(INIT, ConnectionUp(0), [LockConn(0)]);
    assert [ConnectionUp(0)] + [LockConn(0)] == [ConnectionUp(0), LockConn(0)];
  }

  lemma {:induction false} ConnectRest(s: State)
    requires s == INIT.(linked := true, up := true, threads := map[0 := OcWantRead(0)])
    ensures Run(s, [OcLock(0), OcEnd(0)]) && After(s, [OcLock(0), OcEnd(0)]) == CONNECTED
  {
    var s3 := Next(s, OcLock(0));
    assert s3 == s.(threads := map[0 := OcResub({}, true, 0)]);
    assert Next(s3, OcEnd(0)) == CONNECTED by {
      assert map[0 := OcResub({}, true, 0)] - {0} == map[];
    }
    RunOne(s3, OcEnd(0));
    RunCons(s, OcLock(0), [OcEnd(0)]);
    assert [OcLock(0)] + [OcEnd(0)] == [OcLock(0), OcEnd(0)];
  }

  lemma {:induction false} Connect()
    ensures Run(INIT, CONNECT) && After(INIT, CONNECT) == CONNECTED && Calm(CONNECT) && Appendless(CONNECT)
  {
    var s1 := ConnectFirst();
    ConnectRest(s1);
    RunConcat(INIT, [ConnectionUp(0), LockConn(0)], [OcLock(0), OcEnd(0)]);
    assert CONNECT == [ConnectionUp(0), LockConn(0)] + [OcLock(0), OcEnd(0)];
  }

  /** Connected, with nothing going on. */
  ghost predicate Settled(s: State) {
    s.crash == None && s.threads == map[] && s.linked && s.up && s.synced
  }

  /** `c` has subscribed `u`, and the session has the topic. */
  ghost predicate Subscribes(s: State, n: State, c: Chan, u: string) {
    && Settled(n) && n.receivers == AppendTo(s.receivers, u, c)
    && n.joins == s.joins + [Join(c, u, |s.log|, Cached(s, u))]
    && n.topics == s.topics + {u} && n.session == s.session + {MakeTopic(u)} && n.chans == s.chans
    && n.retained == s.retained && n.removed == s.removed
  }

  lemma {:induction false} Land(s: State, c: Chan, u: string) returns (run: seq<Step>, n: State)
    requires Settled(s) && u !in s.topics && u !in s.retained
    ensures Run(s, run) && After(s, run) == n && Subscribes(s, n, c, u) && Calm(run) && Asks(run, u)
    ensures MayJoin(s, c, u) ==> Along(Tidy, s, run)
  {
    var run1, s1 := SubscribePlain(s, c, u, 0);
    JoinedIsReady(s, s1, c, u, 0);
    var run2 := FlightAlone(s1, s.threads, 0, u);
    n := Landed(s1, s.threads, u);
    CalmThen(s, run1, run2, u);
    if MayJoin(s, c, u) { TidyThen(s, run1, run2); }
    run := run1 + run2;
  }

  /** From the start to a first subscription. */
  lemma {:induction false} FirstSubscription(c: Chan, u: string) returns (run: seq<Step>, n: State)
    ensures Run(INIT, run) && After(INIT, run) == n && Subscribes(CONNECTED, n, c, u) && Calm(run) && Asks(run, u)
    ensures Along(Tidy, INIT, run) && Along(Expected, INIT, run)
  {
    Connect();
    var rest;
    rest, n := Land(CONNECTED, c, u);
    RunConcat(INIT, CONNECT, rest);
    run := CONNECT + rest;
    AppendlessIsTidy(INIT, CONNECT);
    AlongConcat(Tidy, INIT, CONNECT, rest);
    NothingArrives(INIT, run);
  }

  // ----- the panics -----

  /** A late Subscribe, from the start: `d` keeps the topic subscribed, the stream of `c`
      ends, `c` subscribes, and the next event panics. */
  lemma {:induction false} LateSubscribeFromStart(c: Chan, d: Chan, u: string) returns (run: seq<Step>)
    requires c != d && PrefixFree(u)
    ensures Run(INIT, run) && Along(Expected, INIT, run) && After(INIT, run).crash == Some(SendOnClosed)
  {
    var run1, s1 := FirstSubscription(d, u);
    var run2, s2 := EndAlone(s1, c);
    var run3 := LateSubscribePanics(s2, c, u);
    FullUrlReachesKey(u);
    SteadyIsExpected(s2, run3, MakeTopic(u));
    NothingArrives(s1, run2);
    RunConcat(s1, run2, run3);
    AlongConcat(Expected, s1, run2, run3);
    RunConcat(INIT, run1, run2 + run3);
    AlongConcat(Expected, INIT, run1, run2 + run3);
    run := run1 + (run2 + run3);
  }

  /** A repeated Subscribe, from the start. */
  lemma {:induction false} RepeatedSubscribeFromStart(c: Chan, u: string) returns (run: seq<Step>)
    requires PrefixFree(u)
    ensures Run(INIT, run) && Along(Expected, INIT, run) && After(INIT, run).crash == Some(SendOnClosed)
  {
    var run1, s1 := FirstSubscription(c, u);
    assert List(s1, u) == [c];
    var run2 := RepeatedSubscribePanics(s1, c, u);
    FullUrlReachesKey(u);
    SteadyIsExpected(s1, run2, MakeTopic(u));
    RunConcat(INIT, run1, run2);
    AlongConcat(Expected, INIT, run1, run2);
    run := run1 + run2;
  }

  /** A Subscribe before the first connection, from the start. */
  lemma {:induction false} EarlySubscribeFromStart(c: Chan, u: string) returns (run: seq<Step>)
    ensures Run(INIT, run) && After(INIT, run).crash == Some(NilConn)
  {
    run := EarlySubscribePanics(INIT, c, u);
  }

  // ----- topics that the session loses -----

  lemma {:induction false} AsksArePlain(s: State, run: seq<Step>, u: string)
    requires Run(s, run) && Asks(run, u) && PrefixFree(u)
    ensures Along(PlainKeys, s, run)
    decreases |run|
  {
    if run != [] {
      assert AsksStep(run[0], u) && Asks(run[1..], u);
      AsksArePlain(Next(s, run[0]), run[1..], u);
    }
  }

  /** An unsubscribe that overtakes a newer subscribe, from the start: the rule "nothing
      pending at once" of ReconnectRenewsApart is needed, even with prefix-free keys. */
  lemma {:induction false} OverlapFromStart(c: Chan, d: Chan, u: string) returns (run: seq<Step>)
    requires c != d
    ensures Run(INIT, run) && After(INIT, run).crash == None && After(INIT, run).synced
    ensures u in After(INIT, run).topics && MakeTopic(u) !in After(INIT, run).session
    ensures Truthful(run) && (PrefixFree(u) ==> Along(PlainKeys, INIT, run))
  {
    var run1, s1 := FirstSubscription(c, u);
    var run2 := OverlapLosesTopic(s1, c, d, u);
    RunConcat(INIT, run1, run2);
    run := run1 + run2;
    assert Asks(run, u);
    if PrefixFree(u) { AsksArePlain(INIT, run, u); }
  }

  /** A stream ends, and its unsubscribe goroutine runs. */
  predicate DepartingStep(st: Step) {
    LeavingStep(st) || st.LockConn? || st.UnCall?
  }

  predicate Departing(run: seq<Step>) {
    forall i :: 0 <= i < |run| ==> DepartingStep(run[i])
  }

  lemma {:induction false} RemovesLast(s: State, c: Chan, k: string) returns (run: seq<Step>, n: State)
    requires Settled(s) && !Ch(s, c).done && !Ch(s, c).closed && CleanupKeys(s.receivers, c) == {k}
    ensures Run(s, run) && After(s, run) == n && Leaving(run)
    ensures n.threads == map[1 := UnWantConn({k})] && n.crash == None && n.linked && n.up && n.synced
    ensures n.receivers == RemoveEverywhere(s.receivers, c) && n.topics == s.topics - {k} && n.session == s.session
  {
    var run1, s1 := RemoveAlone(s, c, 0, 1);
    n := CloseAlone(s1, c, 0);
    assert s1.threads == map[0 := ClsRemoved(c)][1 := UnWantConn({k})];
    assert n.threads == map[1 := UnWantConn({k})];
    RunConcat(s, run1, [ClsClose(0)]);
    run := run1 + [ClsClose(0)];
  }

  /** The last receiver of `k` leaves, and the unsubscribe goroutine runs. */
  lemma {:induction false} LeaveAlone(s: State, c: Chan, k: string) returns (run: seq<Step>, n: State)
    requires Settled(s) && !Ch(s, c).done && !Ch(s, c).closed && CleanupKeys(s.receivers, c) == {k}
    ensures Run(s, run) && After(s, run) == n && Settled(n) && Departing(run)
    ensures n.receivers == RemoveEverywhere(s.receivers, c) && n.topics == s.topics - {k}
    ensures n.session == s.session - {MakeTopic(k)}
  {
    var run1, s1 := RemovesLast(s, c, k);
    var run2 := UnsubLands(s1, 1, {k});
    assert MakeTopics({k}) == {MakeTopic(k)} && s1.threads - {1} == map[];
    n := After(s1, run2);
    RunConcat(s, run1, run2);
    run := run1 + run2;
    forall i | 0 <= i < |run1|
      ensures DepartingStep(run1[i])
    {
      assert LeavingStep(run1[i]);
    }
  }

  lemma {:induction false} CalmStartsNone(s: State, st: Step)
    requires Enabled(s, st) && CalmStep(st) && forall t :: t in s.threads ==> !IsUnsub(s.threads[t])
    ensures forall t :: t in Next(s, st).threads ==> !IsUnsub(Next(s, st).threads[t])
  {
    forall t | t in Next(s, st).threads
      ensures !IsUnsub(Next(s, st).threads[t])
    {
      OriginStep(s, st, t);
    }
  }

  /** Without unsubscribe goroutines nothing overlaps. */
  lemma {:induction false} CalmNoOverlap(s: State, run: seq<Step>)
    requires Run(s, run) && Calm(run) && forall t :: t in s.threads ==> !IsUnsub(s.threads[t])
    ensures Along(NoOverlap, s, run)
    decreases |run|
  {
    if run != [] {
      var n := Next(s, run[0]);
      assert CalmStep(run[0]) && Calm(run[1..]);
      CalmStartsNone(s, run[0]);
      CalmNoOverlap(n, run[1..]);
    }
  }

  lemma {:induction false} NobodyStarts(s: State, st: Step, n: State, t: Tid)
    requires t in n.threads && Origin(s, st, n, t) && DepartingStep(st)
    requires t in s.threads ==> !NamesUrl(s.threads[t])
    ensures !NamesUrl(n.threads[t])
  {
  }

  /** Nor without anybody subscribing. */
  lemma {:induction false} DepartingNoOverlap(s: State, run: seq<Step>)
    requires Run(s, run) && Departing(run) && forall t :: t in s.threads ==> !NamesUrl(s.threads[t])
    ensures Along(NoOverlap, s, run)
    decreases |run|
  {
    if run != [] {
      var n := Next(s, run[0]);
      assert DepartingStep(run[0]) && Departing(run[1..]);
      forall t | t in n.threads
        ensures !NamesUrl(n.threads[t])
      {
        OriginStep(s, run[0], t);
        NobodyStarts(s, run[0], n, t);
      }
      assert NoOverlap(s, run[0]) by {
        assert forall t :: t in s.threads ==> !IsSubscribing(s.threads[t]);
      }
      DepartingNoOverlap(n, run[1..]);
    }
  }

  lemma {:induction false} RemoveFromOther(c: Chan, d: Chan)
    requires c != d
    ensures RemoveInPlace([c], d) == [c]
  {
  }

  lemma {:induction false} AllTruthful(a: seq<Step>, b: seq<Step>, c: seq<Step>)
    requires Calm(a) && Calm(b) && Departing(c)
    ensures Truthful(a + (b + c))
  {
    forall i | 0 <= i < |a + (b + c)|
      ensures TruthfulStep((a + (b + c))[i])
    {
      assert i < |a| ==> CalmStep(a[i]);
      assert |a| <= i < |a| + |b| ==> CalmStep(b[i - |a|]);
      assert i >= |a| + |b| ==> DepartingStep(c[i - |a| - |b|]);
    }
  }

  /** The rule "keys are prefix-free" of ReconnectRenewsApart is needed: two streams
      subscribe the same type, one with the prefix and one without; when the prefixed
      one leaves, the topic of the other goes with it, although nothing overlaps. */
  lemma {:induction false} PrefixedKeyFromStart(c: Chan, d: Chan, u: string) returns (run: seq<Step>)
    requires c != d && PrefixFree(u)
    ensures Run(INIT, run) && Along(NoOverlap, INIT, run) && Truthful(run)
    ensures var s := After(INIT, run);
            s.crash == None && s.synced && List(s, u) == [c] && u in s.topics && MakeTopic(u) !in s.session
  {
    var k := FullUrl(u);
    FullUrlReachesKey(u);
    assert k != u;
    var run1, s1 := FirstSubscription(c, u);
    var run2, s2 := Land(s1, d, k);
    assert [] + [c] == [c] && [] + [d] == [d];
    assert s1.receivers == map[u := [c]] && s2.receivers == map[u := [c], k := [d]];
    assert CleanupKeys(s2.receivers, d) == {k};
    var run3, s3 := LeaveAlone(s2, d, k);
    RemoveFromOther(c, d);
    CalmNoOverlap(INIT, run1);
    CalmNoOverlap(s1, run2);
    DepartingNoOverlap(s2, run3);
    AllTruthful(run1, run2, run3);
    RunConcat(s1, run2, run3);
    AlongConcat(NoOverlap, s1, run2, run3);
    RunConcat(INIT, run1, run2 + run3);
    AlongConcat(NoOverlap, INIT, run1, run2 + run3);
    run := run1 + (run2 + run3);
  }

  /** The rule "success means granted" is exact: a flight that is told that its request
      succeeded keeps the session renewed if and only if the server has granted it, or
      had granted the topic before. */
  lemma {:induction false} GrantIsExact(s: State, t: Tid, u: string, acked: bool)
    requires Renewed(s) && s.crash == None && s.linked && s.up && NoWriter(s) && NoReader(s)
    requires t in s.threads && s.threads[t] == FlHasConn(u)
    ensures var run := [FlCall(t, true, acked)] + [Announce(t), FlStore(t)];
            Run(s, run) && (Renewed(After(s, run)) <==> acked || MakeTopic(u) in s.session)
  {
    var run, n := FlightAnswered(s, t, u, acked);
    assert u in n.topics;
  }

  predicate Unsubless(run: seq<Step>) {
    forall i :: 0 <= i < |run| ==> !run[i].UnCall?
  }

  lemma {:induction false} UnsublessIsClear(s: State, run: seq<Step>)
    requires Run(s, run) && Unsubless(run)
    ensures Along(Clear, s, run)
    decreases |run|
  {
    if run != [] {
      assert Unsubless(run[1..]);
      UnsublessIsClear(Next(s, run[0]), run[1..]);
    }
  }

  lemma {:induction false} CalmIsUnsubless(run: seq<Step>)
    requires Calm(run)
    ensures Unsubless(run)
  {
    forall i | 0 <= i < |run|
      ensures !run[i].UnCall?
    {
      assert CalmStep(run[i]);
    }
  }

  lemma {:induction false} RefusedLeaves(s: State, u: string) returns (run: seq<Step>, n: State)
    requires s.crash == None && s.threads == map[0 := FlHasConn(u)] && s.linked && s.up
    ensures Run(s, run) && After(s, run) == n && Unsubless(run)
    ensures n == s.(threads := map[], topics := s.topics + {u}, failed := s.failed - {u})
  {
    var run1, s1 := FlightAnswered(s, 0, u, false);
    assert s1.session == s.session;
    FlightLeaves(s1, map[], 0, u);
    n := s1.(threads := map[]);
    RunConcat(s, run1, [FlLeave(0)]);
    run := run1 + [FlLeave(0)];
  }

  /** The server refuses the only flight, and the client reports success. */
  lemma {:induction false} RefusedFlight(s: State, u: string) returns (run: seq<Step>, n: State)
    requires s.crash == None && s.threads == map[0 := GoStart(u)] && s.linked && s.up
    ensures Run(s, run) && After(s, run) == n && Unsubless(run)
    ensures n == s.(threads := map[], topics := s.topics + {u}, failed := s.failed - {u})
  {
    var run1, s1 := FlightBegins(s, 0, u);
    CalmIsUnsubless(run1);
    var run2;
    run2, n := RefusedLeaves(s1, u);
    RunConcat(s, run1, run2);
    run := run1 + run2;
  }

  lemma {:induction false} RefusedConnected(c: Chan, u: string) returns (run: seq<Step>)
    ensures Run(CONNECTED, run) && Unsubless(run) && Settled(After(CONNECTED, run))
    ensures var s := After(CONNECTED, run); List(s, u) == [c] && u in s.topics && s.session == {}
  {
    assert [] + [c] == [c];
    var run1, s1 := SubscribePlain(CONNECTED, c, u, 0);
    assert s1.threads == map[0 := GoStart(u)];
    var run2, s2 := RefusedFlight(s1, u);
    CalmIsUnsubless(run1);
    RunConcat(CONNECTED, run1, run2);
    run := run1 + run2;
  }

  /** The rule is needed, from the start: the server refuses the first subscription, the
      client reports success, and the broker counts the topic and the connection as
      renewed, with a receiver that nothing will reach. */
  lemma {:induction false} RefusedFromStart(c: Chan, u: string) returns (run: seq<Step>)
    ensures Run(INIT, run) && Along(Clear, INIT, run) && Settled(After(INIT, run))
    ensures var s := After(INIT, run); List(s, u) == [c] && u in s.topics && s.session == {}
  {
    Connect();
    CalmIsUnsubless(CONNECT);
    var rest := RefusedConnected(c, u);
    RunConcat(INIT, CONNECT, rest);
    run := CONNECT + rest;
    UnsublessIsClear(INIT, run);
  }

  // ----- interest that is forgotten -----

  /** Connected, with the lists and goroutines given, and nothing else so far. */
  ghost predicate Fresh(s: State, threads: map<Tid, Thread>, receivers: map<string, seq<Chan>>) {
    && s.crash == None && s.linked && s.up && s.synced && s.chans == map[] && s.retained == map[]
    && s.topics == {} && s.session == {} && s.failed == {}
    && s.threads == threads && s.receivers == receivers
  }

  lemma {:induction false} FlightStarts(s: State, k: string) returns (n: State)
    requires s.crash == None && s.threads == map[1 := GoStart(k)]
    ensures Run(s, [FlStart(1)]) && After(s, [FlStart(1)]) == n && n == s.(threads := map[1 := FlWantConn(k)])
  {
    n := Next(s, FlStart(1));
    RunOne(s, FlStart(1));
  }

  lemma {:induction false} FirstFlight(c: Chan, k: string) returns (run: seq<Step>, n: State)
    ensures Run(CONNECTED, run) && After(CONNECTED, run) == n && Calm(run)
    ensures Fresh(n, map[1 := FlWantConn(k)], map[k := [c]])
  {
    assert [] + [c] == [c];
    var run1, s1 := SubscribePlain(CONNECTED, c, k, 1);
    assert Fresh(s1, map[1 := GoStart(k)], map[k := [c]]);
    n := FlightStarts(s1, k);
    RunConcat(CONNECTED, run1, [FlStart(1)]);
    run := run1 + [FlStart(1)];
  }

  lemma {:induction false} FlightJoins(s: State, k: string, u: string) returns (n: State)
    requires s.crash == None && s.threads == map[1 := FlWantConn(k), 2 := GoStart(u)] && MakeTopic(k) == MakeTopic(u)
    ensures Run(s, [FlStart(2)]) && After(s, [FlStart(2)]) == n && n == s.(threads := map[1 := FlWantConn(k)])
  {
    assert InFlight(s, MakeTopic(u)) by { assert IsFlight(s.threads[1]); }
    n := Next(s, FlStart(2));
    assert s.threads - {2} == map[1 := FlWantConn(k)];
    RunOne(s, FlStart(2));
  }

  /** Two subscribes of one topic under different keys: `d` joins the flight of `c`. */
  lemma {:induction false} JoinsForeignFlight(s: State, c: Chan, d: Chan, k: string, u: string)
    returns (run: seq<Step>, n: State)
    requires Fresh(s, map[1 := FlWantConn(k)], map[k := [c]]) && k != u && MakeTopic(k) == MakeTopic(u)
    ensures Run(s, run) && After(s, run) == n && Calm(run)
    ensures Fresh(n, map[1 := FlWantConn(k)], map[k := [c], u := [d]])
  {
    assert [] + [d] == [d];
    var run1, s1 := SubscribePlain(s, d, u, 2);
    assert s1.threads == map[1 := FlWantConn(k), 2 := GoStart(u)];
    n := FlightJoins(s1, k, u);
    RunConcat(s, run1, [FlStart(2)]);
    run := run1 + [FlStart(2)];
  }

  lemma {:induction false} FlightCompletes(s: State, k: string) returns (run: seq<Step>)
    requires s.crash == None && s.linked && s.up && s.threads == map[1 := FlWantConn(k)]
    ensures Run(s, run) && After(s, run) == Landed(s, map[], k)
  {
    var s1 := Next(s, LockConn(1));
    assert s1 == s.(threads := map[][1 := FlHasConn(k)]);
    var rest := FlightLands(s1, map[], 1, k);
    RunCons(s, LockConn(1), rest);
    run := [LockConn(1)] + rest;
  }

  lemma {:induction false} FlightForgets(s: State, c: Chan, d: Chan, k: string, u: string)
    requires Fresh(s, map[1 := FlWantConn(k)], map[k := [c], u := [d]]) && k != u
    ensures var n := Landed(s, map[], k);
            && Settled(n) && n.receivers == map[k := [c], u := [d]] && n.chans == map[]
            && List(n, u) == [d] && Forgotten(n, u)
  {
  }

  lemma {:induction false} ForgottenConnected(c: Chan, d: Chan, u: string) returns (run: seq<Step>, n: State)
    requires c != d && PrefixFree(u)
    ensures Run(CONNECTED, run) && After(CONNECTED, run) == n && Settled(n)
    ensures n.receivers == map[FullUrl(u) := [c], u := [d]] && n.chans == map[]
    ensures List(n, u) == [d] && Forgotten(n, u)
  {
    var k := FullUrl(u);
    FullUrlReachesKey(u);
    assert k != u;
    var run1, s1 := FirstFlight(c, k);
    var run2, s2 := JoinsForeignFlight(s1, c, d, k, u);
    var run3 := FlightCompletes(s2, k);
    FlightForgets(s2, c, d, k, u);
    RunConcat(s1, run2, run3);
    RunConcat(CONNECTED, run1, run2 + run3);
    run, n := run1 + (run2 + run3), Landed(s2, map[], k);
  }

  lemma {:induction false} PrefixedLeaves(s: State, c: Chan, d: Chan, k: string, u: string) returns (run: seq<Step>)
    requires Settled(s) && s.receivers == map[k := [c], u := [d]] && s.chans == map[]
    requires c != d && k != u && MakeTopic(k) == MakeTopic(u)
    ensures Run(s, run) && Settled(After(s, run))
    ensures List(After(s, run), u) == [d] && MakeTopic(u) !in After(s, run).session
  {
    assert CleanupKeys(s.receivers, c) == {k};
    RemoveFromOther(d, c);
    var n;
    run, n := LeaveAlone(s, c, k);
  }

  /** The rule of InterestNeverForgotten is needed: from the start, one stream names a
      type URL with the prefix and one without. When all goroutines have finished, the
      second is registered, but its URL is neither in `topics` nor counted as failed; and
      when the first one leaves, the server stops sending what the second still waits
      for, with the session counted as renewed. */
  lemma {:induction false} ForgottenFromStart(c: Chan, d: Chan, u: string) returns (run: seq<Step>, more: seq<Step>)
    requires c != d && PrefixFree(u)
    ensures Run(INIT, run) && Settled(After(INIT, run))
    ensures List(After(INIT, run), u) == [d] && Forgotten(After(INIT, run), u)
    ensures Run(INIT, run + more) && Settled(After(INIT, run + more))
    ensures List(After(INIT, run + more), u) == [d] && MakeTopic(u) !in After(INIT, run + more).session
  {
    FullUrlReachesKey(u);
    assert FullUrl(u) != u;
    Connect();
    var rest, n := ForgottenConnected(c, d, u);
    RunConcat(INIT, CONNECT, rest);
    run := CONNECT + rest;
    more := PrefixedLeaves(n, c, d, FullUrl(u), u);
    RunConcat(INIT, run, more);
  }

  /** Connected, with the goroutines, lists and topics given, and nothing failed or cached. */
  ghost predicate Stands(s: State, threads: map<Tid, Thread>, receivers: map<string, seq<Chan>>, topics: set<string>) {
    && s.crash == None && s.linked && s.up && s.synced && s.failed == {} && s.retained == map[]
    && s.threads == threads && s.receivers == receivers && s.topics == topics
  }

  lemma {:induction false} FlightOfFirst(s: State, c: Chan, u: string) returns (run: seq<Step>, n: State)
    requires Stands(s, map[0 := GoStart(u)], map[u := [c]], {})
    ensures Run(s, run) && After(s, run) == n && Asks(run, u)
    ensures Stands(n, map[0 := FlLeaving(u)], map[u := [c]], {u}) && n.chans == s.chans
  {
    assert FlightReady(s, 0, u);
    var run1, s1 := FlightBegins(s, 0, u);
    assert s1.threads == map[][0 := FlHasConn(u)];
    var run2 := FlightReturns(s1, map[], 0, u);
    n := Landed(s1, map[][0 := FlLeaving(u)], u);
    RunAsks(s, run1, run2, u);
    run := run1 + run2;
  }

  /** Connected, with a flight of `u` whose function has returned and that is still in the table. */
  lemma {:induction false} ReturnedFlight(c: Chan, u: string) returns (run: seq<Step>, n: State)
    ensures Run(CONNECTED, run) && After(CONNECTED, run) == n && Asks(run, u)
    ensures Stands(n, map[0 := FlLeaving(u)], map[u := [c]], {u}) && n.chans == map[]
  {
    assert [] + [c] == [c];
    var run1, s1 := SubscribePlain(CONNECTED, c, u, 0);
    var run2;
    run2, n := FlightOfFirst(s1, c, u);
    RunAsks(CONNECTED, run1, run2, u);
    run := run1 + run2;
  }

  lemma {:induction false} FirstOfOther(s: State)
    requires s.crash == None && exists u :: s.threads == map[0 := FlLeaving(u)]
    ensures Idle(s)
  {
  }

  lemma {:induction false} RemoveAloneFacts(s: State, c: Chan, u: string) returns (run: seq<Step>, n: State)
    requires Idle(s) && Stands(s, map[0 := FlLeaving(u)], map[u := [c]], {u}) && s.chans == map[]
    requires CleanupKeys(s.receivers, c) == {u} && RemoveInPlace([c], c) == []
    ensures Run(s, run) && After(s, run) == n && Asks(run, u) && !Ch(n, c).closed
    ensures Stands(n, map[0 := FlLeaving(u), 1 := ClsRemoved(c), 2 := UnWantConn({u})], map[u := []], {})
  {
    run, n := RemoveAlone(s, c, 1, 2);
    LeavingAsks(run, u);
  }

  lemma {:induction false} RemovesOnly(s: State, c: Chan, u: string) returns (run: seq<Step>, n: State)
    requires Stands(s, map[0 := FlLeaving(u)], map[u := [c]], {u}) && s.chans == map[]
    ensures Run(s, run) && After(s, run) == n && Asks(run, u) && !Ch(n, c).closed
    ensures Stands(n, map[0 := FlLeaving(u), 1 := ClsRemoved(c), 2 := UnWantConn({u})], map[u := []], {})
  {
    assert CleanupKeys(s.receivers, c) == {u} && RemoveInPlace([c], c) == [];
    FirstOfOther(s);
    run, n := RemoveAloneFacts(s, c, u);
  }

  /** The only receiver leaves while the flight is still in the table. */
  lemma {:induction false} LeavesMeanwhile(s: State, c: Chan, u: string) returns (run: seq<Step>, n: State)
    requires Stands(s, map[0 := FlLeaving(u)], map[u := [c]], {u}) && s.chans == map[]
    ensures Run(s, run) && After(s, run) == n && Asks(run, u)
    ensures Stands(n, map[0 := FlLeaving(u), 2 := UnWantConn({u})], map[u := []], {})
  {
    var run1, s1 := RemovesOnly(s, c, u);
    n := CloseAlone(s1, c, 1);
    assert n.threads == map[0 := FlLeaving(u), 2 := UnWantConn({u})];
    RunAsks(s, run1, [ClsClose(1)], u);
    run := run1 + [ClsClose(1)];
  }

  lemma {:induction false} EndsInTable(s: State, u: string) returns (n: State)
    requires s.crash == None && s.threads == map[0 := FlLeaving(u), 2 := UnWantConn({u}), 3 := GoStart(u)]
    ensures Run(s, [FlStart(3)]) && After(s, [FlStart(3)]) == n
    ensures n == s.(threads := map[0 := FlLeaving(u), 2 := UnWantConn({u})])
  {
    assert InFlight(s, MakeTopic(u)) by { assert IsFlight(s.threads[0]); }
    n := Next(s, FlStart(3));
    assert s.threads - {3} == map[0 := FlLeaving(u), 2 := UnWantConn({u})];
    RunOne(s, FlStart(3));
  }

  lemma {:induction false} SubscribesAgain(s: State, d: Chan, u: string) returns (run: seq<Step>, n: State)
    requires Stands(s, map[0 := FlLeaving(u), 2 := UnWantConn({u})], map[u := []], {})
    ensures Run(s, run) && After(s, run) == n && Asks(run, u)
    ensures Stands(n, map[0 := FlLeaving(u), 2 := UnWantConn({u}), 3 := GoStart(u)], map[u := [d]], {})
  {
    assert [] + [d] == [d];
    run, n := SubscribePlain(s, d, u, 3);
  }

  /** Another stream subscribes the same type URL and joins the returned flight. */
  lemma {:induction false} JoinsReturnedFlight(s: State, d: Chan, u: string) returns (run: seq<Step>, n: State)
    requires Stands(s, map[0 := FlLeaving(u), 2 := UnWantConn({u})], map[u := []], {})
    ensures Run(s, run) && After(s, run) == n && Asks(run, u)
    ensures Stands(n, map[0 := FlLeaving(u), 2 := UnWantConn({u})], map[u := [d]], {})
  {
    var run1, s1 := SubscribesAgain(s, d, u);
    n := EndsInTable(s1, u);
    RunAsks(s, run1, [FlStart(3)], u);
    run := run1 + [FlStart(3)];
  }

  lemma {:induction false} LastUnsub(s: State, u: string) returns (run: seq<Step>, n: State)
    requires s.crash == None && s.linked && s.threads == map[2 := UnWantConn({u})]
    ensures Run(s, run) && After(s, run) == n && Asks(run, u)
    ensures n == s.(threads := map[], session := s.session - {MakeTopic(u)})
  {
    run := UnsubLands(s, 2, {u});
    n := After(s, run);
    assert MakeTopics({u}) == {MakeTopic(u)} && s.threads - {2} == map[];
  }

  /** The flight leaves the table, and the unsubscribe goroutine runs. */
  lemma {:induction false} WindowCloses(s: State, d: Chan, u: string) returns (run: seq<Step>)
    requires Stands(s, map[0 := FlLeaving(u), 2 := UnWantConn({u})], map[u := [d]], {})
    ensures Run(s, run) && Settled(After(s, run)) && Asks(run, u)
    ensures List(After(s, run), u) == [d] && Forgotten(After(s, run), u) && MakeTopic(u) !in After(s, run).session
  {
    var before: map<Tid, Thread> := map[2 := UnWantConn({u})];
    FlightLeaves(s, before, 0, u);
    var s1 := s.(threads := before);
    var run2, n := LastUnsub(s1, u);
    RunAsks(s, [FlLeave(0)], run2, u);
    run := [FlLeave(0)] + run2;
  }

  lemma {:induction false} WindowConnected(c: Chan, d: Chan, u: string) returns (run: seq<Step>)
    ensures Run(CONNECTED, run) && Settled(After(CONNECTED, run)) && Asks(run, u)
    ensures List(After(CONNECTED, run), u) == [d] && Forgotten(After(CONNECTED, run), u)
    ensures MakeTopic(u) !in After(CONNECTED, run).session
  {
    var run1, s1 := ReturnedFlight(c, u);
    var run2, s2 := LeavesMeanwhile(s1, c, u);
    var run3, s3 := JoinsReturnedFlight(s2, d, u);
    var run4 := WindowCloses(s3, d, u);
    RunAsks(s2, run3, run4, u);
    RunAsks(s1, run2, run3 + run4, u);
    RunAsks(CONNECTED, run1, run2 + (run3 + run4), u);
    run := run1 + (run2 + (run3 + run4));
  }

  /** The other half of the rule is needed too, even with prefix-free keys: from the
      start, a flight of `u` has stored its URL but is still in the table when the only
      receiver leaves; a new receiver joins that flight and is forgotten, connected and
      renewed as the broker is. */
  lemma {:induction false} WindowFromStart(c: Chan, d: Chan, u: string) returns (run: seq<Step>)
    requires c != d && PrefixFree(u)
    ensures Run(INIT, run) && Along(PlainKeys, INIT, run) && Settled(After(INIT, run))
    ensures List(After(INIT, run), u) == [d] && Forgotten(After(INIT, run), u)
    ensures MakeTopic(u) !in After(INIT, run).session
  {
    Connect();
    var rest := WindowConnected(c, d, u);
    assert Asks(CONNECT, u);
    RunAsks(INIT, CONNECT, rest, u);
    run := CONNECT + rest;
    AsksArePlain(INIT, run, u);
  }

  // ----- a lock that is never released -----

  /** One event for the only receiver of `u`. */
  ghost predicate Received(s: State, n: State, c: Chan, u: string, flagged: bool) {
    && Settled(n) && n.receivers == s.receivers && n.joins == s.joins && n.removed == s.removed
    && n.topics == s.topics && n.session == s.session
    && n.retained == (if flagged then s.retained[u := Stamp(Event(FullUrl(u), 0, false), true)] else s.retained)
    && |Ch(n, c).queue| == |Ch(s, c).queue| + 1 && Ch(n, c).closed == Ch(s, c).closed
    && forall d :: d != c ==> Ch(n, d) == Ch(s, d)
  }

  lemma {:induction false} EventTaken(s: State, c: Chan, u: string, e: Event) returns (n: State)
    requires s.crash == None && s.threads == map[0 := MsgSending(e, 0)] && Key(e) == u && List(s, u) == [c]
    requires !Ch(s, c).closed && |Ch(s, c).queue| < CAPACITY
    ensures Enabled(s, MsgSend(0)) && n == Next(s, MsgSend(0))
    ensures n == s.(threads := map[0 := MsgSending(e, 1)], chans := n.chans, log := n.log)
    ensures |Ch(n, c).queue| == |Ch(s, c).queue| + 1 && Ch(n, c).closed == Ch(s, c).closed
    ensures forall d :: d != c ==> Ch(n, d) == Ch(s, d)
  {
    n := Next(s, MsgSend(0));
    assert n == DoMsgSend(s, 0);
  }

  lemma {:induction false} EventSent(s: State, c: Chan, u: string, e: Event) returns (n: State)
    requires s.crash == None && s.threads == map[0 := MsgSending(e, 0)] && Key(e) == u && List(s, u) == [c]
    requires !Ch(s, c).closed && |Ch(s, c).queue| < CAPACITY
    ensures Run(s, [MsgSend(0), MsgEnd(0)]) && After(s, [MsgSend(0), MsgEnd(0)]) == n
    ensures n == s.(threads := map[], chans := n.chans, log := n.log)
    ensures |Ch(n, c).queue| == |Ch(s, c).queue| + 1 && Ch(n, c).closed == Ch(s, c).closed
    ensures forall d :: d != c ==> Ch(n, d) == Ch(s, d)
  {
    var s1 := EventTaken(s, c, u, e);
    n := Next(s1, MsgEnd(0));
    assert s1.threads - {0} == map[];
    RunOne(s1, MsgEnd(0));
    RunCons(s, MsgSend(0), [MsgEnd(0)]);
    assert [MsgSend(0)] + [MsgEnd(0)] == [MsgSend(0), MsgEnd(0)];
  }

  lemma {:induction false} EventArrives(s: State, u: string, flagged: bool) returns (n: State)
    requires Settled(s)
    ensures var e := Event(FullUrl(u), 0, false);
            && Run(s, [Arrive(e, flagged, 0), MsgLock(0)]) && After(s, [Arrive(e, flagged, 0), MsgLock(0)]) == n
            && n == s.(threads := map[0 := MsgSending(Stamp(e, flagged), 0)], log := n.log,
                       retained := if flagged then s.retained[u := Stamp(e, true)] else s.retained)
  {
    var e := Event(FullUrl(u), 0, false);
    FullUrlReachesKey(u);
    var s1 := Next(s, Arrive(e, flagged, 0));
    assert s1 == s.(threads := map[0 := MsgWantRead(e, flagged)]);
    n := Next(s1, MsgLock(0));
    assert n.threads == map[0 := MsgSending(Stamp(e, flagged), 0)];
    RunOne(s1, MsgLock(0));
    RunCons(s, Arrive(e, flagged, 0), [MsgLock(0)]);
    assert [Arrive(e, flagged, 0)] + [MsgLock(0)] == [Arrive(e, flagged, 0), MsgLock(0)];
  }

  lemma {:induction false} EventReceived(s: State, c: Chan, u: string, flagged: bool) returns (run: seq<Step>, n: State)
    requires Settled(s) && List(s, u) == [c] && !Ch(s, c).closed && |Ch(s, c).queue| < CAPACITY
    ensures Run(s, run) && After(s, run) == n && Received(s, n, c, u, flagged)
    ensures Steady(run, MakeTopic(FullUrl(u))) && Appendless(run)
  {
    var e := Event(FullUrl(u), 0, false);
    FullUrlReachesKey(u);
    var s1 := EventArrives(s, u, flagged);
    n := EventSent(s1, c, u, Stamp(e, flagged));
    RunConcat(s, [Arrive(e, flagged, 0), MsgLock(0)], [MsgSend(0), MsgEnd(0)]);
    run := [Arrive(e, flagged, 0), MsgLock(0)] + [MsgSend(0), MsgEnd(0)];
  }

  /** Events come in until the channel is full. */
  lemma {:induction false} Fill(s: State, c: Chan, u: string) returns (run: seq<Step>, n: State)
    requires Settled(s) && List(s, u) == [c] && !Ch(s, c).closed && |Ch(s, c).queue| <= CAPACITY
    ensures Run(s, run) && After(s, run) == n && Settled(n) && n.receivers == s.receivers && n.joins == s.joins
    ensures n.removed == s.removed && n.retained == s.retained && n.topics == s.topics && n.session == s.session
    ensures |Ch(n, c).queue| == CAPACITY && Ch(n, c).closed == Ch(s, c).closed
    ensures Steady(run, MakeTopic(FullUrl(u))) && Appendless(run)
    decreases CAPACITY - |Ch(s, c).queue|
  {
    if |Ch(s, c).queue| == CAPACITY {
      run, n := [], s;
    } else {
      var run1, s1 := EventReceived(s, c, u, false);
      var rest;
      rest, n := Fill(s1, c, u);
      RunConcat(s, run1, rest);
      SteadyConcat(run1, rest, MakeTopic(FullUrl(u)));
      run := run1 + rest;
    }
  }

  lemma {:induction false} ConsumerStops(s: State, c: Chan) returns (run: seq<Step>, n: State)
    requires Settled(s)
    ensures Run(s, run) && After(s, run) == n && Calm(run) && Appendless(run)
    ensures n == s.(chans := n.chans) && !Ch(n, c).live
    ensures Ch(n, c).closed == Ch(s, c).closed && Ch(n, c).queue == Ch(s, c).queue
  {
    if Ch(s, c).live {
      RunOne(s, StopConsumer(c));
      run, n := [StopConsumer(c)], Next(s, StopConsumer(c));
    } else {
      run, n := [], s;
    }
  }

  lemma {:induction false} GreetingWaits(s: State, c: Chan, d: Chan, u: string, v: string) returns (run: seq<Step>)
    requires Settled(s) && v in s.retained && MayJoin(s, c, v)
    requires !Ch(s, c).closed && !Ch(s, c).live && |Ch(s, c).queue| >= CAPACITY
    ensures Run(s, run) && Along(Tidy, s, run) && Calm(run)
    ensures Jammed(After(s, run), 0) && 1 in After(s, run).threads && After(s, run).threads[1] == SubWantWrite(d, u)
    ensures Ch(After(s, run), c).queue == Ch(s, c).queue
  {
    var run1, s1 := AppendAlone(s, c, v, 0);
    var n := Next(s1, Request(d, u, 1));
    assert n == s1.(threads := map[0 := SubGreeting(c, v, s.retained[v]), 1 := SubWantWrite(d, u)]);
    RunOne(s1, Request(d, u, 1));
    TidyThen(s, run1, [Request(d, u, 1)]);
    RunConcat(s, run1, [Request(d, u, 1)]);
    run := run1 + [Request(d, u, 1)];
  }

  /** A greeting to a stream whose channel is full and whose consumer has gone. */
  lemma {:induction false} GreetingJams(s: State, c: Chan, d: Chan, u: string, v: string) returns (run: seq<Step>)
    requires Settled(s) && v in s.retained && !Ch(s, c).closed && |Ch(s, c).queue| >= CAPACITY && MayJoin(s, c, v)
    ensures Run(s, run) && Proper(s, run)
    ensures Jammed(After(s, run), 0) && 1 in After(s, run).threads && After(s, run).threads[1] == SubWantWrite(d, u)
    ensures Ch(After(s, run), c).queue == Ch(s, c).queue
  {
    var stop, s0 := ConsumerStops(s, c);
    var rest := GreetingWaits(s0, c, d, u, v);
    AppendlessIsTidy(s, stop);
    NothingArrives(s, stop);
    NothingArrives(s0, rest);
    ProperConcat(s, stop, rest);
    run := stop + rest;
  }

  /** A new stream subscribes, and its channel fills up. */
  lemma {:induction false} FillNew(s: State, c: Chan, u: string) returns (run: seq<Step>, n: State)
    requires Settled(s) && u !in s.topics && u !in s.retained && u !in s.receivers && PrefixFree(u)
    requires Ch(s, c) == NEW_CHANNEL && MayJoin(s, c, u)
    ensures Run(s, run) && After(s, run) == n && Proper(s, run) && Settled(n)
    ensures n.joins == s.joins + [Join(c, u, |s.log|, Cached(s, u))]
    ensures n.removed == s.removed && n.retained == s.retained
    ensures !Ch(n, c).closed && |Ch(n, c).queue| == CAPACITY
  {
    FullUrlReachesKey(u);
    assert [] + [c] == [c];
    var run1, s1 := Land(s, c, u);
    NothingArrives(s, run1);
    assert Ch(s1, c) == Ch(s, c);
    var run2;
    run2, n := Fill(s1, c, u);
    SteadyIsExpected(s1, run2, MakeTopic(u));
    AppendlessIsTidy(s1, run2);
    ProperConcat(s, run1, run2);
    run := run1 + run2;
  }

  lemma {:induction false} CachedAndFull(s: State, c: Chan, d: Chan, u: string, v: string)
    returns (run: seq<Step>, n: State)
    requires Subscribes(CONNECTED, s, d, v) && c != d && u != v && PrefixFree(u) && PrefixFree(v)
    ensures Run(s, run) && After(s, run) == n && Proper(s, run)
    ensures Settled(n) && v in n.retained && !Ch(n, c).closed && |Ch(n, c).queue| == CAPACITY && MayJoin(n, c, v)
  {
    FullUrlReachesKey(v);
    assert [] + [d] == [d];
    var run1, s1 := EventReceived(s, d, v, true);
    SteadyIsExpected(s, run1, MakeTopic(v));
    AppendlessIsTidy(s, run1);
    assert Ch(s1, c) == Ch(s, c) == NEW_CHANNEL;
    var rest;
    rest, n := FillNew(s1, c, u);
    ProperConcat(s, run1, rest);
    run := run1 + rest;
  }

  /** From the start to a greeting that is stuck for ever, by streams that keep the rules:
      an event of `v` is cached, `c` fills up with 100 events of `u` and loses its consumer,
      and then subscribes `v`. From then on no run releases `l` (BrokerLocks.StuckForever). */
  lemma {:induction false} StuckFromStart(c: Chan, d: Chan, u: string, v: string) returns (run: seq<Step>)
    requires c != d && u != v && PrefixFree(u) && PrefixFree(v)
    ensures Run(INIT, run) && Proper(INIT, run)
    ensures Jammed(After(INIT, run), 0) && 1 in After(INIT, run).threads && WaitsLock(After(INIT, run).threads[1])
    ensures |Ch(After(INIT, run), c).queue| == 100
  {
    var run1, s1 := FirstSubscription(d, v);
    var run2, s2 := CachedAndFull(s1, c, d, u, v);
    var run3 := GreetingJams(s2, c, d, u, v);
    ProperConcat(s1, run2, run3);
    ProperConcat(INIT, run1, run2 + run3);
    run := run1 + (run2 + run3);
  }
}
