/** After a reconnect every entry of `topics` is subscribed again, and exactly what can
    break that (internal/broker/broker.go:71-91, 110-130, 153-173). */
module BrokerReconnect {
  import opened Events
  import opened Topics
  import opened ReceiverLists
  import opened BrokerMachine
  import opened BrokerLocks
  import opened BrokerSession

  /** The server holds a subscription for every topic the broker relies on. */
  ghost predicate Renewed(s: State) {
    forall u :: u in s.topics ==> MakeTopic(u) in s.session
  }

  predicate Subscribed(th: Thread) {
    th.FlWantWrite? || th.FlAnnounced?
  }

  /** A handler that has lost no connection and no request since it began. */
  predicate Unspoilt(s: State, th: Thread) {
    th.OcResub? && th.clean && th.began == s.losses
  }

  ghost predicate SyncInv(s: State) {
    && (forall t :: t in s.threads && (s.threads[t].OcWantRead? || s.threads[t].OcResub?) ==>
          s.threads[t].began <= s.losses)
    && (s.synced ==> Renewed(s))
    && (s.synced ==> forall t :: t in s.threads && Subscribed(s.threads[t]) ==> MakeTopic(s.threads[t].u) in s.session)
    && (forall t, u :: t in s.threads && Unspoilt(s, s.threads[t]) && u in s.topics && u !in s.threads[t].todo ==>
          MakeTopic(u) in s.session)
  }

  /** The unsubscribe goroutine takes nothing from the server that the broker has
      come to rely on again. */
  ghost predicate UnsubClear(s: State, st: Step) {
    st.UnCall? ==> forall u :: u in s.topics ==> MakeTopic(u) !in st.gone
  }

  lemma {:induction false} OnlyConnHolder(s: State, t: Tid)
    requires LockInv(s) && t in s.threads && HoldsConn(s.threads[t])
    ensures forall q :: q in s.threads && q != t ==>
              !Subscribed(s.threads[q]) && !s.threads[q].OcResub? && !s.threads[q].OcWantRead?
  {
    assert forall q :: q in s.threads && q != t ==> !Conflict(s.threads[q], s.threads[t]);
  }

  lemma {:induction false} SyncLost(s: State, st: Step)
    requires SyncInv(s) && Enabled(s, st) && st.ConnectionLost?
    ensures SyncInv(Next(s, st))
  {
  }

  lemma {:induction false} SyncFlCall(s: State, st: Step)
    requires LockInv(s) && SyncInv(s) && Enabled(s, st) && st.FlCall? && TruthfulStep(st)
    ensures SyncInv(Next(s, st))
  {
    OnlyConnHolder(s, st.t);
    FrameStep(s, st);
  }

  lemma {:induction false} SyncFlStore(s: State, st: Step)
    requires LockInv(s) && SyncInv(s) && Enabled(s, st) && st.FlStore?
    ensures SyncInv(Next(s, st))
  {
    OnlyConnHolder(s, st.t);
    FrameStep(s, st);
  }

  lemma {:induction false} SyncUnCall(s: State, st: Step)
    requires LockInv(s) && SyncInv(s) && Enabled(s, st) && st.UnCall? && UnsubClear(s, st)
    ensures SyncInv(Next(s, st))
  {
    OnlyConnHolder(s, st.t);
    FrameStep(s, st);
  }

  lemma {:induction false} SyncOcLock(s: State, st: Step)
    requires LockInv(s) && SyncInv(s) && Enabled(s, st) && st.OcLock?
    ensures SyncInv(Next(s, st))
  {
    FrameStep(s, st);
  }

  lemma {:induction false} SyncOcSub(s: State, st: Step)
    requires LockInv(s) && SyncInv(s) && Enabled(s, st) && st.OcSub? && TruthfulStep(st)
    ensures SyncInv(Next(s, st))
  {
    OnlyConnHolder(s, st.t);
    FrameStep(s, st);
  }

  lemma {:induction false} SyncOcEnd(s: State, st: Step)
    requires LockInv(s) && SyncInv(s) && Enabled(s, st) && st.OcEnd?
    ensures SyncInv(Next(s, st))
  {
    OnlyConnHolder(s, st.t);
    FrameStep(s, st);
  }

  lemma {:induction false} SyncRemove(s: State, st: Step)
    requires SyncInv(s) && Enabled(s, st) && st.ClsRemove?
    ensures SyncInv(Next(s, st))
  {
    FrameStep(s, st);
  }

  /** The threads SyncInv speaks of come from themselves, except these. */
  lemma {:induction false} HandlersFrom(s: State, st: Step, n: State, t: Tid)
    requires t in n.threads && Origin(s, st, n, t)
    requires !st.ConnectionLost? && !st.FlCall? && !st.FlStore? && !st.UnCall?
    requires !st.OcLock? && !st.OcSub? && !st.OcEnd?
    ensures var th := n.threads[t];
            && (th.OcResub? ==> t in s.threads && s.threads[t] == th)
            && (th.OcWantRead? ==> (t in s.threads && s.threads[t] == th) || th.began == s.losses)
            && (Subscribed(th) ==> t in s.threads && Subscribed(s.threads[t]) && s.threads[t].u == th.u)
  {
  }

  lemma {:induction false} SyncOther(s: State, st: Step)
    requires SyncInv(s) && Enabled(s, st)
    requires !st.ConnectionLost? && !st.FlCall? && !st.FlStore? && !st.UnCall?
    requires !st.OcLock? && !st.OcSub? && !st.OcEnd?
    requires !st.ClsRemove?
    ensures SyncInv(Next(s, st))
  {
    var n := Next(s, st);
    FrameStep(s, st);
    forall t | t in n.threads
      ensures n.threads[t].OcWantRead? || n.threads[t].OcResub? ==> n.threads[t].began <= n.losses
      ensures n.synced && Subscribed(n.threads[t]) ==> MakeTopic(n.threads[t].u) in n.session
      ensures Unspoilt(n, n.threads[t]) ==>
                forall u :: u in n.topics && u !in n.threads[t].todo ==> MakeTopic(u) in n.session
    {
      OriginStep(s, st, t);
      HandlersFrom(s, st, n, t);
    }
  }

  lemma {:induction false} SyncStep(s: State, st: Step)
    requires LockInv(s) && SyncInv(s) && Enabled(s, st) && UnsubClear(s, st) && TruthfulStep(st)
    ensures SyncInv(Next(s, st))
  {
    if st.ConnectionLost? { SyncLost(s, st); }
    else if st.FlCall? { SyncFlCall(s, st); }
    else if st.FlStore? { SyncFlStore(s, st); }
    else if st.UnCall? { SyncUnCall(s, st); }
    else if st.OcLock? { SyncOcLock(s, st); }
    else if st.OcSub? { SyncOcSub(s, st); }
    else if st.OcEnd? { SyncOcEnd(s, st); }
    else if st.ClsRemove? { SyncRemove(s, st); }
    else { SyncOther(s, st); }
  }

  /** The guard of ReconnectRenews, read off the goroutine that is about to call the
      server: it unsubscribes no topic of an entry of `topics`. */
  ghost predicate Clear(s: State, st: Step) {
    st.UnCall? && st.t in s.threads && s.threads[st.t].UnHasConn? ==>
      MakeTopics(s.threads[st.t].keys) !! MakeTopics(s.topics)
  }

  lemma {:induction false} ClearIsEnough(s: State, st: Step)
    requires Enabled(s, st) && Clear(s, st)
    ensures UnsubClear(s, st)
  {
    if st.UnCall? {
      forall u | u in s.topics
        ensures MakeTopic(u) !in st.gone
      {
        assert MakeTopic(u) in MakeTopics(s.topics);
      }
    }
  }

  /** The server can drop all of the topics. */
  lemma {:induction false} ClearIsNeeded(s: State, t: Tid, all: set<string>)
    requires s.linked && s.crash == None && t in s.threads && s.threads[t].UnHasConn? && all == TopicsFor(s.threads[t])
    requires !(all !! MakeTopics(s.topics))
    ensures Enabled(s, UnCall(t, all)) && !Renewed(Next(s, UnCall(t, all)))
  {
    var topic :| topic in all && topic in MakeTopics(s.topics);
    var u :| u in s.topics && MakeTopic(u) == topic;
    var n := Next(s, UnCall(t, all));
    assert n.topics == s.topics && n.session == s.session - all;
    assert MakeTopic(u) !in n.session;
  }

  /** The guard is exact: the session stays renewed whatever the server drops of the
      topics it is asked to drop, if and only if the keys to be unsubscribed share no
      topic with `topics`. */
  lemma {:induction false} ClearIsExact(s: State, t: Tid)
    requires Renewed(s) && s.linked && s.crash == None && t in s.threads && s.threads[t].UnHasConn?
    ensures (forall gone :: Enabled(s, UnCall(t, gone)) ==> Renewed(Next(s, UnCall(t, gone))))
       <==> MakeTopics(s.threads[t].keys) !! MakeTopics(s.topics)
  {
    var all := TopicsFor(s.threads[t]);
    if all !! MakeTopics(s.topics) {
      forall gone | Enabled(s, UnCall(t, gone))
        ensures Renewed(Next(s, UnCall(t, gone)))
      {
        ClearIsEnough(s, UnCall(t, gone));
      }
    } else {
      ClearIsNeeded(s, t, all);
    }
  }

  // ----- without a network -----

  lemma {:induction false} OfflineCalls(s: State, st: Step)
    requires Enabled(s, st) && (st.FlCall? || st.OcSub? || st.UnCall?)
    ensures Next(s, st).up == s.up && (!s.up ==> Next(s, st).session <= s.session)
  {
  }

  lemma {:induction false} OfflineEnv(s: State, st: Step)
    requires Enabled(s, st) && (st.ConnectionLost? || st.ConnectionUp?)
    ensures Next(s, st).up || Next(s, st).session == {}
  {
  }

  lemma {:induction false} OfflineOther(s: State, st: Step)
    requires Enabled(s, st) && !st.ConnectionLost? && !st.ConnectionUp? && !st.FlCall? && !st.OcSub? && !st.UnCall?
    ensures Next(s, st).up == s.up && Next(s, st).session == s.session
  {
    FrameStep(s, st);
  }

  lemma {:induction false} OfflineRun(s: State, run: seq<Step>)
    requires (s.up || s.session == {}) && Run(s, run)
    ensures After(s, run).up || After(s, run).session == {}
    decreases |run|
  {
    if run != [] {
      if run[0].FlCall? || run[0].OcSub? || run[0].UnCall? { OfflineCalls(s, run[0]); }
      else if run[0].ConnectionLost? || run[0].ConnectionUp? { OfflineEnv(s, run[0]); }
      else { OfflineOther(s, run[0]); }
      OfflineRun(Next(s, run[0]), run[1..]);
    }
  }

  /** In every run, nothing is subscribed while the network is down, and a call that is
      made then is neither granted nor reported as granted. */
  lemma {:induction false} NothingOffline(run: seq<Step>, t: Tid, u: string, ok: bool, acked: bool)
    requires Run(INIT, run) && !After(INIT, run).up
    ensures After(INIT, run).session == {}
    ensures Enabled(After(INIT, run), FlCall(t, ok, acked)) || Enabled(After(INIT, run), OcSub(t, u, ok, acked)) ==>
              !ok && !acked
  {
    OfflineRun(INIT, run);
  }

  // ----- the guard in terms of what is outstanding -----

  /** No type URL has a pending subscribe and a pending unsubscribe at once. */
  ghost predicate NoOverlap(s: State, st: Step) {
    forall t, q :: t in s.threads && q in s.threads && IsSubscribing(s.threads[t]) && IsUnsub(s.threads[q]) ==>
      s.threads[t].u !in s.threads[q].keys
  }

  /** And keys are prefix-free. */
  ghost predicate Apart(s: State, st: Step) {
    PlainKeys(s, st) && NoOverlap(s, st)
  }

  /** What is still to be unsubscribed is not relied on. */
  ghost predicate ApartInv(s: State) {
    forall q, u :: q in s.threads && IsUnsub(s.threads[q]) && u in s.threads[q].keys ==> u !in s.topics
  }

  lemma {:induction false} UnsubsFrom(s: State, st: Step, q: Tid)
    requires Enabled(s, st)
    requires q in Next(s, st).threads && IsUnsub(Next(s, st).threads[q])
    ensures var th := Next(s, st).threads[q];
            || (q in s.threads && IsUnsub(s.threads[q]) && s.threads[q].keys == th.keys)
            || (st.ClsRemove? && th.keys == CleanupKeys(s.receivers, s.threads[st.t].c))
  {
    OriginStep(s, st, q);
  }

  /** What a step adds to and takes from `topics`. */
  lemma {:induction false} TopicsStep(s: State, st: Step)
    requires Enabled(s, st)
    ensures st.FlStore? ==> Next(s, st).topics == s.topics + {s.threads[st.t].u}
    ensures st.ClsRemove? ==> Next(s, st).topics == s.topics - CleanupKeys(s.receivers, s.threads[st.t].c)
    ensures !st.FlStore? && !st.ClsRemove? ==> Next(s, st).topics == s.topics
  {
    if !st.FlStore? && !st.ClsRemove? { FrameStep(s, st); }
  }

  lemma {:induction false} ApartStep(s: State, st: Step)
    requires ApartInv(s) && Enabled(s, st) && Apart(s, st)
    ensures ApartInv(Next(s, st))
  {
    var n := Next(s, st);
    TopicsStep(s, st);
    forall q, u | q in n.threads && IsUnsub(n.threads[q]) && u in n.threads[q].keys
      ensures u !in n.topics
    {
      UnsubsFrom(s, st, q);
    }
  }

  lemma {:induction false} ApartIsClear(s: State, st: Step)
    requires PlainInv(s) && ApartInv(s) && Enabled(s, st)
    ensures Clear(s, st)
  {
    if st.UnCall? {
      var keys := s.threads[st.t].keys;
      forall topic | topic in MakeTopics(keys)
        ensures topic !in MakeTopics(s.topics)
      {
        var k :| k in keys && MakeTopic(k) == topic;
        if u :| u in s.topics && MakeTopic(u) == topic {
          TopicInjective(k, u);
        }
      }
    }
  }

  // ----- over whole runs -----

  lemma {:induction false} SyncRun(s: State, run: seq<Step>)
    requires LockInv(s) && SyncInv(s) && Run(s, run) && Along(Clear, s, run) && Truthful(run)
    ensures LockInv(After(s, run)) && SyncInv(After(s, run))
    decreases |run|
  {
    if run != [] {
      ExclusiveStep(s, run[0]);
      ClosersStep(s, run[0]);
      ClearIsEnough(s, run[0]);
      SyncStep(s, run[0]);
      assert Truthful(run[1..]);
      SyncRun(Next(s, run[0]), run[1..]);
    }
  }

  lemma {:induction false} ApartRun(s: State, run: seq<Step>)
    requires PlainInv(s) && ApartInv(s) && Run(s, run) && Along(Apart, s, run)
    ensures Along(Clear, s, run)
    decreases |run|
  {
    if run != [] {
      ApartIsClear(s, run[0]);
      PlainStep(s, run[0]);
      ApartStep(s, run[0]);
      ApartRun(Next(s, run[0]), run[1..]);
    }
  }

  predicate KeepsConnection(run: seq<Step>) {
    forall i :: 0 <= i < |run| ==> !run[i].ConnectionLost?
  }

  lemma {:induction false} SyncedStep(s: State, st: Step)
    requires Enabled(s, st) && !st.ConnectionLost? && s.synced
    ensures Next(s, st).synced
  {
    if !st.OcEnd? { FrameStep(s, st); }
  }

  lemma {:induction false} StaysSynced(s: State, run: seq<Step>)
    requires Run(s, run) && KeepsConnection(run) && s.synced
    ensures After(s, run).synced
    decreases |run|
  {
    if run != [] {
      SyncedStep(s, run[0]);
      forall i | 0 <= i < |run[1..]| ensures !run[1..][i].ConnectionLost? {
        assert run[1..][i] == run[i + 1];
      }
      StaysSynced(Next(s, run[0]), run[1..]);
    }
  }

  /** Across any number of connection losses: once a HandleOnConnect finishes that
      renewed every topic and saw no loss since it took connLock, every entry of
      `topics` is subscribed on the session, and stays so until the next loss,
      provided no unsubscribe goroutine that calls the server has a key whose topic is
      relied on again, and the client reports success only for what was granted. */
  lemma {:induction false} ReconnectRenews(before: seq<Step>, t: Tid, rest: seq<Step>)
    requires Run(INIT, before + [OcEnd(t)] + rest)
    requires Along(Clear, INIT, before + [OcEnd(t)] + rest)
    requires Run(INIT, before) && Enabled(After(INIT, before), OcEnd(t))
    requires Unspoilt(After(INIT, before), After(INIT, before).threads[t])
    requires KeepsConnection(rest) && Truthful(before + [OcEnd(t)] + rest)
    ensures Renewed(After(INIT, before + [OcEnd(t)] + rest))
  {
    var s := After(INIT, before);
    var run := before + [OcEnd(t)] + rest;
    SyncRun(INIT, run);
    RunSplit(INIT, before + [OcEnd(t)], rest);
    RunSplit(INIT, before, [OcEnd(t)]);
    assert [OcEnd(t)][1..] == [];
    assert After(INIT, before + [OcEnd(t)]) == Next(s, OcEnd(t));
    StaysSynced(Next(s, OcEnd(t)), rest);
  }

  /** The same under the guard on what is outstanding. */
  lemma {:induction false} ReconnectRenewsApart(before: seq<Step>, t: Tid, rest: seq<Step>)
    requires Run(INIT, before + [OcEnd(t)] + rest)
    requires Along(Apart, INIT, before + [OcEnd(t)] + rest)
    requires Run(INIT, before) && Enabled(After(INIT, before), OcEnd(t))
    requires Unspoilt(After(INIT, before), After(INIT, before).threads[t])
    requires KeepsConnection(rest) && Truthful(before + [OcEnd(t)] + rest)
    ensures Renewed(After(INIT, before + [OcEnd(t)] + rest))
  {
    ApartRun(INIT, before + [OcEnd(t)] + rest);
    ReconnectRenews(before, t, rest);
  }

  /** While the session is renewed and no goroutine gets in the way of another one,
      every type URL with a receiver has its topic on the session, or a subscribe of it
      is outstanding, or the last attempt failed. */
  lemma {:induction false} InterestReachesServer(run: seq<Step>, u: string)
    requires Run(INIT, run) && Along(Clear, INIT, run) && Along(JoinsOwnFlight, INIT, run) && Truthful(run)
    requires After(INIT, run).synced && List(After(INIT, run), u) != []
    ensures var s := After(INIT, run);
            MakeTopic(u) in s.session || Pending(s, u) || u in s.failed
  {
    SyncRun(INIT, run);
    InterestRun(INIT, run, u);
  }
}
