/** The retained cache against the history of the run, and the greeting of late
    subscribers (internal/broker/broker.go:99-102, 153-157, 211-218). */
module BrokerRetained {
  import opened Events
  import opened Topics
  import opened ReceiverLists
  import opened BrokerMachine
  import opened BrokerLocks
  import opened BrokerDispatch

  /** The last event of type `u` that arrived with the RETAIN flag, unless `u` was
      cleaned up since. */
  function LastRetained(log: seq<Entry>, u: string): Option<Event> {
    if log == [] then None
    else
      var en := log[|log| - 1];
      if en.Handled? && en.flagged && Key(en.e) == u then Some(en.e)
      else if en.Cleaned? && u in en.keys then None
      else LastRetained(log[..|log| - 1], u)
  }

  ghost predicate RetainedInv(s: State) {
    forall u :: Cached(s, u) == LastRetained(s.log, u)
  }

  lemma {:induction false} LastRetainedRecord(log: seq<Entry>, a: Attempt, u: string)
    ensures LastRetained(Record(log, a), u) == LastRetained(log, u)
  {
    if log != [] && log[|log| - 1].Handled? {
      RecordShape(log, a);
      assert Record(log, a)[..|log| - 1] == log[..|log| - 1];
    }
  }

  lemma {:induction false} LastRetainedSnoc(log: seq<Entry>, en: Entry, u: string)
    ensures LastRetained(log + [en], u) ==
            if en.Handled? && en.flagged && Key(en.e) == u then Some(en.e)
            else if en.Cleaned? && u in en.keys then None
            else LastRetained(log, u)
  {
    assert (log + [en])[..|log|] == log;
  }

  lemma {:induction false} CacheStep(s: State, st: Step, u: string)
    requires Enabled(s, st)
    ensures st.MsgLock? ==>
              var th := s.threads[st.t];
              Cached(Next(s, st), u) ==
              if th.flagged && Key(th.e) == u then Some(Stamp(th.e, th.flagged)) else Cached(s, u)
    ensures st.ClsRemove? ==>
              Cached(Next(s, st), u) == if u in CleanupKeys(s.receivers, s.threads[st.t].c) then None else Cached(s, u)
    ensures !st.MsgLock? && !st.ClsRemove? ==> Cached(Next(s, st), u) == Cached(s, u)
  {
    if st.MsgLock? || st.ClsRemove? {
    } else {
      FrameStep(s, st);
    }
  }

  lemma {:induction false} RetainedLock(s: State, st: Step, u: string)
    requires RetainedInv(s) && Enabled(s, st) && st.MsgLock?
    ensures Cached(Next(s, st), u) == LastRetained(Next(s, st).log, u)
  {
    var th := s.threads[st.t];
    var e := Stamp(th.e, th.flagged);
    assert Cached(s, u) == LastRetained(s.log, u);
    LastRetainedSnoc(s.log, Handled(e, th.flagged, List(s, Key(e)), []), u);
  }

  lemma {:induction false} RetainedRemove(s: State, st: Step, u: string)
    requires RetainedInv(s) && Enabled(s, st) && st.ClsRemove?
    ensures Cached(Next(s, st), u) == LastRetained(Next(s, st).log, u)
  {
    var keys := CleanupKeys(s.receivers, s.threads[st.t].c);
    assert Cached(s, u) == LastRetained(s.log, u);
    LastRetainedSnoc(s.log, Cleaned(keys), u);
  }

  lemma {:induction false} RetainedKept(s: State, st: Step, u: string)
    requires DispatchInv(s) && RetainedInv(s) && Enabled(s, st)
    ensures Cached(Next(s, st), u) == LastRetained(Next(s, st).log, u)
  {
    assert Cached(s, u) == LastRetained(s.log, u);
    if st.MsgLock? {
      RetainedLock(s, st, u);
    } else if st.ClsRemove? {
      RetainedRemove(s, st, u);
    } else {
      CacheStep(s, st, u);
      LogStep(s, st);
      if st.MsgSend? || st.MsgDrop? {
        LastRetainedRecord(s.log, Attempt(Receiver(s, st.t), st.MsgSend?), u);
      }
    }
  }

  lemma {:induction false} RetainedStep(s: State, st: Step)
    requires DispatchInv(s) && RetainedInv(s) && Enabled(s, st)
    ensures RetainedInv(Next(s, st))
  {
    var n := Next(s, st);
    LogStep(s, st);
    forall u
      ensures Cached(n, u) == LastRetained(n.log, u)
    {
      RetainedKept(s, st, u);
    }
  }

  // ----- greetings -----

  ghost predicate Holds(items: seq<Item>, x: Item) {
    exists i :: 0 <= i < |items| && items[i] == x
  }

  /** A join that found a cached event has it in its channel, unless its thread is
      just about to send it, with `l` still locked. */
  ghost predicate Greeted(s: State, j: Join) {
    j.cached.Some? ==>
      || Holds(Ch(s, j.c).enq, Greeting(j.cached.value, j.u, j.at))
      || (j.at == |s.log| && exists t :: t in s.threads && s.threads[t] == SubGreeting(j.c, j.u, j.cached.value))
  }

  ghost predicate JoinInv(s: State) {
    && (forall k :: 0 <= k < |s.joins| ==> s.joins[k].at <= |s.log|)
    && (forall k :: 0 <= k < |s.joins| ==> Greeted(s, s.joins[k]))
    && (forall k :: 0 <= k < |s.joins| ==> s.joins[k].cached == LastRetained(s.log[..s.joins[k].at], s.joins[k].u))
  }

  lemma {:induction false} PastRecord(log: seq<Entry>, a: Attempt, at: nat, u: string)
    requires at <= |log|
    ensures |Record(log, a)| == |log|
    ensures LastRetained(Record(log, a)[..at], u) == LastRetained(log[..at], u)
  {
    if log != [] && log[|log| - 1].Handled? {
      RecordShape(log, a);
      if at < |log| {
        assert Record(log, a)[..at] == log[..at];
      } else {
        assert log[..at] == log && Record(log, a)[..at] == Record(log, a);
        LastRetainedRecord(log, a, u);
      }
    }
  }

  /** The past, as a join saw it, never changes. */
  lemma {:induction false} PastKept(s: State, st: Step, at: nat, u: string)
    requires DispatchInv(s) && Enabled(s, st) && at <= |s.log|
    ensures at <= |Next(s, st).log|
    ensures LastRetained(Next(s, st).log[..at], u) == LastRetained(s.log[..at], u)
  {
    LogStep(s, st);
    var n := Next(s, st);
    if st.MsgSend? || st.MsgDrop? {
      PastRecord(s.log, Attempt(Receiver(s, st.t), st.MsgSend?), at, u);
    } else {
      assert n.log[..at] == s.log[..at];
    }
  }

  lemma {:induction false} HoldsMore(s: State, st: Step, c: Chan, x: Item)
    requires Enabled(s, st) && Holds(Ch(s, c).enq, x)
    ensures Holds(Ch(Next(s, st), c).enq, x)
  {
    ChannelStep(s, st, c);
    var i :| 0 <= i < |Ch(s, c).enq| && Ch(s, c).enq[i] == x;
    assert Ch(Next(s, st), c).enq[i] == x;
  }

  lemma {:induction false} GreetingBlocks(s: State, st: Step, t: Tid)
    requires Exclusive(s.threads) && Enabled(s, st)
    requires t in s.threads && s.threads[t].SubGreeting?
    ensures !st.MsgLock? && !st.MsgSend? && !st.MsgDrop? && !st.ClsRemove?
    ensures st == SubGreet(t) || t !in Actors(st)
  {
    assert Writing(s.threads[t]) && Writes(s.threads[t]);
    assert forall q :: q in s.threads && q != t ==> !Conflict(s.threads[t], s.threads[q]);
  }

  lemma {:induction false} SendsGreeting(s: State, t: Tid)
    requires Enabled(s, SubGreet(t))
    ensures var th, n := s.threads[t], Next(s, SubGreet(t));
            n.crash == None ==> Holds(Ch(n, th.c).enq, Greeting(th.e, th.u, |s.log|))
    ensures Next(s, SubGreet(t)).crash != None ==> Next(s, SubGreet(t)).threads == s.threads
  {
    var th, n := s.threads[t], Next(s, SubGreet(t));
    if n.crash == None {
      assert Ch(n, th.c).enq[|Ch(s, th.c).enq|] == Greeting(th.e, th.u, |s.log|);
    }
  }

  /** While a Subscribe is greeting, the log stands still; when it sends, it sends
      what it joined with. */
  lemma {:induction false} GreetingStep(s: State, st: Step, t: Tid)
    requires Exclusive(s.threads) && Enabled(s, st)
    requires t in s.threads && s.threads[t].SubGreeting?
    ensures Next(s, st).log == s.log
    ensures var th := s.threads[t];
            || (t in Next(s, st).threads && Next(s, st).threads[t] == th)
            || Holds(Ch(Next(s, st), th.c).enq, Greeting(th.e, th.u, |s.log|))
  {
    GreetingBlocks(s, st, t);
    FrameStep(s, st);
    if st == SubGreet(t) {
      SendsGreeting(s, t);
    }
  }

  lemma {:induction false} GreetedStep(s: State, st: Step, j: Join)
    requires LockInv(s) && DispatchInv(s) && Enabled(s, st)
    requires Greeted(s, j)
    ensures Greeted(Next(s, st), j)
  {
    if j.cached.Some? {
      var x := Greeting(j.cached.value, j.u, j.at);
      if Holds(Ch(s, j.c).enq, x) {
        HoldsMore(s, st, j.c, x);
      } else {
        var t :| t in s.threads && s.threads[t] == SubGreeting(j.c, j.u, j.cached.value);
        GreetingStep(s, st, t);
      }
    }
  }

  lemma {:induction false} JoinsStep(s: State, st: Step)
    requires Enabled(s, st)
    ensures st.SubAppend? ==>
              var c, u := s.threads[st.t].c, s.threads[st.t].u;
              && Next(s, st).joins == s.joins + [Join(c, u, |s.log|, Cached(s, u))]
              && Next(s, st).log == s.log
              && (u in s.retained ==>
                    st.t in Next(s, st).threads && Next(s, st).threads[st.t] == SubGreeting(c, u, s.retained[u]))
    ensures !st.SubAppend? ==> Next(s, st).joins == s.joins
  {
    if !st.SubAppend? { FrameStep(s, st); }
  }

  lemma {:induction false} JoinStep(s: State, st: Step)
    requires LockInv(s) && DispatchInv(s) && RetainedInv(s) && JoinInv(s) && Enabled(s, st)
    ensures JoinInv(Next(s, st))
  {
    var n := Next(s, st);
    JoinsStep(s, st);
    forall k | 0 <= k < |n.joins|
      ensures n.joins[k].at <= |n.log|
      ensures Greeted(n, n.joins[k])
      ensures n.joins[k].cached == LastRetained(n.log[..n.joins[k].at], n.joins[k].u)
    {
      if k < |s.joins| {
        PastKept(s, st, s.joins[k].at, s.joins[k].u);
        GreetedStep(s, st, s.joins[k]);
      } else {
        assert s.log[..|s.log|] == s.log;
        assert Cached(s, n.joins[k].u) == LastRetained(s.log, n.joins[k].u);
      }
    }
  }

  ghost predicate CacheInv(s: State) {
    Traced(s) && RetainedInv(s) && JoinInv(s)
  }

  lemma {:induction false} CacheRun(s: State, run: seq<Step>)
    requires CacheInv(s) && Run(s, run)
    ensures CacheInv(After(s, run))
    decreases |run|
  {
    if run != [] {
      TracedStep(s, run[0]);
      RetainedStep(s, run[0]);
      JoinStep(s, run[0]);
      CacheRun(Next(s, run[0]), run[1..]);
    }
  }

  /** The entry neither caches an event of `u` nor cleans `u` up. */
  predicate Unconcerned(en: Entry, u: string) {
    match en
    case Handled(e, flagged, _, _) => !flagged || DispatchKey(e.typeUrl) != u
    case Cleaned(keys) => u !in keys
  }

  /** Entry `k` handled a flagged event of `u`, and `u` was not cached or cleaned again. */
  ghost predicate CachedSince(log: seq<Entry>, k: nat, u: string) {
    && k < |log| && log[k].Handled? && log[k].flagged && DispatchKey(log[k].e.typeUrl) == u
    && forall j :: k < j < |log| ==> Unconcerned(log[j], u)
  }

  /** An entry that does not concern `u` changes nothing. */
  lemma {:induction false} CachedBefore(log: seq<Entry>, k: nat, u: string)
    requires k < |log| - 1 && Unconcerned(log[|log| - 1], u)
    ensures CachedSince(log, k, u) <==> CachedSince(log[..|log| - 1], k, u)
  {
    var n := |log| - 1;
    forall j | k < j < n
      ensures Unconcerned(log[j], u) <==> Unconcerned(log[..n][j], u)
    {
    }
  }

  lemma {:induction false} LastRetainedIff(log: seq<Entry>, u: string, e: Event)
    ensures LastRetained(log, u) == Some(e) <==> exists k: nat :: CachedSince(log, k, u) && log[k].e == e
  {
    if log != [] {
      var n := |log| - 1;
      if Unconcerned(log[n], u) {
        LastRetainedIff(log[..n], u, e);
        forall k: nat | k < n
          ensures CachedSince(log, k, u) <==> CachedSince(log[..n], k, u)
        {
          CachedBefore(log, k, u);
        }
        assert forall k: nat :: CachedSince(log[..n], k, u) ==> CachedSince(log, k, u) && log[k].e == log[..n][k].e;
        assert forall k: nat :: CachedSince(log, k, u) ==> k < n;
      } else if log[n].Handled? {
        assert CachedSince(log, n, u);
        assert forall k: nat :: CachedSince(log, k, u) ==> k == n;
      } else {
        assert forall k: nat :: CachedSince(log, k, u) ==> k == n;
      }
    }
  }

  /** In every run the cache holds, for each type URL, exactly the last event handled
      with the RETAIN flag since that URL was last cleaned up. */
  lemma {:induction false} CacheIsHistory(run: seq<Step>, u: string, e: Event)
    requires Run(INIT, run)
    ensures var s := After(INIT, run);
            u in s.retained && s.retained[u] == e <==> exists k: nat :: CachedSince(s.log, k, u) && s.log[k].e == e
  {
    CacheRun(INIT, run);
    var s := After(INIT, run);
    assert Cached(s, u) == LastRetained(s.log, u);
    LastRetainedIff(s.log, u, e);
  }

  /** What stands before position `i` was handled before the log had `at` entries. */
  ghost predicate OlderBefore(items: seq<Item>, i: nat, at: nat)
    requires i <= |items|
  {
    forall q :: 0 <= q < i && items[q].Delivery? ==> items[q].idx < at
  }

  lemma {:induction false} GreetingComesFirst(items: seq<Item>, e: Event, u: string, at: nat)
    requires InOrder(items) && Holds(items, Greeting(e, u, at))
    ensures exists i :: 0 <= i < |items| && items[i] == Greeting(e, u, at) && OlderBefore(items, i, at)
  {
    var i :| 0 <= i < |items| && items[i] == Greeting(e, u, at);
    forall q | 0 <= q < i && items[q].Delivery?
      ensures items[q].idx < at
    {
      assert Time(items[q]) <= Time(items[i]);
    }
  }

  /** In every run a subscriber that joined while `u` had a cached event, which entry `k`
      of the log had handled, finds that event in its channel ahead of everything handled
      after it joined (or its Subscribe is still sending it and nothing has been handled
      since). */
  lemma {:induction false} LateSubscriberGreeted(run: seq<Step>, i: nat, k: nat)
    requires Run(INIT, run) && i < |After(INIT, run).joins|
    ensures var s := After(INIT, run);
            var j := s.joins[i];
            var items := Ch(s, j.c).enq;
            && j.at <= |s.log|
            && (CachedSince(s.log[..j.at], k, j.u) && |s.log| > j.at ==>
                  exists p :: 0 <= p < |items| && items[p] == Greeting(s.log[k].e, j.u, j.at) &&
                              OlderBefore(items, p, j.at))
  {
    CacheRun(INIT, run);
    var s := After(INIT, run);
    var j := s.joins[i];
    assert Greeted(s, j);
    if CachedSince(s.log[..j.at], k, j.u) && |s.log| > j.at {
      LastRetainedIff(s.log[..j.at], j.u, s.log[k].e);
      assert InOrder(Ch(s, j.c).enq);
      GreetingComesFirst(Ch(s, j.c).enq, s.log[k].e, j.u, j.at);
    }
  }
}
