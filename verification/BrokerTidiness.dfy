/** The rules of BrokerSafety are exact: in every state a tidy run can reach, breaking
    them with a Subscribe makes a send on a closed channel possible, and keeping them
    does not (internal/broker/subscriber.go:37-71, internal/broker/broker.go:93-151). */
module BrokerTidiness {
  import opened Events
  import opened Topics
  import opened ReceiverLists
  import opened BrokerMachine
  import opened BrokerLocks
  import opened BrokerSafety
  import opened BrokerNecessity

  // ----- who is registered, and who will close -----

  /** A channel that joined stays in the list until it is removed. */
  ghost predicate JoinedInv(s: State) {
    forall c, u :: HasJoined(s, c, u) && c !in s.removed ==> c in List(s, u)
  }

  lemma {:induction false} JoinedAppend(s: State, st: Step, c: Chan, u: string)
    requires JoinedInv(s) && Enabled(s, st) && st.SubAppend?
    requires HasJoined(Next(s, st), c, u) && c !in s.removed
    ensures c in List(Next(s, st), u)
  {
    var n, th := Next(s, st), s.threads[st.t];
    assert n.joins == s.joins + [Join(th.c, th.u, |s.log|, Cached(s, th.u))];
    assert n.receivers == AppendTo(s.receivers, th.u, th.c);
    if th.c == c && th.u == u {
      assert List(n, u)[|List(s, u)|] == c;
    } else {
      var j :| j in n.joins && j.c == c && j.u == u;
      assert j in s.joins && HasJoined(s, c, u);
    }
  }

  lemma {:induction false} StaysListed(s: State, st: Step, c: Chan, u: string)
    requires Enabled(s, st) && st.ClsRemove? && c in List(s, u) && c != s.threads[st.t].c
    ensures c in List(Next(s, st), u)
  {
    RemoveMember(List(s, u), s.threads[st.t].c, c);
  }

  lemma {:induction false} JoinedStep(s: State, st: Step)
    requires JoinedInv(s) && Enabled(s, st)
    ensures JoinedInv(Next(s, st))
  {
    var n := Next(s, st);
    RemovedGrows(s, st);
    forall c, u | HasJoined(n, c, u) && c !in n.removed
      ensures c in List(n, u)
    {
      if st.SubAppend? {
        JoinedAppend(s, st, c, u);
      } else {
        FrameStep(s, st);
        assert HasJoined(s, c, u);
        if st.ClsRemove? { StaysListed(s, st, c, u); }
      }
    }
  }

  predicate EarlyCloser(th: Thread) {
    th.ClsWantWrite? || th.ClsAnnounced?
  }

  ghost predicate HasCloser(s: State, c: Chan) {
    exists q :: q in s.threads && IsClosing(s.threads[q]) && s.threads[q].c == c
  }

  /** Between the end of its stream and its close, a channel has a closing goroutine. */
  ghost predicate EndInv(s: State) {
    && (forall c :: c in s.removed ==> Ch(s, c).done)
    && (forall q :: q in s.threads && EarlyCloser(s.threads[q]) ==> s.threads[q].c !in s.removed)
    && (forall c :: Ch(s, c).done && !Ch(s, c).closed ==> HasCloser(s, c))
  }

  lemma {:induction false} DoneSet(s: State, st: Step, c: Chan)
    requires Enabled(s, st)
    requires st.ContextDone? || st.Take? || st.StopConsumer? || st.ClsClose?
    ensures Ch(Next(s, st), c).done ==> Ch(s, c).done || (st.ContextDone? && st.c == c)
    ensures Ch(s, c).closed ==> Ch(Next(s, st), c).closed
  {
  }

  lemma {:induction false} DoneStep(s: State, st: Step, c: Chan)
    requires Enabled(s, st)
    ensures Ch(Next(s, st), c).done ==> Ch(s, c).done || (st.ContextDone? && st.c == c)
    ensures Ch(s, c).closed ==> Ch(Next(s, st), c).closed
  {
    if st.MsgSend? || st.SubGreet? {
      FlagsSend(s, st, c);
    } else if st.ContextDone? || st.Take? || st.StopConsumer? || st.ClsClose? {
      DoneSet(s, st, c);
    } else {
      FlagsOther(s, st, c);
    }
  }

  lemma {:induction false} CloserWaits(s: State, st: Step, q: Tid)
    requires Enabled(s, st) && q in s.threads && (!Moves(st, s.threads[q]) || q !in Actors(st))
    ensures q in Next(s, st).threads && Next(s, st).threads[q] == s.threads[q]
  {
    if q in Actors(st) { StaysPut(s, st, q); } else { FrameStep(s, st); }
  }

  lemma {:induction false} CloserCloses(s: State, st: Step, q: Tid)
    requires Enabled(s, st) && st.ClsClose? && q == st.t
    ensures Ch(Next(s, st), s.threads[q].c).closed
  {
  }

  lemma {:induction false} CloserMoves(s: State, st: Step, q: Tid)
    requires Enabled(s, st) && q in s.threads && q in Actors(st) && EarlyCloser(s.threads[q])
    requires st.Announce? || st.ClsRemove?
    ensures q in Next(s, st).threads && IsClosing(Next(s, st).threads[q])
    ensures Next(s, st).threads[q].c == s.threads[q].c
  {
  }

  /** A closing goroutine goes on until the channel is closed. */
  lemma {:induction false} CloserGoesOn(s: State, st: Step, q: Tid)
    requires Enabled(s, st) && q in s.threads && IsClosing(s.threads[q])
    ensures var n, c := Next(s, st), s.threads[q].c;
            (q in n.threads && IsClosing(n.threads[q]) && n.threads[q].c == c) || Ch(n, c).closed
  {
    if !Moves(st, s.threads[q]) || q !in Actors(st) {
      CloserWaits(s, st, q);
    } else if st.ClsClose? {
      CloserCloses(s, st, q);
    } else {
      CloserMoves(s, st, q);
    }
  }

  lemma {:induction false} CloserStarts(s: State, st: Step)
    requires Enabled(s, st) && st.ContextDone?
    ensures HasCloser(Next(s, st), st.c)
  {
    var n := Next(s, st);
    assert st.t in n.threads && n.threads[st.t] == ClsWantWrite(st.c);
  }

  lemma {:induction false} EarlyFrom(s: State, st: Step, n: State, q: Tid)
    requires q in n.threads && Origin(s, st, n, q) && EarlyCloser(n.threads[q])
    ensures || (st.ContextDone? && st.c == n.threads[q].c)
            || (q in s.threads && EarlyCloser(s.threads[q]) && s.threads[q].c == n.threads[q].c)
  {
    if q in s.threads && n.threads[q] != s.threads[q] { LeadsToClosing(s.threads[q], n.threads[q], s.losses); }
  }

  lemma {:induction false} RemoverDone(s: State, st: Step)
    requires Enabled(s, st) && st.ClsRemove?
    ensures st.t in Next(s, st).threads && Next(s, st).threads[st.t].ClsRemoved?
  {
  }

  lemma {:induction false} EarlyKept(s: State, st: Step, q: Tid)
    requires LockInv(s) && EndInv(s) && Enabled(s, st)
    requires q in Next(s, st).threads && EarlyCloser(Next(s, st).threads[q])
    ensures Next(s, st).threads[q].c !in Next(s, st).removed
  {
    OriginStep(s, st, q);
    RemovedGrows(s, st);
    EarlyFrom(s, st, Next(s, st), q);
    if st.ClsRemove? {
      RemoverDone(s, st);
      assert q in s.threads ==> !Conflict(s.threads[q], s.threads[st.t]);
    }
  }

  lemma {:induction false} EndStep(s: State, st: Step)
    requires LockInv(s) && EndInv(s) && Enabled(s, st)
    ensures EndInv(Next(s, st))
  {
    var n := Next(s, st);
    RemovedGrows(s, st);
    forall c
      ensures c in n.removed ==> Ch(n, c).done
      ensures Ch(n, c).done && !Ch(n, c).closed ==> HasCloser(n, c)
    {
      FlagsStep(s, st, c);
      DoneStep(s, st, c);
      if st.ContextDone? { CloserStarts(s, st); }
      if Ch(s, c).done && !Ch(s, c).closed {
        var q :| q in s.threads && IsClosing(s.threads[q]) && s.threads[q].c == c;
        CloserGoesOn(s, st, q);
      }
      if st.ClsRemove? { assert IsClosing(s.threads[st.t]); }
    }
    forall q | q in n.threads && EarlyCloser(n.threads[q])
      ensures n.threads[q].c !in n.removed
    {
      EarlyKept(s, st, q);
    }
  }

  ghost predicate TidyInv(s: State) {
    SafeInv(s) && JoinedInv(s) && EndInv(s)
  }

  lemma {:induction false} TidyInvRun(s: State, run: seq<Step>)
    requires TidyInv(s) && Run(s, run) && Along(Tidy, s, run)
    ensures TidyInv(After(s, run))
    decreases |run|
  {
    if run != [] {
      SafeStep(s, run[0]);
      JoinedStep(s, run[0]);
      EndStep(s, run[0]);
      TidyInvRun(Next(s, run[0]), run[1..]);
    }
  }

  // ----- from a closed channel in a list to the panic -----

  lemma {:induction false} LastOfDispatch(s: State, t: Tid) returns (run: seq<Step>, n: State)
    requires s.crash == None && t in s.threads && s.threads[t].MsgSending?
    requires !AtReceiver(s, t) || Ch(s, Receiver(s, t)).closed
    ensures Run(s, run) && After(s, run) == n && Appendless(run)
    ensures n == (if AtReceiver(s, t) then s.(crash := Some(SendOnClosed)) else s.(threads := s.threads - {t}))
  {
    var st := if AtReceiver(s, t) then MsgSend(t) else MsgEnd(t);
    RunOne(s, st);
    run, n := [st], Next(s, st);
  }

  lemma {:induction false} OpenSend(s: State, t: Tid) returns (st: Step)
    requires s.crash == None && AtReceiver(s, t) && !Ch(s, Receiver(s, t)).closed
    ensures Enabled(s, st) && !st.SubAppend?
    ensures var n, th := Next(s, st), s.threads[t];
            && n.crash == None && n.receivers == s.receivers && n.threads == s.threads[t := MsgSending(th.e, th.i + 1)]
            && forall d :: Ch(n, d).closed == Ch(s, d).closed
  {
    st := if |Ch(s, Receiver(s, t)).queue| < CAPACITY then MsgSend(t) else MsgDrop(t);
  }

  /** Dispatching goes on to its end, unless it panics. */
  lemma {:induction false} FinishDispatch(s: State, t: Tid) returns (run: seq<Step>, n: State)
    requires s.crash == None && t in s.threads && s.threads[t].MsgSending?
    ensures Run(s, run) && After(s, run) == n && Appendless(run)
    ensures n.crash == Some(SendOnClosed) || n.crash == None
    ensures n.crash == None ==>
              && n.threads == s.threads - {t} && n.receivers == s.receivers
              && forall d :: Ch(n, d).closed == Ch(s, d).closed
    decreases |List(s, Key(s.threads[t].e))| - s.threads[t].i
  {
    if !AtReceiver(s, t) || Ch(s, Receiver(s, t)).closed {
      run, n := LastOfDispatch(s, t);
    } else {
      var st := OpenSend(s, t);
      var s1, rest := Next(s, st), [];
      assert s1.threads[t] == MsgSending(s.threads[t].e, s.threads[t].i + 1);
      assert s1.threads - {t} == s.threads - {t};
      rest, n := FinishDispatch(s1, t);
      RunCons(s, st, rest);
      run := [st] + rest;
    }
  }

  /** The one message that may be waiting is handled, unless it panics. */
  lemma {:induction false} FinishMessage(s: State, m: Tid) returns (run: seq<Step>, n: State)
    requires LockInv(s) && s.crash == None && NoWriter(s) && NoReader(s)
    requires m in s.threads && s.threads[m].MsgWantRead?
    ensures Run(s, run) && After(s, run) == n && Appendless(run)
    ensures n.crash == Some(SendOnClosed) || Idle(n)
    ensures n.crash == None ==> n.receivers == s.receivers && forall d :: Ch(n, d).closed == Ch(s, d).closed
  {
    var s1 := Next(s, MsgLock(m));
    var th := s.threads[m];
    assert s1.threads == s.threads[m := MsgSending(Stamp(th.e, th.flagged), 0)];
    assert s1.crash == None && s1.receivers == s.receivers && s1.chans == s.chans;
    var rest;
    rest, n := FinishDispatch(s1, m);
    RunCons(s, MsgLock(m), rest);
    run := [MsgLock(m)] + rest;
    if n.crash == None {
      assert n.threads == s.threads - {m};
      forall q | q in n.threads
        ensures !IsMsg(n.threads[q])
      {
        assert !Conflict(s.threads[q], s.threads[m]);
      }
    }
  }

  lemma {:induction false} ReadyPanics(s: State, c: Chan, u: string) returns (run: seq<Step>)
    requires LockInv(s) && s.crash == None && NoWriter(s) && NoReader(s)
    requires c in List(s, u) && Ch(s, c).closed
    ensures Run(s, run) && After(s, run).crash == Some(SendOnClosed) && Appendless(run)
  {
    if m :| m in s.threads && IsMsg(s.threads[m]) {
      assert s.threads[m].MsgWantRead? by { assert !Reads(s.threads[m]); }
      var run1, n := FinishMessage(s, m);
      if n.crash == None {
        var rest := EventPanics(n, c, u);
        RunConcat(s, run1, rest);
        run := run1 + rest;
      } else {
        run := run1;
      }
    } else {
      run := EventPanics(s, c, u);
    }
  }

  // ----- from the breach to the closed channel in a list -----

  /** What SubAppend(t) can break: its channel has been removed, or is registered for
      the type URL already and the greeting, if there is one, can be sent. */
  ghost predicate Breach(s: State, t: Tid)
    requires t in s.threads && s.threads[t].SubAnnounced?
  {
    var c, u := s.threads[t].c, s.threads[t].u;
    c in s.removed || (HasJoined(s, c, u) && (u !in s.retained || Ch(s, c).live || |Ch(s, c).queue| < CAPACITY))
  }

  lemma {:induction false} LockAfter(s: State, st: Step)
    requires LockInv(s) && Enabled(s, st)
    ensures LockInv(Next(s, st))
  {
    ExclusiveStep(s, st);
    ClosersStep(s, st);
  }

  /** Once the Subscribe of `t` is over, `l` is free. */
  lemma {:induction false} FinishFrees(s: State, t: Tid) returns (n: State)
    requires LockInv(s) && s.crash == None && NoReader(s)
    requires t in s.threads && s.threads[t].SubFinishing?
    ensures Enabled(s, SubFinish(t)) && n == Next(s, SubFinish(t)) && LockInv(n)
    ensures n.crash == None && NoWriter(n) && NoReader(n) && n.receivers == s.receivers && n.chans == s.chans
    ensures n.removed == s.removed
    ensures forall q :: q in s.threads && q != t ==> q in n.threads && n.threads[q] == s.threads[q]
  {
    n := Next(s, SubFinish(t));
    LockAfter(s, SubFinish(t));
    FrameStep(s, SubFinish(t));
    forall q | q in n.threads
      ensures !Writes(n.threads[q]) && !Reads(n.threads[q])
    {
      if q != t { assert !Conflict(s.threads[q], s.threads[t]); }
    }
  }

  lemma {:induction false} CloseNow(s: State, c: Chan, q: Tid) returns (n: State)
    requires LockInv(s) && s.crash == None && q in s.threads && s.threads[q] == ClsRemoved(c) && !Ch(s, c).closed
    ensures Enabled(s, ClsClose(q)) && n == Next(s, ClsClose(q)) && LockInv(n) && n.crash == None
    ensures Ch(n, c).closed && n.threads == s.threads - {q} && n.receivers == s.receivers
  {
    n := Next(s, ClsClose(q));
    LockAfter(s, ClsClose(q));
  }

  /** A Subscribe that has appended a closed channel panics, at once or at the next event. */
  lemma {:induction false} ClosedPanics(s: State, t: Tid, c: Chan, u: string) returns (run: seq<Step>)
    requires LockInv(s) && s.crash == None && NoReader(s) && c in List(s, u) && Ch(s, c).closed
    requires t in s.threads && (s.threads[t].SubGreeting? || s.threads[t].SubFinishing?) && s.threads[t].c == c
    ensures Run(s, run) && After(s, run).crash == Some(SendOnClosed) && Appendless(run)
  {
    if s.threads[t].SubGreeting? {
      RunOne(s, SubGreet(t));
      run := [SubGreet(t)];
    } else {
      var n := FinishFrees(s, t);
      var rest := ReadyPanics(n, c, u);
      RunCons(s, SubFinish(t), rest);
      run := [SubFinish(t)] + rest;
    }
  }

  /** So does one that has appended a removed channel. */
  lemma {:induction false} RemovedPanics(s: State, t: Tid, c: Chan, u: string) returns (run: seq<Step>)
    requires LockInv(s) && s.crash == None && NoReader(s) && c in List(s, u)
    requires t in s.threads && (s.threads[t].SubGreeting? || s.threads[t].SubFinishing?) && s.threads[t].c == c
    requires Ch(s, c).closed || exists q :: q in s.threads && s.threads[q] == ClsRemoved(c)
    ensures Run(s, run) && After(s, run).crash == Some(SendOnClosed) && Appendless(run)
  {
    if Ch(s, c).closed {
      run := ClosedPanics(s, t, c, u);
    } else {
      var q :| q in s.threads && s.threads[q] == ClsRemoved(c);
      var n := CloseNow(s, c, q);
      var rest := ClosedPanics(n, t, c, u);
      RunCons(s, ClsClose(q), rest);
      run := [ClsClose(q)] + rest;
    }
  }

  /** UnsubscribeAll begins: the closing goroutine is the writer of `l`. */
  lemma {:induction false} AnnounceFrees(s: State, q: Tid, c: Chan) returns (n: State)
    requires LockInv(s) && s.crash == None && NoWriter(s) && NoReader(s)
    requires q in s.threads && s.threads[q] == ClsWantWrite(c)
    ensures Enabled(s, Announce(q)) && n == Next(s, Announce(q)) && LockInv(n)
    ensures n == s.(threads := s.threads[q := ClsAnnounced(c)]) && NoReader(n)
  {
    n := Next(s, Announce(q));
    LockAfter(s, Announce(q));
  }

  lemma {:induction false} RemoveFrees(s: State, q: Tid, g: Tid, c: Chan) returns (n: State)
    requires LockInv(s) && s.crash == None && NoReader(s) && g !in s.threads
    requires q in s.threads && s.threads[q] == ClsAnnounced(c)
    ensures Enabled(s, ClsRemove(q, g)) && n == Next(s, ClsRemove(q, g)) && LockInv(n) && n.crash == None
    ensures q in n.threads && n.threads[q] == ClsRemoved(c) && NoWriter(n) && NoReader(n)
    ensures n.receivers == RemoveEverywhere(s.receivers, c) && n.chans == s.chans
  {
    assert s.threads[q := ClsAnnounced(c)] == s.threads;
    n := RemoveEffect(s, s.threads, c, q, g);
    LockAfter(s, ClsRemove(q, g));
    forall r | r in n.threads
      ensures !Writes(n.threads[r]) && !Reads(n.threads[r])
    {
      if r != q && r != g { assert !Conflict(s.threads[r], s.threads[q]); }
    }
  }

  /** A stream that is about to end does so. */
  lemma {:induction false} EndCloses(s: State, q: Tid, c: Chan) returns (run: seq<Step>, n: State)
    requires LockInv(s) && s.crash == None && NoWriter(s) && NoReader(s)
    requires q in s.threads && s.threads[q] == ClsWantWrite(c) && !Ch(s, c).closed
    ensures Run(s, run) && After(s, run) == n && Appendless(run)
    ensures LockInv(n) && n.crash == None && NoWriter(n) && NoReader(n) && Ch(n, c).closed
    ensures n.receivers == RemoveEverywhere(s.receivers, c)
  {
    var g := FreshTid(s.threads.Keys);
    assert g !in s.threads;
    var s1 := AnnounceFrees(s, q, c);
    var s2 := RemoveFrees(s1, q, g, c);
    n := CloseNow(s2, c, q);
    RunOne(s2, ClsClose(q));
    RunCons(s1, ClsRemove(q, g), [ClsClose(q)]);
    RunCons(s, Announce(q), [ClsRemove(q, g)] + [ClsClose(q)]);
    run := [Announce(q)] + ([ClsRemove(q, g)] + [ClsClose(q)]);
  }

  /** A stream that is about to end, and whose channel survives its removal. */
  lemma {:induction false} EndPanics(s: State, q: Tid, c: Chan, u: string) returns (run: seq<Step>)
    requires LockInv(s) && s.crash == None && NoWriter(s) && NoReader(s)
    requires q in s.threads && s.threads[q] == ClsWantWrite(c)
    requires !Ch(s, c).closed && c in RemoveInPlace(List(s, u), c)
    ensures Run(s, run) && After(s, run).crash == Some(SendOnClosed) && Appendless(run)
  {
    var run1, n := EndCloses(s, q, c);
    assert List(n, u) == RemoveInPlace(List(s, u), c);
    var rest := ReadyPanics(n, c, u);
    RunConcat(s, run1, rest);
    run := run1 + rest;
  }

  /** The stream is made to end if it has not ended yet. */
  lemma {:induction false} SurvivorEnds(s: State, c: Chan, u: string) returns (run: seq<Step>)
    requires LockInv(s) && s.crash == None && NoWriter(s) && NoReader(s)
    requires !Ch(s, c).closed && c in RemoveInPlace(List(s, u), c)
    requires Ch(s, c).done ==> exists q :: q in s.threads && s.threads[q] == ClsWantWrite(c)
    ensures Run(s, run) && After(s, run).crash == Some(SendOnClosed) && Appendless(run)
  {
    if Ch(s, c).done {
      var q :| q in s.threads && s.threads[q] == ClsWantWrite(c);
      run := EndPanics(s, q, c, u);
    } else {
      var q := FreshTid(s.threads.Keys);
      assert q !in s.threads;
      var n := Next(s, ContextDone(c, q));
      assert n.threads == s.threads[q := ClsWantWrite(c)] && n.receivers == s.receivers;
      LockAfter(s, ContextDone(c, q));
      var rest := EndPanics(n, q, c, u);
      RunCons(s, ContextDone(c, q), rest);
      run := [ContextDone(c, q)] + rest;
    }
  }

  lemma {:induction false} TakeOne(s: State, c: Chan) returns (n: State)
    requires LockInv(s) && s.crash == None && Ch(s, c).live && Ch(s, c).queue != []
    ensures Enabled(s, Take(c)) && n == Next(s, Take(c)) && LockInv(n) && n.crash == None
    ensures n.threads == s.threads && n.receivers == s.receivers && SameFlags(s, n) && Ch(n, c).live
    ensures |Ch(n, c).queue| == |Ch(s, c).queue| - 1
  {
    n := Next(s, Take(c));
    LockAfter(s, Take(c));
  }

  lemma {:induction false} GreetStepGoes(s: State, t: Tid) returns (n: State)
    requires LockInv(s) && s.crash == None && NoReader(s) && t in s.threads && s.threads[t].SubGreeting?
    requires !Ch(s, s.threads[t].c).closed && |Ch(s, s.threads[t].c).queue| < CAPACITY
    ensures Enabled(s, SubGreet(t)) && n == Next(s, SubGreet(t))
    ensures LockInv(n) && n.crash == None && NoReader(n) && SameFlags(s, n) && n.receivers == s.receivers
    ensures n.threads == s.threads[t := SubFinishing(s.threads[t].c, s.threads[t].u)]
  {
    n := Next(s, SubGreet(t));
    LockAfter(s, SubGreet(t));
  }

  /** A greeting that can be sent is sent, after the consumer has made room. */
  lemma {:induction false} GreetGoes(s: State, t: Tid) returns (run: seq<Step>, n: State)
    requires LockInv(s) && s.crash == None && NoReader(s) && t in s.threads && s.threads[t].SubGreeting?
    requires var ch := Ch(s, s.threads[t].c); !ch.closed && (ch.live || |ch.queue| < CAPACITY)
    ensures Run(s, run) && After(s, run) == n && Appendless(run) && Unprompted(run)
    ensures LockInv(n) && n.crash == None && NoReader(n) && SameFlags(s, n)
    ensures n.receivers == s.receivers
    ensures n.threads == s.threads[t := SubFinishing(s.threads[t].c, s.threads[t].u)]
    decreases |Ch(s, s.threads[t].c).queue|
  {
    var c := s.threads[t].c;
    if |Ch(s, c).queue| < CAPACITY {
      n := GreetStepGoes(s, t);
      RunOne(s, SubGreet(t));
      run := [SubGreet(t)];
    } else {
      var s1 := TakeOne(s, c);
      var rest;
      rest, n := GreetGoes(s1, t);
      RunCons(s, Take(c), rest);
      run := [Take(c)] + rest;
    }
  }

  lemma {:induction false} FinishedRepeats(s: State, t: Tid, c: Chan, u: string) returns (run: seq<Step>)
    requires LockInv(s) && s.crash == None && NoReader(s)
    requires t in s.threads && s.threads[t].SubFinishing? && s.threads[t].c == c
    requires !Ch(s, c).closed && c in RemoveInPlace(List(s, u), c)
    requires Ch(s, c).done ==> exists q :: q in s.threads && s.threads[q] == ClsWantWrite(c)
    ensures Run(s, run) && After(s, run).crash == Some(SendOnClosed) && Appendless(run)
  {
    var n := FinishFrees(s, t);
    if Ch(s, c).done {
      var q :| q in s.threads && s.threads[q] == ClsWantWrite(c);
      assert q in n.threads && n.threads[q] == ClsWantWrite(c);
    }
    var rest := SurvivorEnds(n, c, u);
    RunCons(s, SubFinish(t), rest);
    run := [SubFinish(t)] + rest;
  }

  /** A Subscribe that has appended a channel which will survive its removal. */
  lemma {:induction false} RepeatedPanics(s: State, t: Tid, c: Chan, u: string) returns (run: seq<Step>)
    requires LockInv(s) && s.crash == None && NoReader(s)
    requires t in s.threads && (s.threads[t].SubGreeting? || s.threads[t].SubFinishing?) && s.threads[t].c == c
    requires !Ch(s, c).closed && c in RemoveInPlace(List(s, u), c)
    requires s.threads[t].SubGreeting? ==> Ch(s, c).live || |Ch(s, c).queue| < CAPACITY
    requires Ch(s, c).done ==> exists q :: q in s.threads && s.threads[q] == ClsWantWrite(c)
    ensures Run(s, run) && After(s, run).crash == Some(SendOnClosed) && Appendless(run)
  {
    if s.threads[t].SubFinishing? {
      run := FinishedRepeats(s, t, c, u);
    } else {
      var run1, s1 := GreetGoes(s, t);
      if Ch(s, c).done {
        var q :| q in s.threads && s.threads[q] == ClsWantWrite(c);
        assert q in s1.threads && s1.threads[q] == ClsWantWrite(c);
      }
      var rest := FinishedRepeats(s1, t, c, u);
      RunConcat(s, run1, rest);
      run := run1 + rest;
    }
  }

  // ----- the rules are exact -----

  lemma {:induction false} AppendLeads(s: State, t: Tid) returns (n: State)
    requires LockInv(s) && Enabled(s, SubAppend(t))
    ensures n == Next(s, SubAppend(t)) && LockInv(n) && n.crash == None && NoReader(n)
    ensures n.receivers == AppendTo(s.receivers, s.threads[t].u, s.threads[t].c)
    ensures n.chans == s.chans && n.removed == s.removed
    ensures var c, u := s.threads[t].c, s.threads[t].u;
            && t in n.threads
            && n.threads[t] == if u in s.retained then SubGreeting(c, u, s.retained[u]) else SubFinishing(c, u)
    ensures forall q :: q in s.threads && q != t ==> q in n.threads && n.threads[q] == s.threads[q]
  {
    n := Next(s, SubAppend(t));
    LockAfter(s, SubAppend(t));
  }

  lemma {:induction false} CloserOfRemoved(s: State, c: Chan)
    requires TidyInv(s) && c in s.removed
    ensures Ch(s, c).closed || exists q :: q in s.threads && s.threads[q] == ClsRemoved(c)
  {
    if !Ch(s, c).closed {
      var q :| q in s.threads && IsClosing(s.threads[q]) && s.threads[q].c == c;
      assert !EarlyCloser(s.threads[q]);
      assert s.threads[q] == ClsRemoved(c);
    }
  }

  lemma {:induction false} CloserOfDone(s: State, t: Tid, c: Chan)
    requires TidyInv(s) && c !in s.removed && t in s.threads && s.threads[t].SubAnnounced?
    ensures Ch(s, c).done ==> exists q :: q in s.threads && s.threads[q] == ClsWantWrite(c)
  {
    if Ch(s, c).done {
      assert !Ch(s, c).closed;
      var q :| q in s.threads && IsClosing(s.threads[q]) && s.threads[q].c == c;
      assert !Conflict(s.threads[q], s.threads[t]);
      assert s.threads[q] == ClsWantWrite(c);
    }
  }

  /** Every breach can lead to the panic. */
  lemma {:induction false} BreachPanics(s: State, t: Tid) returns (run: seq<Step>)
    requires TidyInv(s) && Enabled(s, SubAppend(t)) && Breach(s, t)
    ensures var n := Next(s, SubAppend(t));
            Run(n, run) && Along(Tidy, n, run) && After(n, run).crash == Some(SendOnClosed)
  {
    var c, u := s.threads[t].c, s.threads[t].u;
    var n := AppendLeads(s, t);
    assert List(n, u) == List(s, u) + [c] && List(n, u)[|List(s, u)|] == c;
    if c in s.removed {
      CloserOfRemoved(s, c);
      if !Ch(s, c).closed {
        var q :| q in s.threads && s.threads[q] == ClsRemoved(c);
        assert q in n.threads && n.threads[q] == ClsRemoved(c);
      }
      run := RemovedPanics(n, t, c, u);
    } else {
      CloserOfDone(s, t, c);
      if Ch(s, c).done {
        var q :| q in s.threads && s.threads[q] == ClsWantWrite(c);
        assert q in n.threads && n.threads[q] == ClsWantWrite(c);
      }
      assert c in List(s, u) && !Ch(s, c).closed;
      OnceMoreSurvives(List(s, u), c);
      run := RepeatedPanics(n, t, c, u);
    }
    AppendlessIsTidy(n, run);
  }

  lemma {:induction false} ClosePanicKind(s: State, st: Step)
    requires Enabled(s, st) && st.ClsClose?
    ensures Next(s, st).crash != Some(SendOnClosed)
  {
  }

  lemma {:induction false} CallPanicKind(s: State, st: Step)
    requires Enabled(s, st) && (st.FlCall? || st.UnCall?)
    ensures Next(s, st).crash != Some(SendOnClosed)
  {
  }

  lemma {:induction false} StuckStep(s: State, t: Tid, st: Step)
    requires LockInv(s) && Jammed(s, t) && Enabled(s, st)
    ensures Next(s, st).crash != Some(SendOnClosed)
  {
    if st.MsgSend? || st.SubGreet? {
      assert st.t != t ==> !Conflict(s.threads[st.t], s.threads[t]);
      assert Writing(s.threads[t]);
    } else if st.ClsClose? {
      ClosePanicKind(s, st);
    } else if st.FlCall? || st.UnCall? {
      CallPanicKind(s, st);
    } else {
      OthersNeverPanic(s, st);
    }
  }

  /** A stuck greeting keeps everybody from sending. */
  lemma {:induction false} StuckNeverSends(s: State, t: Tid, run: seq<Step>)
    requires LockInv(s) && Jammed(s, t) && Run(s, run) && s.crash != Some(SendOnClosed)
    ensures After(s, run).crash != Some(SendOnClosed)
    decreases |run|
  {
    if run != [] {
      StuckStep(s, t, run[0]);
      StuckStays(s, t, run[0]);
      LockAfter(s, run[0]);
      StuckNeverSends(Next(s, run[0]), t, run[1..]);
    }
  }

  /** From here a tidy run can end in a send on a closed channel. */
  ghost predicate CanPanic(s: State) {
    exists run :: Run(s, run) && Along(Tidy, s, run) && After(s, run).crash == Some(SendOnClosed)
  }

  lemma {:induction false} BecomesStuck(s: State, n: State, t: Tid, c: Chan)
    requires TidyInv(s) && Enabled(s, SubAppend(t)) && n == Next(s, SubAppend(t))
    requires c == s.threads[t].c && c !in s.removed && n.chans == s.chans
    requires t in n.threads && n.threads[t].SubGreeting? && n.threads[t].c == c
    requires !Ch(s, c).live && |Ch(s, c).queue| >= CAPACITY
    ensures Jammed(n, t)
  {
    assert !Ch(s, c).closed;
    forall q | q in n.threads && n.threads[q].ClsRemoved?
      ensures n.threads[q].c != c
    {
      OriginStep(s, SubAppend(t), q);
      assert s.threads[q].ClsRemoved?;
    }
  }

  lemma {:induction false} NoBreachNoPanic(s: State, t: Tid, run: seq<Step>)
    requires TidyInv(s) && Enabled(s, SubAppend(t)) && !Breach(s, t)
    requires Run(Next(s, SubAppend(t)), run) && Along(Tidy, Next(s, SubAppend(t)), run)
    ensures After(Next(s, SubAppend(t)), run).crash != Some(SendOnClosed)
  {
    var c, u := s.threads[t].c, s.threads[t].u;
    var n := AppendLeads(s, t);
    if HasJoined(s, c, u) {
      BecomesStuck(s, n, t, c);
      StuckNeverSends(n, t, run);
    } else {
      SafeStep(s, SubAppend(t));
      SafeRun(n, run);
    }
  }

  /** In every state a tidy run can reach, the Subscribe that is about to append can lead,
      by a tidy continuation, to a send on a closed channel if and only if its channel
      has been removed, or is registered for that type URL already and any greeting can
      be sent. */
  lemma {:induction false} TidyIsExact(run: seq<Step>, t: Tid)
    requires Run(INIT, run) && Along(Tidy, INIT, run)
    requires Enabled(After(INIT, run), SubAppend(t))
    ensures CanPanic(Next(After(INIT, run), SubAppend(t))) <==> Breach(After(INIT, run), t)
  {
    var s := After(INIT, run);
    TidyInvRun(INIT, run);
    var n := Next(s, SubAppend(t));
    if Breach(s, t) {
      var rest := BreachPanics(s, t);
    } else if rest :| Run(n, rest) && Along(Tidy, n, rest) && After(n, rest).crash == Some(SendOnClosed) {
      NoBreachNoPanic(s, t, rest);
    }
  }
}
