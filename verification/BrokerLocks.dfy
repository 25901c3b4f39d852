/** The two-lock protocol: who holds what, and why somebody can always move. */
module BrokerLocks {
  import opened Events
  import opened Topics
  import opened ReceiverLists
  import opened BrokerMachine

  /** Past its entry, a Subscribe shares `l` with no reader. */
  predicate Writing(th: Thread) {
    th.SubGreeting? || th.SubFinishing?
  }

  /** Two program points that no two goroutines may be at together. */
  predicate Conflict(a: Thread, b: Thread) {
    || (HoldsConn(a) && HoldsConn(b))
    || (Writes(a) && Writes(b))
    || (Writing(a) && Reads(b)) || (Reads(a) && Writing(b))
    || (IsMsg(a) && IsMsg(b))
    || (IsFlight(a) && IsFlight(b) && MakeTopic(a.u) == MakeTopic(b.u))
    || (IsClosing(a) && IsClosing(b) && a.c == b.c)
  }

  ghost predicate Exclusive(threads: map<Tid, Thread>) {
    forall t, q :: t in threads && q in threads && t != q ==> !Conflict(threads[t], threads[q])
  }

  /** A point that claims no more than another one. */
  predicate ClaimsLess(a: Thread, b: Thread) {
    && (HoldsConn(a) ==> HoldsConn(b))
    && (Writes(a) ==> Writes(b))
    && (Writing(a) ==> Writing(b))
    && (Reads(a) ==> Reads(b))
    && (IsMsg(a) ==> IsMsg(b))
    && (IsFlight(a) ==> IsFlight(b) && a.u == b.u)
    && (IsClosing(a) ==> IsClosing(b) && a.c == b.c)
  }

  lemma {:induction false} AddKeeps(threads: map<Tid, Thread>, t: Tid, th: Thread)
    requires Exclusive(threads)
    requires forall q :: q in threads && q != t ==> !Conflict(th, threads[q])
    ensures Exclusive(threads[t := th])
  {
  }

  lemma {:induction false} LessKeeps(threads: map<Tid, Thread>, t: Tid, th: Thread)
    requires Exclusive(threads) && t in threads && ClaimsLess(th, threads[t])
    ensures Exclusive(threads[t := th])
  {
    AddKeeps(threads, t, th);
  }

  /** A closing goroutine exists only for a stream that is done. */
  ghost predicate ClosersDone(s: State) {
    forall t :: t in s.threads && IsClosing(s.threads[t]) ==> Ch(s, s.threads[t].c).done
  }

  ghost predicate LockInv(s: State) {
    Exclusive(s.threads) && ClosersDone(s)
  }

  lemma {:induction false} ExclusiveSpawn(s: State, st: Step)
    requires LockInv(s) && Enabled(s, st)
    requires st.Arrive? || st.Request? || st.ConnectionUp? || st.PublishRequest?
    ensures Exclusive(Next(s, st).threads)
  {
    AddKeeps(s.threads, st.t, Next(s, st).threads[st.t]);
  }

  lemma {:induction false} ExclusiveDone(s: State, st: Step)
    requires LockInv(s) && Enabled(s, st)
    requires st.ContextDone?
    ensures Exclusive(Next(s, st).threads)
  {
    AddKeeps(s.threads, st.t, Next(s, st).threads[st.t]);
  }

  lemma {:induction false} ExclusiveLockConn(s: State, st: Step)
    requires LockInv(s) && Enabled(s, st)
    requires st.LockConn?
    ensures Exclusive(Next(s, st).threads)
  {
    AddKeeps(s.threads, st.t, Next(s, st).threads[st.t]);
  }

  lemma {:induction false} ExclusiveAnnounce(s: State, st: Step)
    requires LockInv(s) && Enabled(s, st)
    requires st.Announce?
    ensures Exclusive(Next(s, st).threads)
  {
    AddKeeps(s.threads, st.t, Next(s, st).threads[st.t]);
  }

  lemma {:induction false} ExclusiveRLock(s: State, st: Step)
    requires LockInv(s) && Enabled(s, st)
    requires st.MsgLock?
    ensures Exclusive(Next(s, st).threads)
  {
    AddKeeps(s.threads, st.t, Next(s, st).threads[st.t]);
  }

  lemma {:induction false} ExclusiveOcLock(s: State, st: Step)
    requires LockInv(s) && Enabled(s, st)
    requires st.OcLock?
    ensures Exclusive(Next(s, st).threads)
  {
    AddKeeps(s.threads, st.t, Next(s, st).threads[st.t]);
  }

  lemma {:induction false} ExclusiveAppend(s: State, st: Step)
    requires LockInv(s) && Enabled(s, st)
    requires st.SubAppend?
    ensures Exclusive(Next(s, st).threads)
  {
    AddKeeps(s.threads, st.t, Next(s, st).threads[st.t]);
  }

  lemma {:induction false} ExclusiveRemove(s: State, st: Step)
    requires LockInv(s) && Enabled(s, st)
    requires st.ClsRemove?
    ensures Exclusive(Next(s, st).threads)
  {
    var t, threads := st.t, s.threads;
    LessKeeps(threads, t, ClsRemoved(threads[t].c));
    AddKeeps(threads[t := ClsRemoved(threads[t].c)], st.g, UnWantConn(CleanupKeys(s.receivers, threads[t].c)));
  }

  lemma {:induction false} ExclusiveFlight(s: State, st: Step)
    requires LockInv(s) && Enabled(s, st)
    requires st.FlStart?
    ensures Exclusive(Next(s, st).threads)
  {
    var t, threads := st.t, s.threads;
    if !InFlight(s, MakeTopic(threads[t].u)) { AddKeeps(threads, t, FlWantConn(threads[t].u)); }
  }

  lemma {:induction false} ExclusiveSend(s: State, st: Step)
    requires LockInv(s) && Enabled(s, st)
    requires st.MsgSend? || st.MsgDrop? || st.OcSub?
    ensures Exclusive(Next(s, st).threads)
  {
    LessKeeps(s.threads, st.t, Next(s, st).threads[st.t]);
  }

  lemma {:induction false} ExclusiveGreet(s: State, st: Step)
    requires LockInv(s) && Enabled(s, st)
    requires st.SubGreet?
    ensures Exclusive(Next(s, st).threads)
  {
    LessKeeps(s.threads, st.t, Next(s, st).threads[st.t]);
  }

  lemma {:induction false} ExclusiveFinish(s: State, st: Step)
    requires LockInv(s) && Enabled(s, st)
    requires st.SubFinish?
    ensures Exclusive(Next(s, st).threads)
  {
    var after := Next(s, st).threads;
    if st.t in after {
      LessKeeps(s.threads, st.t, after[st.t]);
    }
  }

  lemma {:induction false} ExclusiveCall(s: State, st: Step)
    requires LockInv(s) && Enabled(s, st)
    requires st.FlCall? || st.FlStore?
    ensures Exclusive(Next(s, st).threads)
  {
    var after := Next(s, st).threads;
    if st.t in after {
      LessKeeps(s.threads, st.t, after[st.t]);
    }
  }

  lemma {:induction false} ExclusiveStep(s: State, st: Step)
    requires LockInv(s) && Enabled(s, st)
    ensures Exclusive(Next(s, st).threads)
  {
    if st.Arrive? { ExclusiveSpawn(s, st); }
    else if st.Request? { ExclusiveSpawn(s, st); }
    else if st.ContextDone? { ExclusiveDone(s, st); }
    else if st.ConnectionUp? { ExclusiveSpawn(s, st); }
    else if st.PublishRequest? { ExclusiveSpawn(s, st); }
    else if st.LockConn? { ExclusiveLockConn(s, st); }
    else if st.Announce? { ExclusiveAnnounce(s, st); }
    else if st.MsgLock? { ExclusiveRLock(s, st); }
    else if st.OcLock? { ExclusiveOcLock(s, st); }
    else if st.SubAppend? { ExclusiveAppend(s, st); }
    else if st.ClsRemove? { ExclusiveRemove(s, st); }
    else if st.FlStart? { ExclusiveFlight(s, st); }
    else if st.MsgSend? { ExclusiveSend(s, st); }
    else if st.MsgDrop? { ExclusiveSend(s, st); }
    else if st.OcSub? { ExclusiveSend(s, st); }
    else if st.SubGreet? { ExclusiveGreet(s, st); }
    else if st.SubFinish? { ExclusiveFinish(s, st); }
    else if st.FlCall? { ExclusiveCall(s, st); }
    else if st.FlStore? { ExclusiveCall(s, st); }
  }

  lemma {:induction false} ClosersFlags(s: State, st: Step)
    requires ClosersDone(s) && Enabled(s, st)
    requires st.ContextDone? || st.Take? || st.StopConsumer?
    ensures ClosersDone(Next(s, st))
  {
  }

  lemma {:induction false} ClosersChannels(s: State, st: Step)
    requires ClosersDone(s) && Enabled(s, st)
    requires st.MsgSend? || st.SubGreet?
    ensures ClosersDone(Next(s, st))
  {
    if st.MsgSend? { SendFlags(s, st.t); } else { GreetFlags(s, st.t); }
  }

  lemma {:induction false} ClosersClose(s: State, st: Step)
    requires ClosersDone(s) && Enabled(s, st) && st.ClsClose?
    ensures ClosersDone(Next(s, st))
  {
    CloseFlags(s, st.t);
  }

  lemma {:induction false} ClosersLocal(s: State, st: Step)
    requires ClosersDone(s) && Enabled(s, st)
    requires st.Arrive? || st.Request? || st.ConnectionUp? || st.PublishRequest? || st.MsgLock? || st.MsgDrop? ||
             st.MsgEnd? || st.SubAppend? || st.SubFinish? || st.ClsRemove?
    ensures ClosersDone(Next(s, st))
  {
  }

  lemma {:induction false} ClosersRemote(s: State, st: Step)
    requires ClosersDone(s) && Enabled(s, st)
    requires st.ConnectionLost? || st.LockConn? || st.Announce? || st.FlStart? || st.FlCall? || st.FlStore? ||
             st.FlLeave? || st.UnCall? || st.OcLock? || st.OcSub? || st.OcEnd? || st.PubCall?
    ensures ClosersDone(Next(s, st))
  {
  }

  lemma {:induction false} ClosersStep(s: State, st: Step)
    requires ClosersDone(s) && Enabled(s, st)
    ensures ClosersDone(Next(s, st))
  {
    if st.ContextDone? || st.Take? || st.StopConsumer? {
      ClosersFlags(s, st);
    } else if st.MsgSend? || st.SubGreet? {
      ClosersChannels(s, st);
    } else if st.ClsClose? {
      ClosersClose(s, st);
    } else if st.Arrive? || st.Request? || st.ConnectionUp? || st.PublishRequest? || st.MsgLock? || st.MsgDrop? ||
              st.MsgEnd? || st.SubAppend? || st.SubFinish? || st.ClsRemove? {
      ClosersLocal(s, st);
    } else {
      ClosersRemote(s, st);
    }
  }

  lemma {:induction false} LockRun(s: State, run: seq<Step>)
    requires LockInv(s) && Run(s, run)
    ensures LockInv(After(s, run))
    decreases |run|
  {
    if run != [] {
      ExclusiveStep(s, run[0]);
      ClosersStep(s, run[0]);
      LockRun(Next(s, run[0]), run[1..]);
    }
  }

  /** In every run the two locks, the flights, the dispatch and the closing goroutines
      exclude each other, and no goroutine waits for connLock while it holds a lock, or
      for `l` while it holds `l`. */
  lemma {:induction false} LockDiscipline(run: seq<Step>, t: Tid)
    requires Run(INIT, run) && t in After(INIT, run).threads
    ensures var threads := After(INIT, run).threads;
            && (forall q :: q in threads && q != t ==> !Conflict(threads[t], threads[q]))
            && (WaitsConn(threads[t]) ==> !HoldsConn(threads[t]) && !Reads(threads[t]) && !Writes(threads[t]))
            && (WaitsLock(threads[t]) ==> !Reads(threads[t]) && !Writes(threads[t]))
  {
    LockRun(INIT, run);
  }

  /** Nobody but `t` has announced itself as the writer of `l`, and nobody reads. */
  ghost predicate WritesAlone(s: State, t: Tid) {
    && t in s.threads && Writes(s.threads[t]) && NoReader(s)
    && forall q :: q in s.threads && q != t ==> !Writes(s.threads[q])
  }

  ghost predicate HoldsConnAlone(s: State, t: Tid) {
    t in s.threads && HoldsConn(s.threads[t]) && forall q :: q in s.threads && q != t ==> !HoldsConn(s.threads[q])
  }

  lemma {:induction false} Alone(s: State, t: Tid)
    requires Exclusive(s.threads) && t in s.threads
    ensures Writes(s.threads[t]) && NoReader(s) ==> WritesAlone(s, t)
    ensures HoldsConn(s.threads[t]) ==> HoldsConnAlone(s, t)
  {
    assert forall q :: q in s.threads && q != t ==> !Conflict(s.threads[q], s.threads[t]);
  }

  lemma {:induction false} ListAccess(s: State, st: Step)
    requires LockInv(s) && Enabled(s, st)
    ensures Next(s, st).receivers != s.receivers || Next(s, st).topics != s.topics ==>
              (st.SubAppend? || st.ClsRemove? || st.FlStore?) && WritesAlone(s, st.t)
  {
    FrameStep(s, st);
    if st.SubAppend? || st.ClsRemove? || st.FlStore? { Alone(s, st.t); }
  }

  lemma {:induction false} CacheAccess(s: State, st: Step)
    requires LockInv(s) && Enabled(s, st)
    ensures Next(s, st).retained != s.retained ==>
              || (st.ClsRemove? && WritesAlone(s, st.t))
              || (st.MsgLock? && NoWriter(s) && st.t in s.threads && IsMsg(s.threads[st.t]) &&
                  forall q :: q in s.threads && q != st.t ==> !IsMsg(s.threads[q]))
  {
    FrameStep(s, st);
    if st.ClsRemove? { Alone(s, st.t); }
    if st.MsgLock? { assert forall q :: q in s.threads && q != st.t ==> !Conflict(s.threads[q], s.threads[st.t]); }
  }

  lemma {:induction false} SessionAccess(s: State, st: Step)
    requires LockInv(s) && Enabled(s, st)
    ensures Next(s, st).session != s.session ==>
              st.ConnectionLost? || ((st.FlCall? || st.UnCall? || st.OcSub?) && HoldsConnAlone(s, st.t))
    ensures Next(s, st).linked != s.linked ==> st.LockConn? && ConnFree(s)
  {
    FrameStep(s, st);
    if st.FlCall? || st.UnCall? || st.OcSub? { Alone(s, st.t); }
  }

  /** No data race, in every run: the lists and topics change only under `l` locked for
      writing, the cache only so or in the one dispatch at work with no writer inside, and
      the session and the connection only under connLock. */
  lemma {:induction false} AccessUnderLocks(run: seq<Step>, st: Step)
    requires Run(INIT, run) && Enabled(After(INIT, run), st)
    ensures var s, n := After(INIT, run), Next(After(INIT, run), st);
            && (n.receivers != s.receivers || n.topics != s.topics ==>
                  (st.SubAppend? || st.ClsRemove? || st.FlStore?) && WritesAlone(s, st.t))
            && (n.retained != s.retained ==>
                  || (st.ClsRemove? && WritesAlone(s, st.t))
                  || (st.MsgLock? && NoWriter(s) && forall q :: q in s.threads && q != st.t ==> !IsMsg(s.threads[q])))
            && (n.session != s.session ==>
                  st.ConnectionLost? || ((st.FlCall? || st.UnCall? || st.OcSub?) && HoldsConnAlone(s, st.t)))
            && (n.linked != s.linked ==> st.LockConn? && ConnFree(s))
  {
    LockRun(INIT, run);
    ListAccess(After(INIT, run), st);
    CacheAccess(After(INIT, run), st);
    SessionAccess(After(INIT, run), st);
  }

  // ----- somebody can always move -----

  /** A Subscribe whose greeting found the channel full and its consumer gone,
      before the stream's UnsubscribeAll could run. */
  ghost predicate Jammed(s: State, t: Tid) {
    && t in s.threads && s.threads[t].SubGreeting?
    && (var ch := Ch(s, s.threads[t].c); !ch.closed && !ch.live && |ch.queue| >= CAPACITY)
    && (forall q :: q in s.threads && s.threads[q].ClsRemoved? ==> s.threads[q].c != s.threads[t].c)
  }

  ghost predicate NoneJammed(s: State) {
    forall t :: t in s.threads ==> !Jammed(s, t)
  }

  ghost predicate CanMove(s: State, st: Step) {
    Enabled(s, st) && !Environment(st)
  }

  lemma {:induction false} FreshTid(tids: set<Tid>) returns (g: Tid)
    ensures forall t :: t in tids ==> t < g
  {
    if tids == {} { return 0; }
    var t :| t in tids;
    var h := FreshTid(tids - {t});
    g := if h <= t then t + 1 else h;
    assert forall q :: q in tids ==> q == t || q in tids - {t};
  }

  lemma {:induction false} ReaderMoves(s: State, t: Tid) returns (st: Step)
    requires s.crash == None && t in s.threads && Reads(s.threads[t])
    ensures CanMove(s, st) && !st.Take?
  {
    match s.threads[t]
    case MsgSending(e, i) =>
      if !AtReceiver(s, t) { return MsgEnd(t); }
      var ch := Ch(s, Receiver(s, t));
      if ch.closed || |ch.queue| < CAPACITY { return MsgSend(t); }
      return MsgDrop(t);
    case OcResub(todo, clean, began) =>
      if todo == {} { return OcEnd(t); }
      var u :| u in todo;
      return OcSub(t, u, false, false);
  }

  lemma {:induction false} WriterMoves(s: State, t: Tid) returns (st: Step)
    requires s.crash == None && t in s.threads && Writes(s.threads[t]) && NoReader(s) && !Jammed(s, t)
    ensures CanMove(s, st)
    ensures st.Take? ==> exists q :: q in s.threads && s.threads[q].SubGreeting? && s.threads[q].c == st.c
  {
    match s.threads[t]
    case SubAnnounced(c, u) => return SubAppend(t);
    case SubGreeting(c, u, e) =>
      var ch := Ch(s, c);
      if ch.closed || |ch.queue| < CAPACITY { return SubGreet(t); }
      if ch.live { return Take(c); }
      var q :| q in s.threads && s.threads[q].ClsRemoved? && s.threads[q].c == c;
      return ClsClose(q);
    case SubFinishing(c, u) => return SubFinish(t);
    case ClsAnnounced(c) =>
      var g := FreshTid(s.threads.Keys);
      assert g !in s.threads;
      return ClsRemove(t, g);
    case FlAnnounced(u) => return FlStore(t);
  }

  lemma {:induction false} WaiterMoves(s: State, t: Tid) returns (st: Step)
    requires s.crash == None && t in s.threads && NoWriter(s) && WaitsLock(s.threads[t])
    ensures CanMove(s, st) && !st.Take?
  {
    match s.threads[t]
    case MsgWantRead(e, flagged) => return MsgLock(t);
    case OcWantRead(began) => return OcLock(t);
    case _ => return Announce(t);
  }

  /** A goroutine that waits for nothing. */
  lemma {:induction false} FreeMoves(s: State, t: Tid) returns (st: Step)
    requires s.crash == None && t in s.threads
    requires var th := s.threads[t]; !WaitsConn(th) && !WaitsLock(th) && !Reads(th) && !Writes(th)
    ensures CanMove(s, st) && !st.Take?
  {
    match s.threads[t]
    case ClsRemoved(c) => return ClsClose(t);
    case GoStart(u) => return FlStart(t);
    case FlHasConn(u) => return FlCall(t, false, false);
    case FlLeaving(u) => return FlLeave(t);
    case UnHasConn(keys) => return UnCall(t, {});
    case PubHasConn => return PubCall(t);
  }

  /** Deadlock freedom: while any goroutine is unfinished and no greeting is jammed, some
      goroutine or consumer can take a step without help from the environment. */
  lemma {:induction false} DeadlockFree(s: State) returns (st: Step)
    requires s.crash == None && s.threads != map[] && NoneJammed(s)
    ensures CanMove(s, st)
    ensures st.Take? ==> exists q :: q in s.threads && s.threads[q].SubGreeting? && s.threads[q].c == st.c
  {
    if r :| r in s.threads && Reads(s.threads[r]) {
      st := ReaderMoves(s, r);
    } else if w :| w in s.threads && Writes(s.threads[w]) {
      st := WriterMoves(s, w);
    } else if h :| h in s.threads && !WaitsConn(s.threads[h]) {
      if WaitsLock(s.threads[h]) { st := WaiterMoves(s, h); } else { st := FreeMoves(s, h); }
    } else {
      assert forall q :: q in s.threads ==> WaitsConn(s.threads[q]);
      var t :| t in s.threads;
      st := LockConn(t);
    }
  }

  /** Nobody else sends or changes the lists while a greeting waits. */
  lemma {:induction false} NoOtherSender(s: State, st: Step, t: Tid)
    requires Exclusive(s.threads) && Enabled(s, st) && t in s.threads && s.threads[t].SubGreeting?
    ensures !st.MsgSend? && !st.ClsRemove? && !st.SubAppend? && (st.SubGreet? ==> st.t == t)
  {
    if st.MsgSend? || st.ClsRemove? || st.SubAppend? || st.SubGreet? {
      assert st.t != t ==> !Conflict(s.threads[st.t], s.threads[t]);
    }
  }

  lemma {:induction false} StuckBlocks(s: State, t: Tid, st: Step)
    requires Exclusive(s.threads) && Jammed(s, t) && Enabled(s, st)
    ensures t !in Actors(st)
    ensures forall q :: q in s.threads && WaitsLock(s.threads[q]) ==> q !in Actors(st)
    ensures !st.ClsRemove?
  {
    assert Writes(s.threads[t]) && !Reads(s.threads[t]);
  }

  lemma {:induction false} StuckChannel(s: State, t: Tid, st: Step)
    requires Exclusive(s.threads) && Jammed(s, t) && Enabled(s, st)
    requires st.ContextDone? || st.Take? || st.StopConsumer? || st.MsgSend? || st.SubGreet? || st.ClsClose?
    ensures var n := Ch(Next(s, st), s.threads[t].c);
            !n.closed && !n.live && |n.queue| >= CAPACITY
  {
    StuckBlocks(s, t, st);
  }

  lemma {:induction false} NoNewCloser(s: State, st: Step, n: State, q: Tid)
    requires q in n.threads && Origin(s, st, n, q) && !st.ClsRemove?
    requires n.threads[q].ClsRemoved?
    ensures q in s.threads && s.threads[q] == n.threads[q]
  {
  }

  lemma {:induction false} StuckStays(s: State, t: Tid, st: Step)
    requires Exclusive(s.threads) && Jammed(s, t) && Enabled(s, st)
    ensures Jammed(Next(s, st), t)
    ensures forall q :: q in s.threads && WaitsLock(s.threads[q]) ==>
              q in Next(s, st).threads && Next(s, st).threads[q] == s.threads[q]
  {
    var n := Next(s, st);
    StuckBlocks(s, t, st);
    FrameStep(s, st);
    if st.ContextDone? || st.Take? || st.StopConsumer? || st.MsgSend? || st.SubGreet? || st.ClsClose? {
      StuckChannel(s, t, st);
    }
    forall q | q in n.threads && n.threads[q].ClsRemoved?
      ensures n.threads[q].c != n.threads[t].c
    {
      OriginStep(s, st, q);
      NoNewCloser(s, st, n, q);
    }
  }

  /** So the assumption of DeadlockFree is needed: once that happens, no run ever
      lets anybody waiting for `l` proceed. */
  lemma {:induction false} StuckForever(s: State, t: Tid, q: Tid, run: seq<Step>)
    requires LockInv(s) && Run(s, run) && Jammed(s, t)
    requires q in s.threads && WaitsLock(s.threads[q])
    ensures Jammed(After(s, run), t)
    ensures q in After(s, run).threads && After(s, run).threads[q] == s.threads[q]
    decreases |run|
  {
    if run != [] {
      var n := Next(s, run[0]);
      StuckStays(s, t, run[0]);
      ExclusiveStep(s, run[0]);
      ClosersStep(s, run[0]);
      StuckForever(n, t, q, run[1..]);
    }
  }
}
