/** The goroutines of the broker finish: without new requests every schedule is
    finite, and no schedule gets stuck (internal/broker/broker.go, internal/broker/subscriber.go). */
module BrokerDrain {
  import opened Events
  import opened Topics
  import opened ReceiverLists
  import opened BrokerMachine
  import opened BrokerLocks
  import opened BrokerSafety

  // ----- sums over threads -----

  ghost function Total(threads: map<Tid, Thread>, f: Thread -> nat): nat {
    if threads == map[] then 0
    else var t :| t in threads; f(threads[t]) + Total(threads - {t}, f)
  }

  lemma {:induction false} TotalEnd(threads: map<Tid, Thread>, t: Tid, f: Thread -> nat)
    requires t in threads
    ensures Total(threads, f) == f(threads[t]) + Total(threads - {t}, f)
    decreases |threads|
  {
    var q :| q in threads && Total(threads, f) == f(threads[q]) + Total(threads - {q}, f);
    if q != t {
      assert |threads - {q}| < |threads| && |threads - {t}| < |threads|;
      TotalEnd(threads - {q}, t, f);
      TotalEnd(threads - {t}, q, f);
      assert threads - {q} - {t} == threads - {t} - {q};
    }
  }

  lemma {:induction false} TotalSet(threads: map<Tid, Thread>, t: Tid, th: Thread, f: Thread -> nat)
    ensures Total(threads[t := th], f) + (if t in threads then f(threads[t]) else 0) == Total(threads, f) + f(th)
  {
    TotalEnd(threads[t := th], t, f);
    if t in threads {
      TotalEnd(threads, t, f);
      assert threads[t := th] - {t} == threads - {t};
    } else {
      assert threads[t := th] - {t} == threads;
    }
  }

  lemma {:induction false} TotalMono(threads: map<Tid, Thread>, f: Thread -> nat, g: Thread -> nat)
    requires forall t :: t in threads ==> f(threads[t]) <= g(threads[t])
    ensures Total(threads, f) <= Total(threads, g)
    decreases |threads|
  {
    if threads != map[] {
      var t :| t in threads;
      TotalEnd(threads, t, f);
      TotalEnd(threads, t, g);
      assert |threads - {t}| < |threads|;
      TotalMono(threads - {t}, f, g);
    }
  }

  // ----- how much is left to do -----

  /** Threads that will still append to a list, and threads that may add a topic. */
  function Appends(th: Thread): nat {
    if th.SubWantWrite? || th.SubAnnounced? then 1 else 0
  }

  function AddsTopic(th: Thread): nat {
    if th.SubWantWrite? || th.SubAnnounced? || th.SubGreeting? || th.SubFinishing? || IsSubscribing(th) then 1 else 0
  }

  ghost function ListBound(s: State, k: string): nat {
    |List(s, k)| + Total(s.threads, Appends)
  }

  ghost function TopicBound(s: State): nat {
    |s.topics| + Total(s.threads, AddsTopic)
  }

  /** An upper bound on the steps a goroutine still has to take. */
  ghost function Weight(s: State, th: Thread): nat {
    match th
    case MsgWantRead(e, _) => ListBound(s, Key(e)) + 2
    case MsgSending(e, i) => (if i < |List(s, Key(e))| then |List(s, Key(e))| - i else 0) + 1
    case SubWantWrite(_, _) => 10
    case SubAnnounced(_, _) => 9
    case SubGreeting(_, _, _) => 8
    case SubFinishing(_, _) => 7
    case GoStart(_) => 6
    case FlWantConn(_) => 5
    case FlHasConn(_) => 4
    case FlWantWrite(_) => 3
    case FlAnnounced(_) => 2
    case FlLeaving(_) => 1
    case ClsWantWrite(_) => 5
    case ClsAnnounced(_) => 4
    case ClsRemoved(_) => 1
    case UnWantConn(_) => 2
    case UnHasConn(_) => 1
    case OcWantConn => TopicBound(s) + 3
    case OcWantRead(_) => TopicBound(s) + 2
    case OcResub(todo, _, _) => |todo| + 1
    case PubWantConn => 2
    case PubHasConn => 1
  }

  ghost function WeightIn(s: State): Thread -> nat {
    th => Weight(s, th)
  }

  ghost function Work(s: State): nat {
    Total(s.threads, WeightIn(s))
  }

  /** A step of the broker's own goroutines. */
  predicate Internal(st: Step) {
    !Environment(st) && !st.Take?
  }

  // ----- every internal step lowers it -----

  /** The step ends its goroutine, or moves it to a point with less left to do and
      no new claim on the bounds. */
  ghost predicate Lowers(s: State, n: State, t: Tid) {
    && t in s.threads
    && if t !in n.threads then n.threads == s.threads - {t}
       else
         && n.threads == s.threads[t := n.threads[t]]
         && Weight(s, n.threads[t]) < Weight(s, s.threads[t])
         && Appends(n.threads[t]) <= Appends(s.threads[t])
         && AddsTopic(n.threads[t]) <= AddsTopic(s.threads[t])
  }

  lemma {:induction false} LowersMsg(s: State, st: Step)
    requires Enabled(s, st) && Next(s, st).crash == None
    requires st.MsgLock? || st.MsgEnd?
    ensures Lowers(s, Next(s, st), st.t)
  {
  }

  lemma {:induction false} SendLowers(s: State, t: Tid)
    requires s.crash == None && AtReceiver(s, t)
    ensures DoMsgSend(s, t).crash == None ==> Lowers(s, DoMsgSend(s, t), t)
    ensures Lowers(s, DoMsgDrop(s, t), t)
  {
  }

  lemma {:induction false} LowersSend(s: State, st: Step)
    requires Enabled(s, st) && Next(s, st).crash == None
    requires st.MsgSend? || st.MsgDrop?
    ensures Lowers(s, Next(s, st), st.t)
  {
    SendLowers(s, st.t);
  }

  lemma {:induction false} LowersSub(s: State, st: Step)
    requires Enabled(s, st) && Next(s, st).crash == None && st.SubAppend?
    ensures Lowers(s, Next(s, st), st.t)
  {
  }

  lemma {:induction false} GreetLowers(s: State, t: Tid)
    requires s.crash == None && t in s.threads && s.threads[t].SubGreeting?
    ensures DoSubGreet(s, t).crash == None ==> Lowers(s, DoSubGreet(s, t), t)
  {
    GreetFlags(s, t);
  }

  lemma {:induction false} LowersGreet(s: State, st: Step)
    requires Enabled(s, st) && Next(s, st).crash == None && st.SubGreet?
    ensures Lowers(s, Next(s, st), st.t)
  {
    GreetLowers(s, st.t);
  }

  lemma {:induction false} FinishLowers(s: State, t: Tid)
    requires t in s.threads && s.threads[t].SubFinishing?
    ensures Lowers(s, DoSubFinish(s, t), t)
  {
  }

  lemma {:induction false} LowersEnd(s: State, st: Step)
    requires Enabled(s, st) && Next(s, st).crash == None
    requires st.SubFinish? || st.ClsClose?
    ensures Lowers(s, Next(s, st), st.t)
  {
    if st.ClsClose? { CloseFlags(s, st.t); } else { FinishLowers(s, st.t); }
  }

  lemma {:induction false} LowersLock(s: State, st: Step)
    requires Enabled(s, st) && Next(s, st).crash == None
    requires st.LockConn? || st.Announce?
    ensures Lowers(s, Next(s, st), st.t)
  {
  }

  lemma {:induction false} LowersFl(s: State, st: Step)
    requires Enabled(s, st) && Next(s, st).crash == None
    requires st.FlStart? || st.FlCall? || st.FlStore? || st.FlLeave?
    ensures Lowers(s, Next(s, st), st.t)
  {
  }

  lemma {:induction false} LowersRest(s: State, st: Step)
    requires Enabled(s, st) && Next(s, st).crash == None
    requires st.UnCall? || st.OcLock? || st.OcSub? || st.OcEnd? || st.PubCall?
    ensures Lowers(s, Next(s, st), st.t)
  {
  }

  /** What an internal step does to the lists and topics. */
  lemma {:induction false} GrowthStep(s: State, st: Step)
    requires Enabled(s, st) && Internal(st) && !st.ClsRemove?
    ensures !st.SubAppend? ==> Next(s, st).receivers == s.receivers
    ensures !st.FlStore? ==> Next(s, st).topics == s.topics
    ensures st.SubAppend? ==> Next(s, st).receivers == AppendTo(s.receivers, s.threads[st.t].u, s.threads[st.t].c)
                              && st.t in Next(s, st).threads && Appends(Next(s, st).threads[st.t]) == 0
    ensures st.FlStore? ==> Next(s, st).topics == s.topics + {s.threads[st.t].u} &&
                            st.t in Next(s, st).threads && AddsTopic(Next(s, st).threads[st.t]) == 0
  {
    FrameStep(s, st);
  }

  lemma {:induction false} TotalMoves(s: State, n: State, t: Tid, f: Thread -> nat)
    requires Lowers(s, n, t)
    ensures Total(n.threads, f) + f(s.threads[t]) ==
            Total(s.threads, f) + (if t in n.threads then f(n.threads[t]) else 0)
  {
    if t in n.threads {
      TotalSet(s.threads, t, n.threads[t], f);
    } else {
      TotalEnd(s.threads, t, f);
    }
  }

  lemma {:induction false} BoundsStep(s: State, st: Step, k: string)
    requires Enabled(s, st) && Internal(st) && !st.ClsRemove? && Next(s, st).crash == None
    requires Lowers(s, Next(s, st), st.t)
    ensures ListBound(Next(s, st), k) <= ListBound(s, k)
    ensures TopicBound(Next(s, st)) <= TopicBound(s)
  {
    var n, t := Next(s, st), st.t;
    GrowthStep(s, st);
    TotalMoves(s, n, t, Appends);
    TotalMoves(s, n, t, AddsTopic);
    if st.FlStore? {
      assert |s.topics + {s.threads[t].u}| <= |s.topics| + 1;
    }
  }

  lemma {:induction false} WeightKept(s: State, n: State, th: Thread)
    requires th.MsgSending? ==> n.receivers == s.receivers
    requires forall k :: ListBound(n, k) <= ListBound(s, k)
    requires TopicBound(n) <= TopicBound(s)
    ensures Weight(n, th) <= Weight(s, th)
  {
    if th.MsgWantRead? { assert ListBound(n, Key(th.e)) <= ListBound(s, Key(th.e)); }
  }

  /** The weights of the next state, taken with the old bounds. */
  lemma {:induction false} WorkAtMost(s: State, n: State)
    requires forall t :: t in n.threads && n.threads[t].MsgSending? ==> n.receivers == s.receivers
    requires forall k :: ListBound(n, k) <= ListBound(s, k)
    requires TopicBound(n) <= TopicBound(s)
    ensures Work(n) <= Total(n.threads, WeightIn(s))
  {
    forall t | t in n.threads
      ensures WeightIn(n)(n.threads[t]) <= WeightIn(s)(n.threads[t])
    {
      WeightKept(s, n, n.threads[t]);
    }
    TotalMono(n.threads, WeightIn(n), WeightIn(s));
  }

  lemma {:induction false} LowersStep(s: State, st: Step)
    requires Enabled(s, st) && Internal(st) && !st.ClsRemove? && Next(s, st).crash == None
    ensures Lowers(s, Next(s, st), st.t)
  {
    if st.MsgLock? || st.MsgEnd? { LowersMsg(s, st); }
    else if st.MsgSend? || st.MsgDrop? { LowersSend(s, st); }
    else if st.SubAppend? { LowersSub(s, st); }
    else if st.SubGreet? { LowersGreet(s, st); }
    else if st.SubFinish? || st.ClsClose? { LowersEnd(s, st); }
    else if st.LockConn? || st.Announce? { LowersLock(s, st); }
    else if st.FlStart? || st.FlCall? || st.FlStore? || st.FlLeave? { LowersFl(s, st); }
    else { LowersRest(s, st); }
  }

  lemma {:induction false} SendersSeeLists(s: State, st: Step)
    requires Enabled(s, st) && Internal(st)
    requires st.SubAppend? || st.ClsRemove?
    ensures forall t :: t in Next(s, st).threads ==> !Next(s, st).threads[t].MsgSending?
  {
    assert forall t :: t in s.threads ==> !Reads(s.threads[t]);
  }

  lemma {:induction false} MoveLowersWork(s: State, st: Step)
    requires Enabled(s, st) && Internal(st) && !st.ClsRemove? && Next(s, st).crash == None
    ensures Work(Next(s, st)) < Work(s)
  {
    var n := Next(s, st);
    LowersStep(s, st);
    forall k ensures ListBound(n, k) <= ListBound(s, k) { BoundsStep(s, st, k); }
    BoundsStep(s, st, "");
    if st.SubAppend? { SendersSeeLists(s, st); } else { GrowthStep(s, st); }
    WorkAtMost(s, n);
    TotalMoves(s, n, st.t, WeightIn(s));
    assert WeightIn(s)(s.threads[st.t]) > 0;
  }

  /** The lists and topics that a removal leaves are no larger. */
  lemma {:induction false} RemoveShrinks(s: State, st: Step, k: string)
    requires Enabled(s, st) && st.ClsRemove?
    ensures |List(Next(s, st), k)| <= |List(s, k)|
    ensures Next(s, st).topics <= s.topics
  {
    RemoveLength(List(s, k), s.threads[st.t].c);
  }

  lemma {:induction false} SubsetSize(a: set<string>, b: set<string>)
    requires a <= b
    ensures |a| <= |b|
  {
    assert a + (b - a) == b;
  }

  lemma {:induction false} RemoveTotals(s: State, st: Step, f: Thread -> nat)
    requires Enabled(s, st) && st.ClsRemove?
    ensures var c := s.threads[st.t].c;
            var keys := CleanupKeys(s.receivers, c);
            Total(Next(s, st).threads, f) + f(s.threads[st.t]) ==
            Total(s.threads, f) + f(ClsRemoved(c)) + (if keys == {} then 0 else f(UnWantConn(keys)))
  {
    var t, c := st.t, s.threads[st.t].c;
    TotalSet(s.threads, t, ClsRemoved(c), f);
    TotalSet(s.threads[t := ClsRemoved(c)], st.g, UnWantConn(CleanupKeys(s.receivers, c)), f);
  }

  lemma {:induction false} RemoverClaims(th: Thread, keys: set<string>)
    requires th.ClsAnnounced?
    ensures Appends(th) == Appends(ClsRemoved(th.c)) == Appends(UnWantConn(keys)) == 0
    ensures AddsTopic(th) == AddsTopic(ClsRemoved(th.c)) == AddsTopic(UnWantConn(keys)) == 0
  {
  }

  lemma {:induction false} RemoveBounds(s: State, st: Step, k: string)
    requires Enabled(s, st) && st.ClsRemove?
    ensures ListBound(Next(s, st), k) <= ListBound(s, k)
    ensures TopicBound(Next(s, st)) <= TopicBound(s)
  {
    RemoveShrinks(s, st, k);
    RemoveTotals(s, st, Appends);
    RemoveTotals(s, st, AddsTopic);
    RemoverClaims(s.threads[st.t], CleanupKeys(s.receivers, s.threads[st.t].c));
    SubsetSize(Next(s, st).topics, s.topics);
  }

  lemma {:induction false} RemoveAtMost(s: State, st: Step)
    requires Enabled(s, st) && st.ClsRemove?
    ensures Work(Next(s, st)) <= Total(Next(s, st).threads, WeightIn(s))
  {
    var n := Next(s, st);
    forall k ensures ListBound(n, k) <= ListBound(s, k) { RemoveBounds(s, st, k); }
    RemoveBounds(s, st, "");
    SendersSeeLists(s, st);
    WorkAtMost(s, n);
  }

  lemma {:induction false} RemoverWeights(s: State, th: Thread, keys: set<string>)
    requires th.ClsAnnounced?
    ensures WeightIn(s)(th) > WeightIn(s)(ClsRemoved(th.c)) + WeightIn(s)(UnWantConn(keys))
  {
  }

  lemma {:induction false} RemoveTotalDrops(s: State, st: Step)
    requires Enabled(s, st) && st.ClsRemove?
    ensures Total(Next(s, st).threads, WeightIn(s)) < Total(s.threads, WeightIn(s))
  {
    RemoveTotals(s, st, WeightIn(s));
    RemoverWeights(s, s.threads[st.t], CleanupKeys(s.receivers, s.threads[st.t].c));
  }

  lemma {:induction false} RemoveLowersWork(s: State, st: Step)
    requires Enabled(s, st) && st.ClsRemove?
    ensures Work(Next(s, st)) < Work(s)
  {
    RemoveTotalDrops(s, st);
    RemoveAtMost(s, st);
  }

  lemma {:induction false} WorkStep(s: State, st: Step)
    requires Enabled(s, st) && Internal(st)
    ensures Next(s, st).crash == None ==> Work(Next(s, st)) < Work(s)
  {
    if st.ClsRemove? {
      RemoveLowersWork(s, st);
    } else if Next(s, st).crash == None {
      MoveLowersWork(s, st);
    }
  }

  lemma {:induction false} TakeKeepsWork(s: State, c: Chan)
    requires Enabled(s, Take(c))
    ensures Work(Next(s, Take(c))) == Work(s) && Next(s, Take(c)).crash == None
  {
    var n := Next(s, Take(c));
    WorkAtMost(s, n);
    WorkAtMost(n, s);
  }

  // ----- over whole runs -----

  function InternalSteps(run: seq<Step>): nat {
    if run == [] then 0 else (if Internal(run[0]) then 1 else 0) + InternalSteps(run[1..])
  }

  lemma {:induction false} CrashIsFinal(s: State, run: seq<Step>)
    requires Run(s, run) && After(s, run).crash == None
    ensures s.crash == None
  {
  }

  /** The positions of the steps that are not the consumers'. */
  function OwnSteps(run: seq<Step>): set<nat> {
    set i: nat | i < |run| && !run[i].Take?
  }

  lemma {:induction false} StepsSplit(run: seq<Step>, st: Step)
    ensures InternalSteps(run + [st]) == InternalSteps(run) + if Internal(st) then 1 else 0
  {
    if run == [] {
      assert run + [st] == [st];
    } else {
      assert (run + [st])[1..] == run[1..] + [st];
      StepsSplit(run[1..], st);
    }
  }

  lemma {:induction false} StepsCounted(run: seq<Step>)
    requires Unprompted(run)
    ensures InternalSteps(run) == |OwnSteps(run)|
  {
    if run != [] {
      var n := |run| - 1;
      StepsSplit(run[..n], run[n]);
      assert run[..n] + [run[n]] == run && Unprompted(run[..n]);
      StepsCounted(run[..n]);
      assert OwnSteps(run) == OwnSteps(run[..n]) + if run[n].Take? then {} else {n};
    }
  }

  lemma {:induction false} WorkRun(s: State, run: seq<Step>)
    requires Run(s, run) && After(s, run).crash == None
    requires Unprompted(run)
    ensures InternalSteps(run) + Work(After(s, run)) <= Work(s)
    decreases |run|
  {
    if run != [] {
      var n := Next(s, run[0]);
      CrashIsFinal(n, run[1..]);
      if Internal(run[0]) { WorkStep(s, run[0]); } else { TakeKeepsWork(s, run[0].c); }
      assert Unprompted(run[1..]);
      WorkRun(n, run[1..]);
    }
  }

  /** Every schedule is finite: with no new requests, messages or failures, the
      goroutines take at most Work(s) steps, whatever the consumers do. */
  lemma {:induction false} SchedulesAreFinite(s: State, run: seq<Step>)
    requires Run(s, run) && After(s, run).crash == None
    requires Unprompted(run)
    ensures |set i: nat | i < |run| && !run[i].Take?| + Work(After(s, run)) <= Work(s)
  {
    WorkRun(s, run);
    StepsCounted(run);
  }

  lemma {:induction false} OpenTouched(s: State, st: Step, c: Chan)
    requires Enabled(s, st)
    requires st.MsgSend? || st.SubGreet? || st.ClsClose? || st.Take?
    ensures Ch(s, c).live ==> Ch(Next(s, st), c).live
    ensures Ch(s, c).closed ==> Ch(Next(s, st), c).closed
  {
    if st.MsgSend? { SendFlags(s, st.t); }
    else if st.SubGreet? { GreetFlags(s, st.t); }
    else if st.ClsClose? { CloseFlags(s, st.t); }
  }

  lemma {:induction false} FlagsKept(s: State, st: Step, c: Chan)
    requires Enabled(s, st) && !Environment(st)
    ensures Ch(s, c).live ==> Ch(Next(s, st), c).live
    ensures Ch(s, c).closed ==> Ch(Next(s, st), c).closed
  {
    if st.MsgSend? || st.SubGreet? || st.ClsClose? || st.Take? {
      OpenTouched(s, st, c);
    } else {
      FrameStep(s, st);
    }
  }

  lemma {:induction false} RoomLeft(s: State, st: Step, c: Chan)
    requires Enabled(s, st)
    requires st.Take? || st.ClsClose?
    ensures |Ch(Next(s, st), c).queue| <= |Ch(s, c).queue|
  {
  }

  lemma {:induction false} RoomKept(s: State, st: Step, t: Tid)
    requires LockInv(s) && Enabled(s, st) && !Environment(st) && t in s.threads && s.threads[t].SubGreeting?
    requires !st.SubGreet?
    ensures |Ch(Next(s, st), s.threads[t].c).queue| <= |Ch(s, s.threads[t].c).queue|
  {
    NoOtherSender(s, st, t);
    if st.Take? || st.ClsClose? {
      RoomLeft(s, st, s.threads[t].c);
    } else {
      FrameStep(s, st);
    }
  }

  lemma {:induction false} CloserCloses(s: State, st: Step, q: Tid)
    requires Enabled(s, st) && q in s.threads && s.threads[q].ClsRemoved?
    ensures var n, c := Next(s, st), s.threads[q].c;
            (q in n.threads && n.threads[q] == s.threads[q]) || Ch(n, c).closed
  {
    if st.ClsClose? && st.t == q {
      assert Next(s, st) == DoClsClose(s, q);
    } else {
      if q in Actors(st) { ActorMoves(s, st, q); }
      FrameStep(s, st);
    }
  }

  /** A waiting greeting that is not jammed does not become so by itself. */
  lemma {:induction false} StaysUnjammed(s: State, st: Step, t: Tid)
    requires LockInv(s) && Enabled(s, st) && !Environment(st) && !st.SubGreet?
    requires t in s.threads && s.threads[t].SubGreeting? && !Jammed(s, t)
    requires t in Next(s, st).threads && Next(s, st).threads[t] == s.threads[t]
    ensures !Jammed(Next(s, st), t)
  {
    var c := s.threads[t].c;
    FlagsKept(s, st, c);
    RoomKept(s, st, t);
    if q :| q in s.threads && s.threads[q].ClsRemoved? && s.threads[q].c == c {
      CloserCloses(s, st, q);
    }
  }

  predicate WillAppend(th: Thread) {
    th.SubWantWrite? || th.SubAnnounced?
  }

  /** No greeting is jammed, and the streams that have not appended yet still have their
      consumers. */
  ghost predicate Served(s: State) {
    NoneJammed(s) && forall t :: t in s.threads && WillAppend(s.threads[t]) ==> Ch(s, s.threads[t].c).live
  }

  lemma {:induction false} GreetersMove(s: State, st: Step, n: State, t: Tid)
    requires t in n.threads && Origin(s, st, n, t) && !Environment(st)
    requires WillAppend(n.threads[t]) || n.threads[t].SubGreeting?
    ensures t in s.threads && (s.threads[t] == n.threads[t] || WillAppend(s.threads[t]))
    ensures s.threads[t].c == n.threads[t].c
    ensures WillAppend(n.threads[t]) ==> WillAppend(s.threads[t])
  {
  }

  /** Once a greeting is sent nobody else waits with one, or the send has panicked. */
  lemma {:induction false} GreetedNext(s: State, q: Tid, t: Tid)
    requires Exclusive(s.threads) && q in s.threads && s.threads[q].SubGreeting?
    requires t in DoSubGreet(s, q).threads && DoSubGreet(s, q).threads[t].SubGreeting?
    ensures Ch(DoSubGreet(s, q), DoSubGreet(s, q).threads[t].c).closed
  {
    GreetFlags(s, q);
    assert t in s.threads && t != q ==> !Conflict(s.threads[t], s.threads[q]);
  }

  lemma {:induction false} ServedStep(s: State, st: Step)
    requires LockInv(s) && Served(s) && Enabled(s, st) && !Environment(st)
    ensures Served(Next(s, st))
  {
    var n := Next(s, st);
    forall t | t in n.threads && (WillAppend(n.threads[t]) || n.threads[t].SubGreeting?)
      ensures WillAppend(n.threads[t]) ==> Ch(n, n.threads[t].c).live
      ensures !Jammed(n, t)
    {
      OriginStep(s, st, t);
      GreetersMove(s, st, n, t);
      FlagsKept(s, st, n.threads[t].c);
      if n.threads[t].SubGreeting? && st.SubGreet? {
        GreetedNext(s, st.t, t);
      } else if n.threads[t].SubGreeting? && s.threads[t] == n.threads[t] {
        StaysUnjammed(s, st, t);
      }
    }
  }

  lemma {:induction false} ServedRun(s: State, run: seq<Step>)
    requires LockInv(s) && Served(s) && Run(s, run) && Unprompted(run)
    ensures LockInv(After(s, run)) && Served(After(s, run))
    decreases |run|
  {
    if run != [] {
      ServedStep(s, run[0]);
      ExclusiveStep(s, run[0]);
      ClosersStep(s, run[0]);
      assert Unprompted(run[1..]);
      ServedRun(Next(s, run[0]), run[1..]);
    }
  }

  /** Whatever the schedule: when nothing can move any more, every goroutine has finished,
      unless one has panicked or a greeting is jammed. */
  lemma {:induction false} StopsFinishedOrJammed(s: State)
    requires s.crash == None && forall st :: !CanMove(s, st)
    ensures s.threads == map[] || exists t :: Jammed(s, t)
  {
    if s.threads != map[] && NoneJammed(s) {
      var st := DeadlockFree(s);
    }
  }

  /** From every state in which no greeting is jammed and the streams that are yet to
      append have their consumers, every schedule that has gone as far as it can has
      finished all goroutines, or has panicked. */
  lemma {:induction false} EveryScheduleFinishes(s: State, run: seq<Step>)
    requires LockInv(s) && Served(s) && Run(s, run) && Unprompted(run)
    requires After(s, run).crash == None && forall st :: !CanMove(After(s, run), st)
    ensures After(s, run).threads == map[]
  {
    ServedRun(s, run);
    StopsFinishedOrJammed(After(s, run));
  }

  /** What the channels of the waiting greetings hold. */
  ghost function BacklogIn(s: State): Thread -> nat {
    (th: Thread) => if th.SubGreeting? then |Ch(s, th.c).queue| else 0
  }

  ghost function Backlog(s: State): nat {
    Total(s.threads, BacklogIn(s))
  }

  lemma {:induction false} TakeLowersBacklog(s: State, c: Chan, t: Tid)
    requires Enabled(s, Take(c))
    requires t in s.threads && s.threads[t].SubGreeting? && s.threads[t].c == c
    ensures Backlog(Next(s, Take(c))) < Backlog(s)
  {
    var n := Next(s, Take(c));
    assert n.threads == s.threads;
    assert forall d :: |Ch(n, d).queue| <= |Ch(s, d).queue|;
    TotalEnd(s.threads, t, BacklogIn(s));
    TotalEnd(s.threads, t, BacklogIn(n));
    TotalMono(s.threads - {t}, BacklogIn(n), BacklogIn(s));
    assert BacklogIn(n)(s.threads[t]) < BacklogIn(s)(s.threads[t]);
  }

  /** And there is such a schedule. */
  lemma {:induction false} CanDrain(s: State) returns (run: seq<Step>)
    requires LockInv(s) && s.crash == None && Served(s)
    ensures Run(s, run)
    ensures After(s, run).crash == None ==> After(s, run).threads == map[]
    ensures Unprompted(run)
    decreases Work(s), Backlog(s)
  {
    if s.threads == map[] { return []; }
    var st := DeadlockFree(s);
    var n := Next(s, st);
    RunOne(s, st);
    if n.crash != None { return [st]; }
    ServedStep(s, st);
    ExclusiveStep(s, st);
    ClosersStep(s, st);
    if st.Take? {
      var q :| q in s.threads && s.threads[q].SubGreeting? && s.threads[q].c == st.c;
      TakeLowersBacklog(s, st.c, q);
      TakeKeepsWork(s, st.c);
    } else {
      WorkStep(s, st);
    }
    var rest := CanDrain(n);
    RunCons(s, st, rest);
    run := [st] + rest;
  }

  // ----- without a panic -----

  /** The streams that are being subscribed keep the rules of BrokerSafety: connected,
      not ending, and no type URL named twice. */
  ghost predicate PendingTidy(s: State) {
    && (forall t :: t in s.threads && WillAppend(s.threads[t]) ==>
          s.linked && s.threads[t].c !in s.removed && !HasJoined(s, s.threads[t].c, s.threads[t].u))
    && (forall t, q :: t in s.threads && q in s.threads && WillAppend(s.threads[t]) && IsClosing(s.threads[q]) ==>
          s.threads[t].c != s.threads[q].c)
    && (forall t, q :: t in s.threads && q in s.threads && t != q &&
                       WillAppend(s.threads[t]) && WillAppend(s.threads[q]) ==>
          s.threads[t].c != s.threads[q].c || s.threads[t].u != s.threads[q].u)
  }

  /** Without requests, appending and closing goroutines only become fewer. */
  lemma {:induction false} PendingFrom(s: State, st: Step, n: State, t: Tid)
    requires t in n.threads && Origin(s, st, n, t) && !Environment(st)
    ensures WillAppend(n.threads[t]) ==>
              t in s.threads && WillAppend(s.threads[t]) &&
              s.threads[t].c == n.threads[t].c && s.threads[t].u == n.threads[t].u
    ensures IsClosing(n.threads[t]) ==> t in s.threads && IsClosing(s.threads[t]) && s.threads[t].c == n.threads[t].c
  {
  }

  lemma {:induction false} JoinsGrow(s: State, st: Step)
    requires Enabled(s, st)
    ensures st.SubAppend? ==>
              && Next(s, st).joins ==
                 s.joins + [Join(s.threads[st.t].c, s.threads[st.t].u, |s.log|, Cached(s, s.threads[st.t].u))]
              && (st.t in Next(s, st).threads ==> !WillAppend(Next(s, st).threads[st.t]))
    ensures !st.SubAppend? ==> Next(s, st).joins == s.joins
  {
    if !st.SubAppend? { FrameStep(s, st); }
  }

  lemma {:induction false} PendingRules(s: State, st: Step, n: State, t: Tid)
    requires PendingTidy(s) && Enabled(s, st) && !Environment(st) && n == Next(s, st)
    requires t in n.threads && WillAppend(n.threads[t])
    ensures n.linked && n.threads[t].c !in n.removed && !HasJoined(n, n.threads[t].c, n.threads[t].u)
  {
    OriginStep(s, st, t);
    PendingFrom(s, st, n, t);
    StaysLinked(s, st);
    RemovedGrows(s, st);
    JoinsGrow(s, st);
    assert !HasJoined(s, n.threads[t].c, n.threads[t].u);
    if st.ClsRemove? { assert IsClosing(s.threads[st.t]); }
    if st.SubAppend? { assert WillAppend(s.threads[st.t]) && st.t != t; }
  }

  lemma {:induction false} PendingStep(s: State, st: Step)
    requires PendingTidy(s) && Enabled(s, st) && !Environment(st)
    ensures PendingTidy(Next(s, st))
  {
    var n := Next(s, st);
    forall t | t in n.threads
      ensures WillAppend(n.threads[t]) ==>
                t in s.threads && WillAppend(s.threads[t]) &&
                s.threads[t].c == n.threads[t].c && s.threads[t].u == n.threads[t].u
      ensures IsClosing(n.threads[t]) ==> t in s.threads && IsClosing(s.threads[t]) && s.threads[t].c == n.threads[t].c
    {
      OriginStep(s, st, t);
      PendingFrom(s, st, n, t);
    }
    forall t | t in n.threads && WillAppend(n.threads[t])
      ensures n.linked && n.threads[t].c !in n.removed && !HasJoined(n, n.threads[t].c, n.threads[t].u)
    {
      PendingRules(s, st, n, t);
    }
  }

  lemma {:induction false} PendingRun(s: State, run: seq<Step>)
    requires PendingTidy(s) && Run(s, run)
    requires Unprompted(run)
    ensures Along(TidyLinked, s, run)
    decreases |run|
  {
    if run != [] {
      PendingStep(s, run[0]);
      assert Unprompted(run[1..]);
      PendingRun(Next(s, run[0]), run[1..]);
    }
  }

  /** If the pending subscribes keep the rules and their consumers are there, all
      goroutines can run to completion, and none of them panics on the way. */
  lemma {:induction false} DrainsToTheEnd(s: State) returns (run: seq<Step>)
    requires SafeInv(s) && LinkInv(s) && s.crash == None && Served(s) && PendingTidy(s)
    ensures Run(s, run) && After(s, run).threads == map[] && After(s, run).crash == None
    ensures Unprompted(run)
  {
    run := CanDrain(s);
    PendingRun(s, run);
    LinkedRun(s, run);
  }
}
