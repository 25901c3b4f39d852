/** The in-place code of BrokerHeap does what the steps of BrokerMachine say: a critical
    section run on the heap ends where the corresponding steps end
    (internal/broker/broker.go:93-227). */
module BrokerRefinement {
  import opened Events
  import opened Topics
  import opened ReceiverLists
  import H = BrokerHeap
  import opened BrokerMachine
  import opened BrokerNecessity

  // ----- renaming the channels of a list -----

  ghost predicate Injective<C, D>(names: map<C, D>) {
    forall a, b :: a in names && b in names && names[a] == names[b] ==> a == b
  }

  ghost predicate Named<C, D>(names: map<C, D>, list: seq<C>) {
    forall i :: 0 <= i < |list| ==> list[i] in names
  }

  ghost function Rename<C, D>(list: seq<C>, names: map<C, D>): (r: seq<D>)
    requires Named(names, list)
    ensures |r| == |list|
  {
    seq(|list|, i requires 0 <= i < |list| => names[list[i]])
  }

  lemma {:induction false} RenameMember<C, D>(list: seq<C>, names: map<C, D>, m: C)
    requires Injective(names) && Named(names, list) && m in names
    ensures m in list <==> names[m] in Rename(list, names)
  {
    if names[m] in Rename(list, names) {
      var i :| 0 <= i < |list| && Rename(list, names)[i] == names[m];
      assert list[i] == m;
    }
    if m in list {
      var i :| 0 <= i < |list| && list[i] == m;
      assert Rename(list, names)[i] == names[m];
    }
  }

  lemma {:induction false} RenameCons<C, D>(x: C, list: seq<C>, names: map<C, D>)
    requires x in names && Named(names, list)
    ensures Named(names, [x] + list) && Rename([x] + list, names) == [names[x]] + Rename(list, names)
  {
  }

  lemma {:induction false} RenameScan<C, D>(list: seq<C>, names: map<C, D>, m: C)
    requires Injective(names) && Named(names, list) && m in names
    ensures Named(names, Scan(list, m)) && Rename(Scan(list, m), names) == Scan(Rename(list, names), names[m])
    decreases |list|
  {
    var renamed := Rename(list, names);
    if list == [] {
    } else if list[0] != m {
      var rest := list[1..];
      RenameScan(rest, names, m);
      RenameCons(list[0], Scan(rest, m), names);
      assert renamed[1..] == Rename(rest, names) && renamed[0] != names[m];
    } else if |list| > 1 {
      var rest := list[2..];
      RenameScan(rest, names, m);
      RenameCons(list[1], Scan(rest, m), names);
      assert renamed[2..] == Rename(rest, names);
    }
  }

  lemma {:induction false} RenamePad<C, D>(x: C, n: nat, names: map<C, D>)
    requires x in names
    ensures Named(names, Pad(x, n)) && Rename(Pad(x, n), names) == Pad(names[x], n)
  {
    PadLength(x, n);
    PadLength(names[x], n);
  }

  lemma {:induction false} RenameConcat<C, D>(a: seq<C>, b: seq<C>, names: map<C, D>)
    requires Named(names, a) && Named(names, b)
    ensures Named(names, a + b) && Rename(a + b, names) == Rename(a, names) + Rename(b, names)
  {
  }

  /** The removal treats channels only by identity. */
  lemma {:induction false} RenameRemove<C, D>(list: seq<C>, names: map<C, D>, m: C)
    requires Injective(names) && Named(names, list) && m in names
    ensures Named(names, RemoveInPlace(list, m))
    ensures Rename(RemoveInPlace(list, m), names) == RemoveInPlace(Rename(list, names), names[m])
  {
    RenameMember(list, names, m);
    if m in list {
      RenameScan(list, names, m);
      RenamePad(Last(list), Extra(list, m), names);
      RenameConcat(Scan(list, m), Pad(Last(list), Extra(list, m)), names);
    }
  }

  ghost predicate AllNamed<C, D>(names: map<C, D>, r: map<string, seq<C>>) {
    forall k :: k in r ==> Named(names, r[k])
  }

  ghost function RenameAll<C, D>(r: map<string, seq<C>>, names: map<C, D>): map<string, seq<D>>
    requires AllNamed(names, r)
  {
    map k | k in r :: Rename(r[k], names)
  }

  lemma {:induction false} RenameAppend<C, D>(r: map<string, seq<C>>, names: map<C, D>, k: string, m: C)
    requires AllNamed(names, r) && m in names
    ensures AllNamed(names, AppendTo(r, k, m))
    ensures RenameAll(AppendTo(r, k, m), names) == AppendTo(RenameAll(r, names), k, names[m])
  {
    assert Named(names, [m]) && Rename([m], names) == [names[m]];
    RenameConcat(ListOf(r, k), [m], names);
  }

  lemma {:induction false} RenameRemoveAll<C, D>(r: map<string, seq<C>>, names: map<C, D>, m: C)
    requires Injective(names) && AllNamed(names, r) && m in names
    ensures AllNamed(names, RemoveEverywhere(r, m))
    ensures RenameAll(RemoveEverywhere(r, m), names) == RemoveEverywhere(RenameAll(r, names), names[m])
    ensures CleanupKeys(r, m) == CleanupKeys(RenameAll(r, names), names[m])
  {
    forall k | k in r
      ensures Named(names, RemoveInPlace(r[k], m))
      ensures Rename(RemoveInPlace(r[k], m), names) == RemoveInPlace(Rename(r[k], names), names[m])
      ensures r[k] == [m] <==> Rename(r[k], names) == [names[m]]
    {
      RenameRemove(r[k], names, m);
      if Rename(r[k], names) == [names[m]] {
        assert Rename(r[k], names)[0] == names[r[k][0]];
        assert r[k] == [r[k][0]];
      }
    }
  }

  // ----- the two states -----

  datatype Buffer = Buffer(buf: seq<Event>, closed: bool)

  /** What the heap of a broker says, as a value. */
  datatype Snapshot = Snapshot(
    lists: map<string, seq<H.Channel>>,
    topics: set<string>,
    retained: map<string, Event>,
    linked: bool,
    session: set<string>,
    buffers: map<H.Channel, Buffer>)

  ghost function Snap(b: H.Broker, names: map<H.Channel, Chan>): Snapshot
    requires b.Valid()
    reads b, b.Arrays(), b.conn, names.Keys
  {
    Snapshot(b.View(), b.topics, b.retainedMsgs, b.conn != null, if b.conn == null then {} else b.conn.subscribed,
             map c | c in names :: Buffer(c.buf, c.closed))
  }

  /** The snapshot shows machine state `s`; `names` says which channel is which. */
  ghost predicate Shows(p: Snapshot, names: map<H.Channel, Chan>, s: State) {
    && Injective(names) && AllNamed(names, p.lists) && p.buffers.Keys == names.Keys
    && s.receivers == RenameAll(p.lists, names)
    && s.topics == p.topics && s.retained == p.retained && s.linked == p.linked
    && (p.linked ==> s.session == p.session)
    && forall c :: c in names ==>
         p.buffers[c].buf == EventsOf(Ch(s, names[c]).queue) && p.buffers[c].closed == Ch(s, names[c]).closed
  }

  ghost predicate Represents(b: H.Broker, names: map<H.Channel, Chan>, s: State)
    reads b, b.Arrays(), b.conn, names.Keys
  {
    b.Valid() && Shows(Snap(b, names), names, s)
  }

  /** A snapshot is determined by the parts it is made of. */
  lemma {:induction false} SnapOf(b: H.Broker, names: map<H.Channel, Chan>, q: Snapshot)
    requires b.Valid() && b.View() == q.lists && b.topics == q.topics && b.retainedMsgs == q.retained
    requires (b.conn != null) == q.linked && q.session == if b.conn == null then {} else b.conn.subscribed
    requires q.buffers.Keys == names.Keys
    requires forall c :: c in names ==> q.buffers[c].buf == c.buf && q.buffers[c].closed == c.closed
    ensures Snap(b, names) == q
  {
    assert Snap(b, names).buffers == q.buffers;
  }

  // ----- Subscribe -----

  ghost function Appended(p: Snapshot, u: string, c: H.Channel): Snapshot {
    p.(lists := AppendTo(p.lists, u, c))
  }

  /** Where SubAppend leads. */
  function Appending(p: Snapshot, c: Chan, u: string): Thread {
    if u in p.retained then SubGreeting(c, u, p.retained[u]) else SubFinishing(c, u)
  }

  lemma {:induction false} AppendShows(p: Snapshot, names: map<H.Channel, Chan>, s: State, t: Tid, c: H.Channel,
                                      u: string)
    requires Shows(p, names, s) && c in names && t in s.threads && s.threads[t] == SubAnnounced(names[c], u)
    ensures t in DoSubAppend(s, t).threads
    ensures DoSubAppend(s, t).threads[t] == Appending(p, names[c], u)
    ensures Shows(Appended(p, u, c), names, DoSubAppend(s, t))
    ensures DoSubAppend(s, t).chans == s.chans
  {
    RenameAppend(p.lists, names, u, c);
  }

  lemma {:induction false} GreetEffect(s: State, t: Tid, c: Chan)
    requires t in s.threads && s.threads[t].SubGreeting? && s.threads[t].c == c
    ensures Ch(s, c).closed ==> DoSubGreet(s, t).crash == Some(SendOnClosed)
    ensures !Ch(s, c).closed ==>
              && DoSubGreet(s, t) == s.(chans := DoSubGreet(s, t).chans, threads := DoSubGreet(s, t).threads)
              && DoSubGreet(s, t).threads == s.threads[t := SubFinishing(c, s.threads[t].u)]
              && (forall d :: d != c ==> Ch(DoSubGreet(s, t), d) == Ch(s, d))
              && EventsOf(Ch(DoSubGreet(s, t), c).queue) == EventsOf(Ch(s, c).queue) + [s.threads[t].e]
              && !Ch(DoSubGreet(s, t), c).closed
  {
  }

  /** One more event in the buffer of `c`. */
  ghost function Buffered(p: Snapshot, c: H.Channel, e: Event): Snapshot
    requires c in p.buffers
  {
    p.(buffers := p.buffers[c := Buffer(p.buffers[c].buf + [e], p.buffers[c].closed)])
  }

  lemma {:induction false} GreetShows(p: Snapshot, names: map<H.Channel, Chan>, s: State, t: Tid, c: H.Channel)
    requires Shows(p, names, s) && c in names && !p.buffers[c].closed
    requires t in s.threads && s.threads[t].SubGreeting? && s.threads[t].c == names[c]
    ensures Shows(Buffered(p, c, s.threads[t].e), names, DoSubGreet(s, t))
  {
    GreetEffect(s, t, names[c]);
  }

  /** Subscribe in terms of snapshots. */
  method SubscribeSnap(b: H.Broker, typeUrl: string, msgs: H.Channel, ghost names: map<H.Channel, Chan>,
                       ghost p: Snapshot)
    returns (r: H.Outcome)
    requires b.Valid() && msgs in names && Snap(b, names) == p
    modifies b`receivers, b.Arrays(), msgs`buf
    ensures b.Valid()
    ensures Snap(b, names) == if r.Returned? && typeUrl in p.retained
                              then Buffered(Appended(p, typeUrl, msgs), msgs, p.retained[typeUrl])
                              else Appended(p, typeUrl, msgs)
    ensures r.Returned? ==> (r.spawned <==> typeUrl !in p.topics)
    ensures !r.Returned? ==> typeUrl in p.retained
    ensures typeUrl in p.retained ==> (r.Panicked? <==> old(msgs.closed))
    ensures typeUrl in p.retained && !r.Panicked? ==> (r.Stuck? <==> |old(msgs.buf)| >= CAPACITY)
  {
    assert forall c :: c in names && c != msgs ==> p.buffers[c] == Buffer(c.buf, c.closed);
    assert p.buffers[msgs] == Buffer(msgs.buf, msgs.closed) && p.lists == b.View();
    r := b.Subscribe(typeUrl, msgs);
    ghost var q := Appended(p, typeUrl, msgs);
    if r.Returned? && typeUrl in p.retained {
      q := Buffered(q, msgs, p.retained[typeUrl]);
    }
    assert b.View() == q.lists && q.buffers[msgs] == Buffer(msgs.buf, msgs.closed);
    SnapOf(b, names, q);
  }

  /** The outcome that Subscribe must have on a heap with this snapshot. */
  predicate Fitting(p: Snapshot, c: H.Channel, u: string, r: H.Outcome)
    requires c in p.buffers
  {
    && (r.Returned? ==> (r.spawned <==> u !in p.topics))
    && (!r.Returned? ==> u in p.retained)
    && (u in p.retained ==> (r.Panicked? <==> p.buffers[c].closed))
    && (u in p.retained && !r.Panicked? ==> (r.Stuck? <==> |p.buffers[c].buf| >= CAPACITY))
  }

  function StepsLeft(t: Tid, cached: bool, r: H.Outcome): seq<Step> {
    match r
    case Returned(_) => if cached then [SubGreet(t), SubFinish(t)] else [SubFinish(t)]
    case Panicked => [SubGreet(t)]
    case Stuck => []
  }

  /** The steps that a Subscribe takes, up to the point where it ends, blocks or panics. */
  function SubscribeSteps(t: Tid, cached: bool, r: H.Outcome): seq<Step> {
    [SubAppend(t)] + StepsLeft(t, cached, r)
  }

  lemma {:induction false} FinishShows(p: Snapshot, names: map<H.Channel, Chan>, s: State, t: Tid, c: Chan, u: string)
    returns (n: State)
    requires Shows(p, names, s) && s.crash == None && t in s.threads && s.threads[t] == SubFinishing(c, u)
    ensures Run(s, [SubFinish(t)]) && After(s, [SubFinish(t)]) == n && n.crash == None && Shows(p, names, n)
    ensures n.threads == if u in p.topics then s.threads - {t} else s.threads[t := GoStart(u)]
  {
    RunOne(s, SubFinish(t));
    n := Next(s, SubFinish(t));
    assert n == DoSubFinish(s, t);
  }

  lemma {:induction false} GreetRuns(p: Snapshot, names: map<H.Channel, Chan>, s: State, t: Tid, c: H.Channel,
                                     u: string) returns (n: State)
    requires Shows(p, names, s) && s.crash == None && c in names && t in s.threads && u in p.retained
    requires s.threads[t] == SubGreeting(names[c], u, p.retained[u])
    requires p.buffers[c].closed || |p.buffers[c].buf| < CAPACITY
    ensures Run(s, [SubGreet(t)]) && After(s, [SubGreet(t)]) == n
    ensures p.buffers[c].closed ==> n.crash == Some(SendOnClosed)
    ensures !p.buffers[c].closed ==>
              && n.crash == None && n.threads == s.threads[t := SubFinishing(names[c], u)]
              && Shows(Buffered(p, c, p.retained[u]), names, n)
  {
    assert |p.buffers[c].buf| == |Ch(s, names[c]).queue|;
    RunOne(s, SubGreet(t));
    n := Next(s, SubGreet(t));
    assert n == DoSubGreet(s, t);
    GreetEffect(s, t, names[c]);
    if !p.buffers[c].closed { GreetShows(p, names, s, t, c); }
  }

  lemma {:induction false} StuckShows(p: Snapshot, names: map<H.Channel, Chan>, s: State, t: Tid, c: H.Channel,
                                      u: string)
    requires Shows(p, names, s) && c in names && t in s.threads && u in p.retained
    requires s.threads[t] == SubGreeting(names[c], u, p.retained[u]) && Fitting(p, c, u, H.Stuck)
    ensures !Enabled(s, SubGreet(t))
  {
    assert |p.buffers[c].buf| == |Ch(s, names[c]).queue|;
  }

  /** What the heap shows after a Subscribe. */
  ghost function Subscribed(p: Snapshot, u: string, c: H.Channel, r: H.Outcome): Snapshot
    requires c in p.buffers
  {
    if r.Returned? && u in p.retained then Buffered(Appended(p, u, c), c, p.retained[u]) else Appended(p, u, c)
  }

  lemma {:induction false} ThreadsAfter(s: State, s1: State, t: Tid, th: Thread, other: Thread)
    requires s1.threads == s.threads[t := th]
    ensures s1.threads - {t} == s.threads - {t} && s1.threads[t := other] == s.threads[t := other]
  {
  }

  lemma {:induction false} RunTwo(s: State, a: Step, b: Step, s1: State, n: State)
    requires Run(s, [a]) && After(s, [a]) == s1 && Run(s1, [b]) && After(s1, [b]) == n
    ensures Run(s, [a, b]) && After(s, [a, b]) == n
  {
    RunConcat(s, [a], [b]);
    assert [a] + [b] == [a, b];
  }

  lemma {:induction false} GreetFinishRuns(p: Snapshot, names: map<H.Channel, Chan>, s: State, t: Tid, c: H.Channel,
                                           u: string) returns (n: State)
    requires Shows(p, names, s) && s.crash == None && c in names && t in s.threads && u in p.retained
    requires s.threads[t] == SubGreeting(names[c], u, p.retained[u])
    requires !p.buffers[c].closed && |p.buffers[c].buf| < CAPACITY
    ensures Run(s, [SubGreet(t), SubFinish(t)]) && After(s, [SubGreet(t), SubFinish(t)]) == n && n.crash == None
    ensures Shows(Buffered(p, c, p.retained[u]), names, n)
    ensures n.threads == if u in p.topics then s.threads - {t} else s.threads[t := GoStart(u)]
  {
    var s1 := GreetRuns(p, names, s, t, c, u);
    n := FinishShows(Buffered(p, c, p.retained[u]), names, s1, t, names[c], u);
    ThreadsAfter(s, s1, t, SubFinishing(names[c], u), GoStart(u));
    RunTwo(s, SubGreet(t), SubFinish(t), s1, n);
  }

  /** Where Subscribe leaves the machine. */
  ghost predicate SubscribeEnds(s: State, n: State, t: Tid, u: string, r: H.Outcome) {
    match r
    case Returned(spawned) =>
      n.crash == None && n.threads == if spawned then s.threads[t := GoStart(u)] else s.threads - {t}
    case Panicked => n.crash == Some(SendOnClosed)
    case Stuck => n.crash == None && t in n.threads && n.threads[t].SubGreeting? && !Enabled(n, SubGreet(t))
  }

  lemma {:induction false} AppendRuns(p: Snapshot, names: map<H.Channel, Chan>, s: State, t: Tid, c: H.Channel,
                                      u: string) returns (n: State)
    requires Shows(p, names, s) && c in names && Enabled(s, SubAppend(t)) && s.threads[t] == SubAnnounced(names[c], u)
    ensures Run(s, [SubAppend(t)]) && After(s, [SubAppend(t)]) == n == Next(s, SubAppend(t)) && n.crash == None
    ensures Shows(Appended(p, u, c), names, n)
    ensures n.threads == s.threads[t := Appending(p, names[c], u)]
  {
    n := Next(s, SubAppend(t));
    assert n == DoSubAppend(s, t);
    AppendShows(p, names, s, t, c, u);
    RunOne(s, SubAppend(t));
  }

  /** The part of a Subscribe that comes after SubAppend. */
  lemma {:induction false} RestRuns(p: Snapshot, names: map<H.Channel, Chan>, s: State, t: Tid, c: H.Channel,
                                    u: string, r: H.Outcome) returns (n: State)
    requires Shows(p, names, s) && s.crash == None && c in names && Fitting(p, c, u, r) && t in s.threads
    requires s.threads[t] == Appending(p, names[c], u)
    ensures Run(s, StepsLeft(t, u in p.retained, r)) && After(s, StepsLeft(t, u in p.retained, r)) == n
    ensures SubscribeEnds(s, n, t, u, r)
    ensures r.Returned? ==> Shows(if u in p.retained then Buffered(p, c, p.retained[u]) else p, names, n)
  {
    match r
    case Returned(spawned) =>
      if u in p.retained {
        n := GreetFinishRuns(p, names, s, t, c, u);
      } else {
        n := FinishShows(p, names, s, t, names[c], u);
      }
    case Panicked =>
      n := GreetRuns(p, names, s, t, c, u);
    case Stuck =>
      n := s;
      StuckShows(p, names, s, t, c, u);
  }

  lemma {:induction false} EndsAlike(s: State, s1: State, n: State, t: Tid, th: Thread, u: string, r: H.Outcome)
    requires s1.threads == s.threads[t := th] && SubscribeEnds(s1, n, t, u, r)
    ensures SubscribeEnds(s, n, t, u, r)
  {
    ThreadsAfter(s, s1, t, th, GoStart(u));
  }

  lemma {:induction false} SubscribeRuns(p: Snapshot, names: map<H.Channel, Chan>, s: State, t: Tid, c: H.Channel,
                                         u: string, r: H.Outcome) returns (n: State)
    requires Shows(p, names, s) && c in names && Fitting(p, c, u, r)
    requires Enabled(s, SubAppend(t)) && s.threads[t] == SubAnnounced(names[c], u)
    ensures var run := SubscribeSteps(t, u in p.retained, r); Run(s, run) && After(s, run) == n
    ensures SubscribeEnds(s, n, t, u, r) && Shows(Appended(p, u, c), names, Next(s, SubAppend(t)))
    ensures r.Returned? ==> Shows(Subscribed(p, u, c, r), names, n)
  {
    var s1 := AppendRuns(p, names, s, t, c, u);
    n := RestRuns(Appended(p, u, c), names, s1, t, c, u, r);
    EndsAlike(s, s1, n, t, s1.threads[t], u, r);
    RunConcat(s, [SubAppend(t)], StepsLeft(t, u in p.retained, r));
  }

  /** Subscribe is SubAppend, SubGreet if there is a retained message, and SubFinish, unless
      it blocks or panics at SubGreet; it spawns a goroutine exactly when SubFinish does. */
  method SubscribeRefines(b: H.Broker, typeUrl: string, msgs: H.Channel, ghost names: map<H.Channel, Chan>,
                          ghost s: State, ghost t: Tid)
    returns (r: H.Outcome, ghost run: seq<Step>)
    requires Represents(b, names, s) && msgs in names
    requires Enabled(s, SubAppend(t)) && s.threads[t] == SubAnnounced(names[msgs], typeUrl)
    modifies b`receivers, b.Arrays(), msgs`buf
    ensures run == SubscribeSteps(t, typeUrl in s.retained, r) && Run(s, run)
    ensures SubscribeEnds(s, After(s, run), t, typeUrl, r)
    ensures Represents(b, names, if r.Returned? then After(s, run) else Next(s, SubAppend(t)))
  {
    ghost var p := Snap(b, names);
    assert p.buffers[msgs] == Buffer(msgs.buf, msgs.closed);
    r := SubscribeSnap(b, typeUrl, msgs, names, p);
    run := SubscribeSteps(t, typeUrl in s.retained, r);
    ghost var n := SubscribeRuns(p, names, s, t, msgs, typeUrl, r);
  }

  // ----- UnsubscribeAll -----

  ghost function Removed(p: Snapshot, c: H.Channel): Snapshot {
    var keys := CleanupKeys(p.lists, c);
    p.(lists := RemoveEverywhere(p.lists, c), topics := p.topics - keys, retained := p.retained - keys)
  }

  /** UnsubscribeAll in terms of snapshots. */
  method UnsubscribeAllSnap(b: H.Broker, msgs: H.Channel, ghost names: map<H.Channel, Chan>, ghost p: Snapshot)
    returns (topicCleanup: seq<string>)
    requires b.Valid() && Snap(b, names) == p
    modifies b`receivers, b`topics, b`retainedMsgs, b.Arrays()
    ensures b.Valid() && Snap(b, names) == Removed(p, msgs)
    ensures Members(topicCleanup) == CleanupKeys(p.lists, msgs)
  {
    topicCleanup := b.UnsubscribeAll(msgs);
  }

  lemma {:induction false} RemoveShows(p: Snapshot, names: map<H.Channel, Chan>, s: State, t: Tid, g: Tid, c: H.Channel)
    requires Shows(p, names, s) && c in names && g !in s.threads
    requires t in s.threads && s.threads[t] == ClsAnnounced(names[c])
    ensures var n, keys := DoClsRemove(s, t, g), CleanupKeys(p.lists, c);
            && n.threads == (if keys == {} then s.threads[t := ClsRemoved(names[c])]
                             else s.threads[t := ClsRemoved(names[c])][g := UnWantConn(keys)])
            && Shows(Removed(p, c), names, n)
  {
    RenameRemoveAll(p.lists, names, c);
    assert DoClsRemove(s, t, g).chans == s.chans;
  }

  /** UnsubscribeAll is ClsRemove; its goroutine is started exactly when the machine
      starts one, for the same type URLs. */
  method UnsubscribeAllRefines(b: H.Broker, msgs: H.Channel, ghost names: map<H.Channel, Chan>,
                               ghost s: State, ghost t: Tid, ghost g: Tid)
    returns (topicCleanup: seq<string>)
    requires Represents(b, names, s) && msgs in names
    requires Enabled(s, ClsRemove(t, g)) && s.threads[t] == ClsAnnounced(names[msgs])
    modifies b`receivers, b`topics, b`retainedMsgs, b.Arrays()
    ensures Run(s, [ClsRemove(t, g)]) && Represents(b, names, After(s, [ClsRemove(t, g)]))
    ensures After(s, [ClsRemove(t, g)]).threads ==
            var threads := s.threads[t := ClsRemoved(names[msgs])];
            if topicCleanup == [] then threads else threads[g := UnWantConn(Members(topicCleanup))]
  {
    ghost var p := Snap(b, names);
    RunOne(s, ClsRemove(t, g));
    assert After(s, [ClsRemove(t, g)]) == DoClsRemove(s, t, g);
    RemoveShows(p, names, s, t, g, msgs);
    topicCleanup := UnsubscribeAllSnap(b, msgs, names, p);
    if topicCleanup != [] { assert topicCleanup[0] in Members(topicCleanup); }
  }

  // ----- handleMessage -----

  ghost predicate SameMaps(s: State, n: State) {
    && n.crash == s.crash && n.receivers == s.receivers && n.topics == s.topics && n.retained == s.retained
    && n.linked == s.linked && n.session == s.session
  }

  lemma {:induction false} FilledFirst(buf: seq<Event>, e: Event, n: nat)
    ensures H.Filled(H.Offered(buf, e, true), e, n) == H.Filled(buf, e, n + 1)
    ensures H.Filled(buf, e, 0) == buf
  {
    if |buf| < CAPACITY {
      var k := if |buf| + n + 1 <= CAPACITY then n else CAPACITY - |buf| - 1;
      assert H.Repeat(e, k + 1) == [e] + H.Repeat(e, k);
      assert (buf + [e]) + H.Repeat(e, k) == buf + ([e] + H.Repeat(e, k));
    }
  }

  /** Channel `c` was offered `e` once, and nothing else happened to any channel. */
  ghost predicate OfferedTo(s: State, n: State, e: Event, c: Chan) {
    forall d :: Ch(n, d).closed == Ch(s, d).closed &&
                EventsOf(Ch(n, d).queue) == H.Offered(EventsOf(Ch(s, d).queue), e, d == c)
  }

  lemma {:induction false} SendFits(s: State, t: Tid)
    requires s.crash == None && AtReceiver(s, t) && !Ch(s, Receiver(s, t)).closed
    requires |Ch(s, Receiver(s, t)).queue| < CAPACITY
    ensures var n, th := DoMsgSend(s, t), s.threads[t];
            && SameMaps(s, n) && n.threads == s.threads[t := MsgSending(th.e, th.i + 1)]
            && OfferedTo(s, n, th.e, Receiver(s, t))
  {
    var n, c := DoMsgSend(s, t), Receiver(s, t);
    assert forall d :: d != c ==> Ch(n, d) == Ch(s, d);
    assert EventsOf(Ch(n, c).queue) == EventsOf(Ch(s, c).queue) + [s.threads[t].e];
  }

  lemma {:induction false} SendDrops(s: State, t: Tid)
    requires s.crash == None && AtReceiver(s, t) && |Ch(s, Receiver(s, t)).queue| >= CAPACITY
    ensures var n, th := DoMsgDrop(s, t), s.threads[t];
            && SameMaps(s, n) && n.threads == s.threads[t := MsgSending(th.e, th.i + 1)]
            && OfferedTo(s, n, th.e, Receiver(s, t))
  {
    assert DoMsgDrop(s, t).chans == s.chans;
  }

  /** A send to an open channel with no consumer at work. */
  lemma {:induction false} SendOne(s: State, t: Tid) returns (st: Step)
    requires s.crash == None && AtReceiver(s, t) && !Ch(s, Receiver(s, t)).closed
    ensures Enabled(s, st) && SameMaps(s, Next(s, st)) && OfferedTo(s, Next(s, st), s.threads[t].e, Receiver(s, t))
    ensures Next(s, st).threads == s.threads[t := MsgSending(s.threads[t].e, s.threads[t].i + 1)]
  {
    if |Ch(s, Receiver(s, t)).queue| < CAPACITY {
      SendFits(s, t);
      st := MsgSend(t);
    } else {
      SendDrops(s, t);
      st := MsgDrop(t);
    }
  }

  /** The first receiver, and then the rest. */
  lemma {:induction false} OfferThenFill(s: State, s1: State, n: State, e: Event, list: seq<Chan>, i: nat)
    requires i < |list| && OfferedTo(s, s1, e, list[i])
    requires forall d :: EventsOf(Ch(n, d).queue) == H.Filled(EventsOf(Ch(s1, d).queue), e, Count(list[i + 1..], d))
    ensures forall d :: EventsOf(Ch(n, d).queue) == H.Filled(EventsOf(Ch(s, d).queue), e, Count(list[i..], d))
  {
    forall d
      ensures EventsOf(Ch(n, d).queue) == H.Filled(EventsOf(Ch(s, d).queue), e, Count(list[i..], d))
    {
      assert list[i..][1..] == list[i + 1..];
      FilledFirst(EventsOf(Ch(s, d).queue), e, Count(list[i + 1..], d));
    }
  }

  /** The rest of a send loop, run with no consumer at work. */
  lemma {:induction false} SendRest(s: State, t: Tid) returns (run: seq<Step>, n: State)
    requires s.crash == None && t in s.threads && s.threads[t].MsgSending?
    requires s.threads[t].i <= |List(s, Key(s.threads[t].e))|
    requires forall j :: s.threads[t].i <= j < |List(s, Key(s.threads[t].e))| ==>
               !Ch(s, List(s, Key(s.threads[t].e))[j]).closed
    ensures Run(s, run) && After(s, run) == n && SameMaps(s, n)
    ensures var e, list := s.threads[t].e, List(s, Key(s.threads[t].e));
            && t in n.threads && n.threads[t] == MsgSending(e, |list|)
            && (forall d :: Ch(n, d).closed == Ch(s, d).closed)
            && (forall d :: EventsOf(Ch(n, d).queue) ==
                            H.Filled(EventsOf(Ch(s, d).queue), e, Count(list[s.threads[t].i..], d)))
    decreases |List(s, Key(s.threads[t].e))| - s.threads[t].i
  {
    var e, i, list := s.threads[t].e, s.threads[t].i, List(s, Key(s.threads[t].e));
    if i == |list| {
      run, n := [], s;
      forall d ensures H.Filled(EventsOf(Ch(s, d).queue), e, 0) == EventsOf(Ch(s, d).queue) {
        FilledFirst(EventsOf(Ch(s, d).queue), e, 0);
      }
    } else {
      var st := SendOne(s, t);
      var s1, rest := Next(s, st), [];
      assert s1.threads[t] == MsgSending(e, i + 1) && List(s1, Key(e)) == list;
      rest, n := SendRest(s1, t);
      RunCons(s, st, rest);
      run := [st] + rest;
      OfferThenFill(s, s1, n, e, list, i);
    }
  }

  /** One event dispatched to every receiver of its type URL, and cached if flagged. */
  ghost function Dispatched(p: Snapshot, e: Event, flagged: bool): Snapshot {
    var u, pb := DispatchKey(e.typeUrl), Stamp(e, flagged);
    p.(retained := if flagged then p.retained[u := pb] else p.retained,
       buffers := map c | c in p.buffers ::
         Buffer(H.Filled(p.buffers[c].buf, pb, Count(ListOf(p.lists, u), c)), p.buffers[c].closed))
  }

  ghost predicate ClosedAhead(p: Snapshot, u: string) {
    exists c :: c in p.buffers && c in ListOf(p.lists, u) && p.buffers[c].closed
  }

  lemma {:induction false} NotListed(buf: seq<Event>, e: Event, list: seq<H.Channel>, c: H.Channel)
    requires c !in list
    ensures H.Filled(buf, e, Count(list, c)) == buf
  {
    WithoutMembers(list, c);
    FilledFirst(buf, e, 0);
  }

  /** The buffers of all named channels after one message. */
  method HandleMessageBuffers(b: H.Broker, e: Event, flagged: bool, ghost names: map<H.Channel, Chan>)
    returns (panicked: bool)
    requires b.Valid() && AllNamed(names, b.View())
    modifies b`retainedMsgs, b.Targets(DispatchKey(e.typeUrl))`buf
    ensures b.Valid() && b.View() == old(b.View())
    ensures b.retainedMsgs == if flagged then old(b.retainedMsgs)[Key(e) := Stamp(e, flagged)] else old(b.retainedMsgs)
    ensures panicked <==> exists c :: c in names && c in ListOf(b.View(), Key(e)) && c.closed
    ensures !panicked ==> forall c :: c in names ==>
              c.buf == H.Filled(old(c.buf), Stamp(e, flagged), Count(ListOf(b.View(), Key(e)), c))
  {
    ghost var list := ListOf(b.View(), Key(e));
    assert Named(names, list);
    panicked := b.HandleMessage(e, flagged);
    if !panicked {
      forall c | c in names
        ensures c.buf == H.Filled(old(c.buf), Stamp(e, flagged), Count(list, c))
      {
        if c !in list { NotListed(old(c.buf), Stamp(e, flagged), list, c); }
      }
    }
  }

  method HandleMessageSnap(b: H.Broker, e: Event, flagged: bool, ghost names: map<H.Channel, Chan>, ghost p: Snapshot)
    returns (panicked: bool)
    requires b.Valid() && AllNamed(names, b.View()) && Snap(b, names) == p
    modifies b`retainedMsgs, b.Targets(DispatchKey(e.typeUrl))`buf
    ensures b.Valid() && (panicked <==> ClosedAhead(p, DispatchKey(e.typeUrl)))
    ensures !panicked ==> Snap(b, names) == Dispatched(p, e, flagged)
  {
    assert forall c :: c in names ==> p.buffers[c] == Buffer(c.buf, c.closed);
    panicked := HandleMessageBuffers(b, e, flagged, names);
    if !panicked {
      SnapOf(b, names, Dispatched(p, e, flagged));
    }
  }

  lemma {:induction false} RenameCount<C, D>(list: seq<C>, names: map<C, D>, m: C)
    requires Injective(names) && Named(names, list) && m in names
    ensures Count(Rename(list, names), names[m]) == Count(list, m)
  {
    if list != [] {
      assert Rename(list, names)[1..] == Rename(list[1..], names);
      RenameCount(list[1..], names, m);
    }
  }

  lemma {:induction false} LockEffect(s: State, t: Tid, e: Event, flagged: bool) returns (n: State)
    requires Enabled(s, MsgLock(t)) && s.threads[t] == MsgWantRead(e, flagged)
    ensures n == Next(s, MsgLock(t))
    ensures n == s.(threads := s.threads[t := MsgSending(Stamp(e, flagged), 0)], log := n.log,
                    retained := if flagged then s.retained[Key(e) := Stamp(e, flagged)] else s.retained)
  {
    n := Next(s, MsgLock(t));
    assert n == DoMsgLock(s, t);
  }

  lemma {:induction false} LockShows(p: Snapshot, names: map<H.Channel, Chan>, s: State, t: Tid, e: Event,
                                    flagged: bool)
    requires Shows(p, names, s) && Enabled(s, MsgLock(t)) && s.threads[t] == MsgWantRead(e, flagged)
    ensures var n, pb := Next(s, MsgLock(t)), Stamp(e, flagged);
            && n.crash == None && t in n.threads && n.threads[t] == MsgSending(pb, 0) && n.receivers == s.receivers
            && Shows(p.(retained := if flagged then p.retained[Key(e) := pb] else p.retained), names, n)
  {
    var n := LockEffect(s, t, e, flagged);
  }

  lemma {:induction false} ShowsList(p: Snapshot, names: map<H.Channel, Chan>, s: State, u: string)
    requires Shows(p, names, s)
    ensures Named(names, ListOf(p.lists, u)) && List(s, u) == Rename(ListOf(p.lists, u), names)
  {
  }

  /** The effect on the channels, seen through the names. */
  lemma {:induction false} FilledShows(p: Snapshot, names: map<H.Channel, Chan>, s: State, n: State, e: Event,
                                      flagged: bool)
    requires Shows(p.(retained := if flagged then p.retained[Key(e) := Stamp(e, flagged)] else p.retained), names, s)
    requires SameMaps(s, n)
    requires forall d :: Ch(n, d).closed == Ch(s, d).closed
    requires forall d :: EventsOf(Ch(n, d).queue) ==
                         H.Filled(EventsOf(Ch(s, d).queue), Stamp(e, flagged), Count(List(s, Key(e)), d))
    ensures Shows(Dispatched(p, e, flagged), names, n)
  {
    var list := ListOf(p.lists, Key(e));
    ShowsList(p.(retained := s.retained), names, s, Key(e));
    forall c | c in names
      ensures Count(List(s, Key(e)), names[c]) == Count(list, c)
    {
      RenameCount(list, names, c);
    }
  }

  /** handleMessage is MsgLock and the sends; it panics exactly when a closed channel
      is registered. */
  lemma {:induction false} DispatchShows(p: Snapshot, names: map<H.Channel, Chan>, s: State, t: Tid, e: Event,
                                        flagged: bool)
    returns (run: seq<Step>, n: State)
    requires Shows(p, names, s) && Enabled(s, MsgLock(t)) && s.threads[t] == MsgWantRead(e, flagged)
    requires forall c :: c in List(s, Key(e)) ==> !Ch(s, c).closed
    ensures Run(Next(s, MsgLock(t)), run) && After(Next(s, MsgLock(t)), run) == n
    ensures n.crash == None && t in n.threads && n.threads[t] == MsgSending(Stamp(e, flagged), |List(n, Key(e))|)
    ensures Shows(Dispatched(p, e, flagged), names, n)
  {
    var s1 := Next(s, MsgLock(t));
    LockShows(p, names, s, t, e, flagged);
    assert s1.chans == s.chans && Key(Stamp(e, flagged)) == Key(e);
    forall j | 0 <= j < |List(s1, Key(e))|
      ensures !Ch(s1, List(s1, Key(e))[j]).closed
    {
      assert List(s, Key(e))[j] in List(s, Key(e));
    }
    run, n := SendRest(s1, t);
    assert List(s1, Key(e))[0..] == List(s1, Key(e));
    FilledShows(p, names, s1, n, e, flagged);
  }

  lemma {:induction false} LockedPanics(s: State, t: Tid, e: Event, flagged: bool) returns (run: seq<Step>)
    requires Enabled(s, MsgLock(t)) && s.threads[t] == MsgWantRead(e, flagged)
    requires exists c :: c in List(s, Key(e)) && Ch(s, c).closed
    ensures Run(Next(s, MsgLock(t)), run) && After(Next(s, MsgLock(t)), run).crash == Some(SendOnClosed)
  {
    var s1 := Next(s, MsgLock(t));
    assert s1.threads[t] == MsgSending(Stamp(e, flagged), 0) && s1.receivers == s.receivers && s1.chans == s.chans;
    var c :| c in List(s, Key(e)) && Ch(s, c).closed;
    var j :| 0 <= j < |List(s, Key(e))| && List(s, Key(e))[j] == c;
    assert Key(Stamp(e, flagged)) == Key(e);
    run := DispatchPanics(s1, t, j);
  }

  lemma {:induction false} ClosedShows(p: Snapshot, names: map<H.Channel, Chan>, s: State, u: string)
    requires Shows(p, names, s)
    ensures ClosedAhead(p, u) <==> exists c :: c in List(s, u) && Ch(s, c).closed
  {
    var list := ListOf(p.lists, u);
    assert Named(names, list) && List(s, u) == Rename(list, names);
    if ClosedAhead(p, u) {
      var c :| c in p.buffers && c in list && p.buffers[c].closed;
      RenameMember(list, names, c);
    }
    if d :| d in List(s, u) && Ch(s, d).closed {
      var i :| 0 <= i < |list| && List(s, u)[i] == d;
      assert list[i] in list && list[i] in p.buffers;
    }
  }

  method HandleMessageRefines(b: H.Broker, e: Event, flagged: bool, ghost names: map<H.Channel, Chan>,
                              ghost s: State, ghost t: Tid)
    returns (panicked: bool, ghost run: seq<Step>)
    requires Represents(b, names, s) && Enabled(s, MsgLock(t)) && s.threads[t] == MsgWantRead(e, flagged)
    modifies b`retainedMsgs, b.Targets(DispatchKey(e.typeUrl))`buf
    ensures panicked <==> exists c :: c in List(s, DispatchKey(e.typeUrl)) && Ch(s, c).closed
    ensures !panicked ==> Run(Next(s, MsgLock(t)), run) && Enabled(After(Next(s, MsgLock(t)), run), MsgEnd(t))
    ensures !panicked ==> Represents(b, names, After(Next(s, MsgLock(t)), run))
    ensures panicked ==> Run(Next(s, MsgLock(t)), run) && After(Next(s, MsgLock(t)), run).crash == Some(SendOnClosed)
  {
    ghost var p, n := Snap(b, names), s;
    run := [];
    ClosedShows(p, names, s, DispatchKey(e.typeUrl));
    panicked := HandleMessageSnap(b, e, flagged, names, p);
    if !panicked {
      run, n := DispatchShows(p, names, s, t, e, flagged);
    } else {
      run := LockedPanics(s, t, e, flagged);
    }
  }

  // ----- the goroutines on the session -----

  ghost function Called(p: Snapshot, u: string, acked: bool): Snapshot {
    p.(session := if acked then p.session + {MakeTopic(u)} else p.session)
  }

  ghost function Stored(p: Snapshot, u: string): Snapshot {
    p.(topics := p.topics + {u})
  }

  lemma {:induction false} CallShows(p: Snapshot, names: map<H.Channel, Chan>, s: State, t: Tid, u: string,
                                    ok: bool, acked: bool) returns (n: State)
    requires Shows(p, names, s) && s.linked && Enabled(s, FlCall(t, ok, acked)) && s.threads[t] == FlHasConn(u)
    ensures n == Next(s, FlCall(t, ok, acked)) && n.crash == None && Shows(Called(p, u, acked), names, n)
    ensures n.threads == s.threads[t := if ok then FlWantWrite(u) else FlLeaving(u)]
  {
    n := Next(s, FlCall(t, ok, acked));
    assert n == DoFlCall(s, t, ok, acked);
    assert n.chans == s.chans;
  }

  lemma {:induction false} StoreShows(p: Snapshot, names: map<H.Channel, Chan>, s: State, t: Tid, u: string)
    returns (n: State)
    requires Shows(p, names, s) && s.crash == None && NoWriter(s) && NoReader(s)
    requires t in s.threads && s.threads[t] == FlWantWrite(u)
    ensures Run(s, [Announce(t), FlStore(t)]) && After(s, [Announce(t), FlStore(t)]) == n && n.crash == None
    ensures Shows(Stored(p, u), names, n) && n.threads == s.threads[t := FlLeaving(u)]
  {
    n := FlightStores(s, t, u);
    assert n.chans == s.chans;
  }

  /** The steps of the function that the singleflight group runs. */
  function FlightSteps(t: Tid, ok: bool, acked: bool, panicked: bool): seq<Step> {
    [FlCall(t, ok, acked)] + if ok && !panicked then [Announce(t), FlStore(t)] else []
  }

  lemma {:induction false} FlightShows(p: Snapshot, names: map<H.Channel, Chan>, s: State, t: Tid, u: string,
                                      ok: bool, acked: bool)
    requires Shows(p, names, s) && s.linked && Enabled(s, FlCall(t, ok, acked)) && s.threads[t] == FlHasConn(u)
    requires NoWriter(s) && NoReader(s)
    ensures var run := FlightSteps(t, ok, acked, false);
            && Run(s, run) && After(s, run).crash == None && After(s, run).threads == s.threads[t := FlLeaving(u)]
            && Shows(if ok then Stored(Called(p, u, acked), u) else Called(p, u, acked), names, After(s, run))
  {
    var n := CallShows(p, names, s, t, u, ok, acked);
    if ok {
      var n1 := StoreShows(Called(p, u, acked), names, n, t, u);
      RunCons(s, FlCall(t, ok, acked), [Announce(t), FlStore(t)]);
      assert n.threads[t := FlLeaving(u)] == s.threads[t := FlLeaving(u)];
    } else {
      RunOne(s, FlCall(t, ok, acked));
    }
  }

  method SubscribeTopicSnap(b: H.Broker, typeUrl: string, ok: bool, acked: bool, ghost names: map<H.Channel, Chan>,
                            ghost p: Snapshot) returns (panicked: bool)
    requires b.Valid() && Snap(b, names) == p
    modifies b`topics, b.conn
    ensures b.Valid() && (panicked <==> !p.linked)
    ensures !panicked ==>
              Snap(b, names) == if ok then Stored(Called(p, typeUrl, acked), typeUrl) else Called(p, typeUrl, acked)
  {
    assert forall c :: c in names ==> p.buffers[c] == Buffer(c.buf, c.closed);
    panicked := b.SubscribeTopic(typeUrl, ok, acked);
    if !panicked {
      SnapOf(b, names, if ok then Stored(Called(p, typeUrl, acked), typeUrl) else Called(p, typeUrl, acked));
    }
  }

  /** The body of `subscribe` is a flight that fails or stores its type URL, for every
      answer that the machine allows, or panics. */
  method SubscribeTopicRefines(b: H.Broker, typeUrl: string, ok: bool, acked: bool, ghost names: map<H.Channel, Chan>,
                               ghost s: State, ghost t: Tid)
    returns (panicked: bool, ghost run: seq<Step>)
    requires Represents(b, names, s) && NoWriter(s) && NoReader(s)
    requires Enabled(s, FlCall(t, ok, acked)) && s.threads[t] == FlHasConn(typeUrl)
    modifies b`topics, b.conn
    ensures run == FlightSteps(t, ok, acked, panicked) && Run(s, run)
    ensures panicked <==> After(s, run).crash == Some(NilConn)
    ensures !panicked ==>
              && Represents(b, names, After(s, run)) && After(s, run).crash == None
              && After(s, run).threads == s.threads[t := FlLeaving(typeUrl)]
  {
    ghost var p := Snap(b, names);
    panicked := SubscribeTopicSnap(b, typeUrl, ok, acked, names, p);
    run := FlightSteps(t, ok, acked, panicked);
    if !panicked {
      FlightShows(p, names, s, t, typeUrl, ok, acked);
    } else {
      RunOne(s, FlCall(t, ok, acked));
      assert After(s, run) == DoFlCall(s, t, ok, acked);
    }
  }

  method UnsubscribeTopicsSnap(b: H.Broker, topicCleanup: array<string>, dropped: string -> bool,
                               ghost names: map<H.Channel, Chan>, ghost p: Snapshot) returns (panicked: bool)
    requires b.Valid() && Snap(b, names) == p
    modifies topicCleanup, b.conn
    ensures b.Valid() && (panicked <==> !p.linked)
    ensures !panicked ==>
              Snap(b, names) ==
              p.(session := p.session - H.Chosen(MakeTopics(Members(old(topicCleanup[..]))), dropped))
  {
    panicked := b.UnsubscribeTopics(topicCleanup, dropped);
  }

  lemma {:induction false} GoneShows(p: Snapshot, names: map<H.Channel, Chan>, s: State, t: Tid, gone: set<string>)
    requires Shows(p, names, s) && s.linked
    ensures Shows(p.(session := p.session - gone), names, DoUnCall(s, t, gone))
  {
    assert DoUnCall(s, t, gone).chans == s.chans;
  }

  /** The unsubscribe goroutine is UnCall. */
  method UnsubscribeTopicsRefines(b: H.Broker, topicCleanup: array<string>, dropped: string -> bool,
                                  ghost names: map<H.Channel, Chan>, ghost s: State, ghost t: Tid)
    returns (panicked: bool, ghost gone: set<string>)
    requires Represents(b, names, s) && s.crash == None
    requires t in s.threads && s.threads[t] == UnHasConn(Members(topicCleanup[..]))
    modifies topicCleanup, b.conn
    ensures gone == H.Chosen(TopicsFor(s.threads[t]), dropped) && Run(s, [UnCall(t, gone)])
    ensures panicked <==> After(s, [UnCall(t, gone)]).crash == Some(NilConn)
    ensures !panicked ==>
              && Represents(b, names, After(s, [UnCall(t, gone)]))
              && After(s, [UnCall(t, gone)]).threads == s.threads - {t}
  {
    ghost var p := Snap(b, names);
    gone := H.Chosen(TopicsFor(s.threads[t]), dropped);
    RunOne(s, UnCall(t, gone));
    assert After(s, [UnCall(t, gone)]) == DoUnCall(s, t, gone);
    panicked := UnsubscribeTopicsSnap(b, topicCleanup, dropped, names, p);
    if !panicked { GoneShows(p, names, s, t, gone); }
  }

  // ----- HandleOnConnect -----

  predicate AllOf(names: set<string>, pick: string -> bool) {
    forall u :: u in names ==> pick(u)
  }

  /** Without a network nothing is granted, and nothing reported as granted. */
  ghost predicate Plausible(s: State, ok: string -> bool, acked: string -> bool) {
    forall u :: ok(u) || acked(u) ==> s.up
  }

  ghost function OneResub(s: State, t: Tid, u: string, ok: bool, acked: bool): State
    requires t in s.threads && s.threads[t].OcResub?
  {
    var th := s.threads[t];
    s.(session := s.session + (if acked then {MakeTopic(u)} else {}),
       threads := s.threads[t := OcResub(th.todo - {u}, th.clean && ok, th.began)])
  }

  lemma {:induction false} ResubStep(s: State, t: Tid, u: string, ok: bool, acked: bool)
    requires s.crash == None && t in s.threads && s.threads[t].OcResub? && u in s.threads[t].todo
    requires ok || acked ==> s.up
    ensures Enabled(s, OcSub(t, u, ok, acked)) && Next(s, OcSub(t, u, ok, acked)) == OneResub(s, t, u, ok, acked)
  {
  }

  /** The loop done. */
  ghost function AllResub(s: State, t: Tid, ok: string -> bool, acked: string -> bool): State
    requires t in s.threads && s.threads[t].OcResub?
  {
    var th := s.threads[t];
    s.(session := s.session + MakeTopics(H.Chosen(th.todo, acked)),
       threads := s.threads[t := OcResub({}, th.clean && AllOf(th.todo, ok), th.began)])
  }

  lemma {:induction false} SplitChosen(names: set<string>, u: string, pick: string -> bool)
    requires u in names
    ensures MakeTopics(H.Chosen(names, pick)) ==
            (if pick(u) then {MakeTopic(u)} else {}) + MakeTopics(H.Chosen(names - {u}, pick))
    ensures AllOf(names, pick) <==> pick(u) && AllOf(names - {u}, pick)
  {
    assert H.Chosen(names, pick) == H.Chosen(names - {u}, pick) + (if pick(u) then {u} else {});
  }

  lemma {:induction false} ResubFold(s: State, t: Tid, u: string, ok: string -> bool, acked: string -> bool)
    requires t in s.threads && s.threads[t].OcResub? && u in s.threads[t].todo
    ensures AllResub(OneResub(s, t, u, ok(u), acked(u)), t, ok, acked) == AllResub(s, t, ok, acked)
  {
    var th, one := s.threads[t], OneResub(s, t, u, ok(u), acked(u));
    SplitChosen(th.todo, u, acked);
    SplitChosen(th.todo, u, ok);
    var last := OcResub({}, th.clean && AllOf(th.todo, ok), th.began);
    assert one.threads[t := last] == s.threads[t := last];
  }

  lemma {:induction false} ResubOne(s: State, t: Tid, u: string, ok: string -> bool, acked: string -> bool)
    returns (n: State)
    requires s.crash == None && t in s.threads && s.threads[t].OcResub? && u in s.threads[t].todo
    requires Plausible(s, ok, acked)
    ensures Enabled(s, OcSub(t, u, ok(u), acked(u))) && n == Next(s, OcSub(t, u, ok(u), acked(u)))
    ensures n.crash == None && n.up == s.up && t in n.threads && n.threads[t].OcResub?
    ensures n.threads[t].todo == s.threads[t].todo - {u} && AllResub(n, t, ok, acked) == AllResub(s, t, ok, acked)
  {
    ResubStep(s, t, u, ok(u), acked(u));
    ResubFold(s, t, u, ok, acked);
    n := OneResub(s, t, u, ok(u), acked(u));
  }

  /** The loop of HandleOnConnect: the server grants what `acked` says, and the client
      reports success for what `ok` says. */
  lemma {:induction false} ResubRest(s: State, t: Tid, ok: string -> bool, acked: string -> bool)
    returns (run: seq<Step>)
    requires s.crash == None && t in s.threads && s.threads[t].OcResub? && Plausible(s, ok, acked)
    ensures Run(s, run) && After(s, run) == AllResub(s, t, ok, acked)
    decreases s.threads[t].todo
  {
    var th := s.threads[t];
    if th.todo == {} {
      run := [];
      assert H.Chosen(th.todo, acked) == {} && s.threads[t := th] == s.threads;
    } else {
      var u :| u in th.todo;
      var st := OcSub(t, u, ok(u), acked(u));
      var n := ResubOne(s, t, u, ok, acked);
      var rest := ResubRest(n, t, ok, acked);
      RunCons(s, st, rest);
      run := [st] + rest;
    }
  }

  lemma {:induction false} ConnectLocks(s: State, t: Tid) returns (n: State)
    requires Enabled(s, LockConn(t)) && s.threads[t] == OcWantConn
    ensures n == Next(s, LockConn(t)) && n == s.(linked := true, threads := s.threads[t := OcWantRead(s.losses)])
  {
    n := Next(s, LockConn(t));
  }

  lemma {:induction false} ConnectBegins(s: State, t: Tid) returns (n: State)
    requires Enabled(s, LockConn(t)) && s.threads[t] == OcWantConn && NoWriter(s)
    ensures Run(s, [LockConn(t), OcLock(t)]) && After(s, [LockConn(t), OcLock(t)]) == n
    ensures n == s.(linked := true, threads := s.threads[t := OcResub(s.topics, true, s.losses)])
  {
    var s1 := ConnectLocks(s, t);
    n := Next(s1, OcLock(t));
    assert n == s1.(threads := s1.threads[t := OcResub(s.topics, true, s.losses)]);
    assert n.threads == s.threads[t := OcResub(s.topics, true, s.losses)];
    RunOne(s1, OcLock(t));
    RunCons(s, LockConn(t), [OcLock(t)]);
    assert [LockConn(t)] + [OcLock(t)] == [LockConn(t), OcLock(t)];
  }

  lemma {:induction false} ConnectEnds(s: State, t: Tid, clean: bool)
    requires s.crash == None && t in s.threads && s.threads[t] == OcResub({}, clean, s.losses)
    ensures Run(s, [OcEnd(t)])
    ensures After(s, [OcEnd(t)]) == s.(threads := s.threads - {t}, synced := s.synced || clean)
  {
    RunOne(s, OcEnd(t));
  }

  /** Where HandleOnConnect ends. */
  ghost function Reconnected(s: State, t: Tid, ok: string -> bool, acked: string -> bool): State {
    s.(linked := true, session := s.session + MakeTopics(H.Chosen(s.topics, acked)),
       threads := s.threads - {t}, synced := s.synced || AllOf(s.topics, ok))
  }

  lemma {:induction false} ResubEnds(s: State, s1: State, t: Tid, ok: string -> bool, acked: string -> bool)
    requires t in s.threads
    requires s1 == s.(linked := true, threads := s.threads[t := OcResub(s.topics, true, s.losses)])
    ensures var n := AllResub(s1, t, ok, acked);
            && n.threads[t] == OcResub({}, AllOf(s.topics, ok), s.losses) && n.crash == s.crash && n.losses == s.losses
            && n.(threads := n.threads - {t}, synced := n.synced || AllOf(s.topics, ok)) == Reconnected(s, t, ok, acked)
  {
    var n := AllResub(s1, t, ok, acked);
    assert n.threads - {t} == s.threads - {t};
  }

  /** HandleOnConnect is LockConn, OcLock, one OcSub for every entry of topics, and OcEnd. */
  lemma {:induction false} ConnectRun(s: State, t: Tid, ok: string -> bool, acked: string -> bool)
    returns (run: seq<Step>)
    requires Enabled(s, LockConn(t)) && s.threads[t] == OcWantConn && NoWriter(s)
    requires Plausible(s, ok, acked)
    ensures Run(s, run) && After(s, run) == Reconnected(s, t, ok, acked)
  {
    var s1 := ConnectBegins(s, t);
    var mid := ResubRest(s1, t, ok, acked);
    ResubEnds(s, s1, t, ok, acked);
    ConnectEnds(After(s1, mid), t, AllOf(s.topics, ok));
    RunConcat(s1, mid, [OcEnd(t)]);
    RunConcat(s, [LockConn(t), OcLock(t)], mid + [OcEnd(t)]);
    run := [LockConn(t), OcLock(t)] + (mid + [OcEnd(t)]);
  }

  lemma {:induction false} ReconnectShows(p: Snapshot, names: map<H.Channel, Chan>, s: State, t: Tid,
                                          ok: string -> bool, acked: string -> bool)
    requires Shows(p, names, s)
    ensures Shows(p.(linked := true, session := s.session + MakeTopics(H.Chosen(p.topics, acked))), names,
                  Reconnected(s, t, ok, acked))
  {
    assert Reconnected(s, t, ok, acked).chans == s.chans;
  }

  method HandleOnConnectSnap(b: H.Broker, cli: H.Session, acked: string -> bool, ghost names: map<H.Channel, Chan>,
                             ghost p: Snapshot)
    requires b.Valid() && Snap(b, names) == p
    modifies b`conn, cli`subscribed
    ensures b.Valid()
    ensures Snap(b, names) == p.(linked := true, session := old(cli.subscribed) + MakeTopics(H.Chosen(p.topics, acked)))
  {
    b.HandleOnConnect(cli, acked);
  }

  /** HandleOnConnect on the heap, for a client whose session is the machine's. */
  method HandleOnConnectRefines(b: H.Broker, cli: H.Session, acked: string -> bool, ghost ok: string -> bool,
                                ghost names: map<H.Channel, Chan>, ghost s: State, ghost t: Tid)
    returns (ghost run: seq<Step>)
    requires Represents(b, names, s) && cli.subscribed == s.session
    requires Enabled(s, LockConn(t)) && s.threads[t] == OcWantConn && NoWriter(s)
    requires Plausible(s, ok, acked)
    modifies b`conn, cli`subscribed
    ensures Run(s, run) && After(s, run) == Reconnected(s, t, ok, acked)
    ensures Represents(b, names, After(s, run))
  {
    ghost var p := Snap(b, names);
    run := ConnectRun(s, t, ok, acked);
    ReconnectShows(p, names, s, t, ok, acked);
    HandleOnConnectSnap(b, cli, acked, names, p);
  }
}
