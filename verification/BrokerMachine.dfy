/** The broker, its subscribers and the MQTT session as interleaved threads
    (internal/broker/broker.go, internal/broker/subscriber.go). A step is what one
    goroutine does between two points where another one may run. The lists and
    cleanups use the functions that BrokerHeap proves of the in-place code. */
module BrokerMachine {
  import opened Events
  import opened Topics
  import opened ReceiverLists

  type Chan = nat
  type Tid = nat

  /** Where a goroutine stands. Each constructor is a program point. */
  datatype Thread =
    // handleMessage: before RLock; in the send loop, `i` receivers served
    | MsgWantRead(e: Event, flagged: bool)
    | MsgSending(e: Event, i: nat)
    // Subscribe: before Lock; announced; blocked in the greeting; before the topic check
    | SubWantWrite(c: Chan, u: string)
    | SubAnnounced(c: Chan, u: string)
    | SubGreeting(c: Chan, u: string, e: Event)
    | SubFinishing(c: Chan, u: string)
    // the closing goroutine of Handle: before UnsubscribeAll's Lock; announced; before close(msgs)
    | ClsWantWrite(c: Chan)
    | ClsAnnounced(c: Chan)
    | ClsRemoved(c: Chan)
    // go b.subscribe(u): before single.Do; the flight at its four points; after its
    // function has returned, until it has left the singleflight table
    | GoStart(u: string)
    | FlWantConn(u: string)
    | FlHasConn(u: string)
    | FlWantWrite(u: string)
    | FlAnnounced(u: string)
    | FlLeaving(u: string)
    // the unsubscribe goroutine
    | UnWantConn(keys: set<string>)
    | UnHasConn(keys: set<string>)
    // HandleOnConnect: before connLock; before RLock; in the loop
    | OcWantConn
    | OcWantRead(began: nat)
    | OcResub(todo: set<string>, clean: bool, began: nat)
    // Publish
    | PubWantConn
    | PubHasConn

  predicate HoldsConn(th: Thread) {
    th.FlHasConn? || th.FlWantWrite? || th.FlAnnounced? || th.UnHasConn? ||
    th.OcWantRead? || th.OcResub? || th.PubHasConn?
  }

  predicate WaitsConn(th: Thread) {
    th.FlWantConn? || th.UnWantConn? || th.OcWantConn? || th.PubWantConn?
  }

  predicate Reads(th: Thread) {
    th.MsgSending? || th.OcResub?
  }

  /** Has announced itself as the writer of `l`, or is writing already. */
  predicate Writes(th: Thread) {
    th.SubAnnounced? || th.SubGreeting? || th.SubFinishing? || th.ClsAnnounced? || th.FlAnnounced?
  }

  predicate WaitsLock(th: Thread) {
    th.MsgWantRead? || th.OcWantRead? || th.SubWantWrite? || th.ClsWantWrite? || th.FlWantWrite?
  }

  predicate IsMsg(th: Thread) {
    th.MsgWantRead? || th.MsgSending?
  }

  /** Has an entry in the singleflight table. */
  predicate IsFlight(th: Thread) {
    th.FlWantConn? || th.FlHasConn? || th.FlWantWrite? || th.FlAnnounced? || th.FlLeaving?
  }

  /** A `subscribe` of some type URL is outstanding: it has not run its course yet. */
  predicate IsSubscribing(th: Thread) {
    th.GoStart? || th.FlWantConn? || th.FlHasConn? || th.FlWantWrite? || th.FlAnnounced?
  }

  predicate IsUnsub(th: Thread) {
    th.UnWantConn? || th.UnHasConn?
  }

  predicate IsClosing(th: Thread) {
    th.ClsWantWrite? || th.ClsAnnounced? || th.ClsRemoved?
  }

  /** What sits in a channel: a retained message sent by Subscribe, or an event
      sent by dispatch. `at` and `idx` are positions in the log. */
  datatype Item =
    | Greeting(e: Event, u: string, at: nat)
    | Delivery(e: Event, idx: nat)

  function EventsOf(items: seq<Item>): seq<Event> {
    seq(|items|, i requires 0 <= i < |items| => items[i].e)
  }

  /** `enq` and `taken` are histories; `done` is the context of the stream. */
  datatype Channel = Channel(queue: seq<Item>, closed: bool, live: bool, done: bool, enq: seq<Item>, taken: seq<Item>)

  datatype Attempt = Attempt(c: Chan, ok: bool)

  /** What happened, in order: events handled (with the receiver list found and the
      sends attempted) and cleanups of type URLs. */
  datatype Entry =
    | Handled(e: Event, flagged: bool, snapshot: seq<Chan>, attempts: seq<Attempt>)
    | Cleaned(keys: set<string>)

  /** A Subscribe that appended its channel when the log had `at` entries. */
  datatype Join = Join(c: Chan, u: string, at: nat, cached: Option<Event>)

  datatype Crash = SendOnClosed | CloseOfClosed | NilConn

  /** Locks and the singleflight table are not stored: who holds connLock, who has
      announced itself as the writer of l, who reads under l and which flights are
      running follows from the program points of `threads`. */
  datatype State = State(
    threads: map<Tid, Thread>,
    chans: map<Chan, Channel>,
    // the broker's maps
    receivers: map<string, seq<Chan>>,
    topics: set<string>,
    retained: map<string, Event>,
    // b.conn is set; the network; the server's subscriptions
    linked: bool,
    up: bool,
    session: set<string>,
    crash: Option<Crash>,
    // histories: `synced` holds once a HandleOnConnect that ran within the current
    // connection has renewed every topic; `failed` are URLs whose last attempt failed
    losses: nat,
    synced: bool,
    log: seq<Entry>,
    joins: seq<Join>,
    removed: set<Chan>,
    failed: set<string>)

  datatype Step =
    // the environment
    | Arrive(e: Event, flagged: bool, t: Tid)
    | Request(c: Chan, u: string, t: Tid)
    | ContextDone(c: Chan, t: Tid)
    | Take(c: Chan)
    | StopConsumer(c: Chan)
    | ConnectionLost
    | ConnectionUp(t: Tid)
    | PublishRequest(t: Tid)
    // locks
    | LockConn(t: Tid)
    | Announce(t: Tid)
    // handleMessage
    | MsgLock(t: Tid)
    | MsgSend(t: Tid)
    | MsgDrop(t: Tid)
    | MsgEnd(t: Tid)
    // Subscribe
    | SubAppend(t: Tid)
    | SubGreet(t: Tid)
    | SubFinish(t: Tid)
    // the closing goroutine
    | ClsRemove(t: Tid, g: Tid)
    | ClsClose(t: Tid)
    // subscribe: `ok` if the client reports success, `acked` if the server now holds the subscription
    | FlStart(t: Tid)
    | FlCall(t: Tid, ok: bool, acked: bool)
    | FlStore(t: Tid)
    | FlLeave(t: Tid)
    // the unsubscribe goroutine; `gone` is what the server dropped
    | UnCall(t: Tid, gone: set<string>)
    // HandleOnConnect
    | OcLock(t: Tid)
    | OcSub(t: Tid, u: string, ok: bool, acked: bool)
    | OcEnd(t: Tid)
    // Publish
    | PubCall(t: Tid)

  predicate Environment(st: Step) {
    st.Arrive? || st.Request? || st.ContextDone? || st.StopConsumer? ||
    st.ConnectionLost? || st.ConnectionUp? || st.PublishRequest?
  }

  const INIT := State(map[], map[], map[], {}, map[], false, false, {}, None, 0, false, [], [], {}, {})

  /** make(chan, 100): a channel nobody has used yet. */
  const NEW_CHANNEL := Channel([], false, true, false, [], [])

  function Ch(s: State, c: Chan): Channel {
    if c in s.chans then s.chans[c] else NEW_CHANNEL
  }

  function WithCh(s: State, c: Chan, ch: Channel): State {
    s.(chans := s.chans[c := ch])
  }

  // ----- locks -----

  ghost predicate ConnFree(s: State) {
    forall t :: t in s.threads ==> !HoldsConn(s.threads[t])
  }

  /** No writer has announced itself, so a reader may enter. */
  ghost predicate NoWriter(s: State) {
    forall t :: t in s.threads ==> !Writes(s.threads[t])
  }

  ghost predicate NoReader(s: State) {
    forall t :: t in s.threads ==> !Reads(s.threads[t])
  }

  ghost predicate NoMessage(s: State) {
    forall t :: t in s.threads ==> !IsMsg(s.threads[t])
  }

  /** single.Do finds a call for this topic in progress. */
  ghost predicate InFlight(s: State, topic: string) {
    exists t :: t in s.threads && IsFlight(s.threads[t]) && MakeTopic(s.threads[t].u) == topic
  }

  function List(s: State, u: string): seq<Chan> {
    ListOf(s.receivers, u)
  }

  function Key(e: Event): string {
    DispatchKey(e.typeUrl)
  }

  /** The receiver that the dispatch of thread `t` tries next. */
  predicate AtReceiver(s: State, t: Tid) {
    && t in s.threads && s.threads[t].MsgSending?
    && s.threads[t].i < |List(s, Key(s.threads[t].e))|
  }

  function Receiver(s: State, t: Tid): Chan
    requires AtReceiver(s, t)
  {
    List(s, Key(s.threads[t].e))[s.threads[t].i]
  }

  function TopicsFor(th: Thread): set<string>
    requires IsUnsub(th)
  {
    MakeTopics(th.keys)
  }

  predicate WantsWrite(th: Thread) {
    th.SubWantWrite? || th.ClsWantWrite? || th.FlWantWrite?
  }

  /** Which steps a state allows. After a panic there are none. */
  ghost predicate Enabled(s: State, st: Step) {
    s.crash == None &&
    match st
    case Arrive(_, _, t) => t !in s.threads && NoMessage(s)
    case Request(_, _, t) => t !in s.threads
    case ContextDone(c, t) => t !in s.threads && !Ch(s, c).done
    case Take(c) => Ch(s, c).live && Ch(s, c).queue != []
    case StopConsumer(c) => Ch(s, c).live
    case ConnectionLost => s.up
    case ConnectionUp(t) => t !in s.threads && !s.up
    case PublishRequest(t) => t !in s.threads
    case LockConn(t) => t in s.threads && WaitsConn(s.threads[t]) && ConnFree(s)
    case Announce(t) => t in s.threads && WantsWrite(s.threads[t]) && NoWriter(s)
    case MsgLock(t) => t in s.threads && s.threads[t].MsgWantRead? && NoWriter(s)
    case MsgSend(t) => AtReceiver(s, t) && var ch := Ch(s, Receiver(s, t)); ch.closed || |ch.queue| < CAPACITY
    case MsgDrop(t) => AtReceiver(s, t) && var ch := Ch(s, Receiver(s, t)); !ch.closed && |ch.queue| >= CAPACITY
    case MsgEnd(t) => t in s.threads && s.threads[t].MsgSending? && s.threads[t].i >= |List(s, Key(s.threads[t].e))|
    case SubAppend(t) => t in s.threads && s.threads[t].SubAnnounced? && NoReader(s)
    case SubGreet(t) =>
      t in s.threads && s.threads[t].SubGreeting? &&
      var ch := Ch(s, s.threads[t].c); ch.closed || |ch.queue| < CAPACITY
    case SubFinish(t) => t in s.threads && s.threads[t].SubFinishing?
    case ClsRemove(t, g) => t in s.threads && s.threads[t].ClsAnnounced? && NoReader(s) && g !in s.threads
    case ClsClose(t) => t in s.threads && s.threads[t].ClsRemoved?
    case FlStart(t) => t in s.threads && s.threads[t].GoStart?
    case FlCall(t, ok, acked) => t in s.threads && s.threads[t].FlHasConn? && (ok || acked ==> s.up)
    case FlStore(t) => t in s.threads && s.threads[t].FlAnnounced? && NoReader(s)
    case FlLeave(t) => t in s.threads && s.threads[t].FlLeaving?
    case UnCall(t, gone) => t in s.threads && s.threads[t].UnHasConn? && gone <= TopicsFor(s.threads[t])
    case OcLock(t) => t in s.threads && s.threads[t].OcWantRead? && NoWriter(s)
    case OcSub(t, u, ok, acked) =>
      t in s.threads && s.threads[t].OcResub? && u in s.threads[t].todo && (ok || acked ==> s.up)
    case OcEnd(t) => t in s.threads && s.threads[t].OcResub? && s.threads[t].todo == {}
    case PubCall(t) => t in s.threads && s.threads[t].PubHasConn?
  }

  // ----- effects -----

  function Become(s: State, t: Tid, th: Thread): State {
    s.(threads := s.threads[t := th])
  }

  function End(s: State, t: Tid): State {
    s.(threads := s.threads - {t})
  }

  function Panic(s: State, k: Crash): State {
    s.(crash := Some(k))
  }

  function Enqueue(s: State, c: Chan, x: Item): State {
    var ch := Ch(s, c);
    WithCh(s, c, ch.(queue := ch.queue + [x], enq := ch.enq + [x]))
  }

  /** Adds an attempt to the entry of the event being dispatched. */
  function Record(log: seq<Entry>, a: Attempt): seq<Entry> {
    if log == [] || !log[|log| - 1].Handled? then log
    else
      var n := |log| - 1;
      log[..n] + [log[n].(attempts := log[n].attempts + [a])]
  }

  /** The point reached once connLock is taken. */
  function Locked(th: Thread, losses: nat): Thread
    requires WaitsConn(th)
  {
    match th
    case FlWantConn(u) => FlHasConn(u)
    case UnWantConn(keys) => UnHasConn(keys)
    case OcWantConn => OcWantRead(losses)
    case PubWantConn => PubHasConn
  }

  /** HandleOnConnect sets b.conn as soon as it has the lock. */
  function DoLockConn(s: State, t: Tid): State
    requires t in s.threads && WaitsConn(s.threads[t])
  {
    Become(s.(linked := s.linked || s.threads[t].OcWantConn?), t, Locked(s.threads[t], s.losses))
  }

  function Announced(th: Thread): Thread
    requires WantsWrite(th)
  {
    match th
    case SubWantWrite(c, u) => SubAnnounced(c, u)
    case ClsWantWrite(c) => ClsAnnounced(c)
    case FlWantWrite(u) => FlAnnounced(u)
  }

  function DoMsgLock(s: State, t: Tid): State
    requires t in s.threads && s.threads[t].MsgWantRead?
  {
    var th := s.threads[t];
    var e := Stamp(th.e, th.flagged);
    Become(s.(retained := if th.flagged then s.retained[Key(e) := e] else s.retained,
              log := s.log + [Handled(e, th.flagged, List(s, Key(e)), [])]), t, MsgSending(e, 0))
  }

  function DoMsgSend(s: State, t: Tid): State
    requires AtReceiver(s, t)
  {
    var th, c := s.threads[t], Receiver(s, t);
    if Ch(s, c).closed then Panic(s, SendOnClosed)
    else
      var s1 := Enqueue(s, c, Delivery(th.e, if s.log == [] then 0 else |s.log| - 1));
      Become(s1.(log := Record(s.log, Attempt(c, true))), t, th.(i := th.i + 1))
  }

  function DoMsgDrop(s: State, t: Tid): State
    requires AtReceiver(s, t)
  {
    var th := s.threads[t];
    Become(s.(log := Record(s.log, Attempt(Receiver(s, t), false))), t, th.(i := th.i + 1))
  }

  function Cached(s: State, u: string): Option<Event> {
    if u in s.retained then Some(s.retained[u]) else None
  }

  function DoSubAppend(s: State, t: Tid): State
    requires t in s.threads && s.threads[t].SubAnnounced?
  {
    var c, u := s.threads[t].c, s.threads[t].u;
    var s1 := s.(receivers := AppendTo(s.receivers, u, c), joins := s.joins + [Join(c, u, |s.log|, Cached(s, u))]);
    Become(s1, t, if u in s.retained then SubGreeting(c, u, s.retained[u]) else SubFinishing(c, u))
  }

  function DoSubGreet(s: State, t: Tid): State
    requires t in s.threads && s.threads[t].SubGreeting?
  {
    var th := s.threads[t];
    if Ch(s, th.c).closed then Panic(s, SendOnClosed)
    else Become(Enqueue(s, th.c, Greeting(th.e, th.u, |s.log|)), t, SubFinishing(th.c, th.u))
  }

  /** The goroutine that Subscribe starts takes over its thread id. */
  function DoSubFinish(s: State, t: Tid): State
    requires t in s.threads && s.threads[t].SubFinishing?
  {
    var u := s.threads[t].u;
    s.(threads := if u in s.topics then s.threads - {t} else s.threads[t := GoStart(u)])
  }

  /** UnsubscribeAll, from Lock to Unlock. */
  function DoClsRemove(s: State, t: Tid, g: Tid): State
    requires t in s.threads && s.threads[t].ClsAnnounced?
  {
    var c := s.threads[t].c;
    var keys := CleanupKeys(s.receivers, c);
    var threads := s.threads[t := ClsRemoved(c)];
    s.(receivers := RemoveEverywhere(s.receivers, c),
       removed := s.removed + {c},
       topics := s.topics - keys,
       retained := s.retained - keys,
       log := if keys == {} then s.log else s.log + [Cleaned(keys)],
       threads := if keys == {} then threads else threads[g := UnWantConn(keys)])
  }

  function DoClsClose(s: State, t: Tid): State
    requires t in s.threads && s.threads[t].ClsRemoved?
  {
    var c := s.threads[t].c;
    if Ch(s, c).closed then Panic(s, CloseOfClosed)
    else End(WithCh(s, c, Ch(s, c).(closed := true)), t)
  }

  /** A second caller of the same flight only waits for it and does nothing after. */
  ghost function DoFlStart(s: State, t: Tid): State
    requires t in s.threads && s.threads[t].GoStart?
  {
    var u := s.threads[t].u;
    s.(threads := if InFlight(s, MakeTopic(u)) then s.threads - {t} else s.threads[t := FlWantConn(u)])
  }

  function DoFlCall(s: State, t: Tid, ok: bool, acked: bool): State
    requires t in s.threads && s.threads[t].FlHasConn?
  {
    var u := s.threads[t].u;
    if !s.linked then Panic(s, NilConn)
    else
      s.(session := if acked then s.session + {MakeTopic(u)} else s.session,
         failed := if ok then s.failed else s.failed + {u},
         threads := s.threads[t := if ok then FlWantWrite(u) else FlLeaving(u)])
  }

  function DoFlStore(s: State, t: Tid): State
    requires t in s.threads && s.threads[t].FlAnnounced?
  {
    var u := s.threads[t].u;
    Become(s.(topics := s.topics + {u}, failed := s.failed - {u}), t, FlLeaving(u))
  }

  function DoUnCall(s: State, t: Tid, gone: set<string>): State {
    if !s.linked then Panic(s, NilConn)
    else End(s.(session := s.session - gone), t)
  }

  function DoOcLock(s: State, t: Tid): State
    requires t in s.threads && s.threads[t].OcWantRead?
  {
    Become(s, t, OcResub(s.topics, true, s.threads[t].began))
  }

  function DoOcSub(s: State, t: Tid, u: string, ok: bool, acked: bool): State
    requires t in s.threads && s.threads[t].OcResub?
  {
    var th := s.threads[t];
    Become(s.(session := if acked then s.session + {MakeTopic(u)} else s.session), t,
           OcResub(th.todo - {u}, th.clean && ok, th.began))
  }

  function DoOcEnd(s: State, t: Tid): State
    requires t in s.threads && s.threads[t].OcResub?
  {
    var th := s.threads[t];
    End(s.(synced := s.synced || (th.clean && th.began == s.losses)), t)
  }

  function DoTake(s: State, c: Chan): State
    requires Ch(s, c).queue != []
  {
    var ch := Ch(s, c);
    WithCh(s, c, ch.(queue := ch.queue[1..], taken := ch.taken + [ch.queue[0]]))
  }

  /** The state after a step; a step that is not enabled changes nothing. */
  ghost function Next(s: State, st: Step): State {
    if !Enabled(s, st) then s
    else
      match st
      case Arrive(e, flagged, t) => Become(s, t, MsgWantRead(e, flagged))
      case Request(c, u, t) => Become(s, t, SubWantWrite(c, u))
      case ContextDone(c, t) => Become(WithCh(s, c, Ch(s, c).(done := true)), t, ClsWantWrite(c))
      case Take(c) => DoTake(s, c)
      case StopConsumer(c) => WithCh(s, c, Ch(s, c).(live := false))
      case ConnectionLost => s.(up := false, session := {}, losses := s.losses + 1, synced := false)
      case ConnectionUp(t) => Become(s.(up := true), t, OcWantConn)
      case PublishRequest(t) => Become(s, t, PubWantConn)
      case LockConn(t) => DoLockConn(s, t)
      case Announce(t) => Become(s, t, Announced(s.threads[t]))
      case MsgLock(t) => DoMsgLock(s, t)
      case MsgSend(t) => DoMsgSend(s, t)
      case MsgDrop(t) => DoMsgDrop(s, t)
      case MsgEnd(t) => End(s, t)
      case SubAppend(t) => DoSubAppend(s, t)
      case SubGreet(t) => DoSubGreet(s, t)
      case SubFinish(t) => DoSubFinish(s, t)
      case ClsRemove(t, g) => DoClsRemove(s, t, g)
      case ClsClose(t) => DoClsClose(s, t)
      case FlStart(t) => DoFlStart(s, t)
      case FlCall(t, ok, acked) => DoFlCall(s, t, ok, acked)
      case FlStore(t) => DoFlStore(s, t)
      case FlLeave(t) => End(s, t)
      case UnCall(t, gone) => DoUnCall(s, t, gone)
      case OcLock(t) => DoOcLock(s, t)
      case OcSub(t, u, ok, acked) => DoOcSub(s, t, u, ok, acked)
      case OcEnd(t) => DoOcEnd(s, t)
      case PubCall(t) => End(s, t)
  }

  // ----- what a send or a close does to the channels -----

  ghost predicate SameFlags(s: State, n: State) {
    forall c :: Ch(n, c).closed == Ch(s, c).closed && Ch(n, c).done == Ch(s, c).done && Ch(n, c).live == Ch(s, c).live
  }

  lemma {:induction false} SendFlags(s: State, t: Tid)
    requires AtReceiver(s, t)
    ensures SameFlags(s, DoMsgSend(s, t))
    ensures DoMsgSend(s, t).crash == if Ch(s, Receiver(s, t)).closed then Some(SendOnClosed) else s.crash
  {
  }

  lemma {:induction false} GreetFlags(s: State, t: Tid)
    requires t in s.threads && s.threads[t].SubGreeting?
    ensures SameFlags(s, DoSubGreet(s, t))
    ensures DoSubGreet(s, t).crash == if Ch(s, s.threads[t].c).closed then Some(SendOnClosed) else s.crash
    ensures var th := s.threads[t];
            DoSubGreet(s, t).threads ==
            if Ch(s, th.c).closed then s.threads else s.threads[t := SubFinishing(th.c, th.u)]
  {
  }

  lemma {:induction false} CloseFlags(s: State, t: Tid)
    requires t in s.threads && s.threads[t].ClsRemoved?
    ensures DoClsClose(s, t).crash == if Ch(s, s.threads[t].c).closed then Some(CloseOfClosed) else s.crash
    ensures !Ch(s, s.threads[t].c).closed ==> DoClsClose(s, t).threads == s.threads - {t}
    ensures forall c :: Ch(DoClsClose(s, t), c) == Ch(s, c).(closed := Ch(s, c).closed || c == s.threads[t].c)
  {
    var d, n := s.threads[t].c, DoClsClose(s, t);
    assert n.chans == if Ch(s, d).closed then s.chans else s.chans[d := Ch(s, d).(closed := true)];
  }

  // ----- what a step leaves alone -----

  /** The goroutines a step moves, starts or ends. */
  function Actors(st: Step): set<Tid> {
    match st
    case Take(_) => {}
    case StopConsumer(_) => {}
    case ConnectionLost => {}
    case ClsRemove(t, g) => {t, g}
    case _ => {st.t}
  }

  ghost predicate Frame(s: State, st: Step, n: State) {
    && (forall q :: q !in Actors(st) && q in s.threads ==> q in n.threads && n.threads[q] == s.threads[q])
    && (forall q :: q !in Actors(st) && q in n.threads ==> q in s.threads)
    && (st.MsgLock? || st.MsgSend? || st.MsgDrop? || st.ClsRemove? || n.log == s.log)
    && (st.SubAppend? || st.ClsRemove? || n.receivers == s.receivers)
    && (st.ClsRemove? || st.FlStore? || n.topics == s.topics)
    && (st.MsgLock? || st.ClsRemove? || n.retained == s.retained)
    && (st.SubAppend? || n.joins == s.joins)
    && (st.ClsRemove? || n.removed == s.removed)
    && (st.FlCall? || st.FlStore? || n.failed == s.failed)
    && (st.ConnectionLost? || st.FlCall? || st.UnCall? || st.OcSub? || n.session == s.session)
    && (st.ConnectionLost? || st.OcEnd? || n.synced == s.synced)
    && (st.ConnectionLost? || n.losses == s.losses)
    && (st.LockConn? || n.linked == s.linked)
    && (st.ContextDone? || st.Take? || st.StopConsumer? || st.MsgSend? || st.SubGreet? || st.ClsClose? ||
        n.chans == s.chans)
  }

  lemma {:induction false} FrameEnv(s: State, st: Step)
    requires Enabled(s, st)
    requires st.Arrive? || st.Request? || st.ContextDone? || st.Take? || st.StopConsumer? ||
              st.ConnectionLost? || st.ConnectionUp? || st.PublishRequest?
    ensures Frame(s, st, Next(s, st))
  {
  }

  lemma {:induction false} FrameMsg(s: State, st: Step)
    requires Enabled(s, st)
    requires st.MsgLock? || st.MsgSend? || st.MsgDrop? || st.MsgEnd?
    ensures Frame(s, st, Next(s, st))
  {
  }

  lemma {:induction false} FrameSub(s: State, st: Step)
    requires Enabled(s, st)
    requires st.SubAppend? || st.SubGreet? || st.SubFinish?
    ensures Frame(s, st, Next(s, st))
  {
  }

  lemma {:induction false} FrameCls(s: State, st: Step)
    requires Enabled(s, st)
    requires st.ClsRemove? || st.ClsClose?
    ensures Frame(s, st, Next(s, st))
  {
  }

  lemma {:induction false} FrameFl(s: State, st: Step)
    requires Enabled(s, st)
    requires st.LockConn? || st.Announce? || st.FlStart? || st.FlCall? || st.FlStore? || st.FlLeave?
    ensures Frame(s, st, Next(s, st))
  {
  }

  lemma {:induction false} FrameRest(s: State, st: Step)
    requires Enabled(s, st)
    requires st.UnCall? || st.OcLock? || st.OcSub? || st.OcEnd? || st.PubCall?
    ensures Frame(s, st, Next(s, st))
  {
  }

  lemma {:induction false} FrameStep(s: State, st: Step)
    requires Enabled(s, st)
    ensures Frame(s, st, Next(s, st))
  {
    if st.Arrive? || st.Request? || st.ContextDone? || st.Take? || st.StopConsumer? || st.ConnectionLost? ||
       st.ConnectionUp? || st.PublishRequest? {
      FrameEnv(s, st);
    } else if st.MsgLock? || st.MsgSend? || st.MsgDrop? || st.MsgEnd? {
      FrameMsg(s, st);
    } else if st.SubAppend? || st.SubGreet? || st.SubFinish? {
      FrameSub(s, st);
    } else if st.ClsRemove? || st.ClsClose? {
      FrameCls(s, st);
    } else if st.LockConn? || st.Announce? || st.FlStart? || st.FlCall? || st.FlStore? || st.FlLeave? {
      FrameFl(s, st);
    } else {
      FrameRest(s, st);
    }
  }

  // ----- where a goroutine comes from -----

  /** The points that follow a point. */
  predicate Leads(a: Thread, b: Thread, losses: nat) {
    match a
    case MsgWantRead(e, flagged) => b == MsgSending(Stamp(e, flagged), 0)
    case MsgSending(e, i) => b == MsgSending(e, i + 1)
    case SubWantWrite(c, u) => b == SubAnnounced(c, u)
    case SubAnnounced(c, u) => b == SubFinishing(c, u) || (b.SubGreeting? && b.c == c && b.u == u)
    case SubGreeting(c, u, _) => b == SubFinishing(c, u)
    case SubFinishing(_, u) => b == GoStart(u)
    case ClsWantWrite(c) => b == ClsAnnounced(c)
    case ClsAnnounced(c) => b == ClsRemoved(c)
    case ClsRemoved(_) => false
    case GoStart(u) => b == FlWantConn(u)
    case FlWantConn(u) => b == FlHasConn(u)
    case FlHasConn(u) => b == FlWantWrite(u) || b == FlLeaving(u)
    case FlWantWrite(u) => b == FlAnnounced(u)
    case FlAnnounced(u) => b == FlLeaving(u)
    case FlLeaving(_) => false
    case UnWantConn(keys) => b == UnHasConn(keys)
    case UnHasConn(_) => false
    case OcWantConn => b == OcWantRead(losses)
    case OcWantRead(began) => b.OcResub? && b.began == began
    case OcResub(_, _, began) => b.OcResub? && b.began == began
    case PubWantConn => b == PubHasConn
    case PubHasConn => false
  }

  /** The step is one that a goroutine takes at point `a`. */
  predicate Moves(st: Step, a: Thread) {
    match a
    case MsgWantRead(_, _) => st.MsgLock?
    case MsgSending(_, _) => st.MsgSend? || st.MsgDrop? || st.MsgEnd?
    case SubWantWrite(_, _) => st.Announce?
    case SubAnnounced(_, _) => st.SubAppend?
    case SubGreeting(_, _, _) => st.SubGreet?
    case SubFinishing(_, _) => st.SubFinish?
    case ClsWantWrite(_) => st.Announce?
    case ClsAnnounced(_) => st.ClsRemove?
    case ClsRemoved(_) => st.ClsClose?
    case GoStart(_) => st.FlStart?
    case FlWantConn(_) => st.LockConn?
    case FlHasConn(_) => st.FlCall?
    case FlWantWrite(_) => st.Announce?
    case FlAnnounced(_) => st.FlStore?
    case FlLeaving(_) => st.FlLeave?
    case UnWantConn(_) => st.LockConn?
    case UnHasConn(_) => st.UnCall?
    case OcWantConn => st.LockConn?
    case OcWantRead(_) => st.OcLock?
    case OcResub(_, _, _) => st.OcSub? || st.OcEnd?
    case PubWantConn => st.LockConn?
    case PubHasConn => st.PubCall?
  }

  /** The step starts a goroutine at point `b`. */
  predicate Starts(s: State, st: Step, b: Thread) {
    match st
    case Arrive(e, flagged, _) => b == MsgWantRead(e, flagged)
    case Request(c, u, _) => b == SubWantWrite(c, u)
    case ContextDone(c, _) => b == ClsWantWrite(c)
    case ConnectionUp(_) => b == OcWantConn
    case PublishRequest(_) => b == PubWantConn
    case ClsRemove(t, _) =>
      t in s.threads && s.threads[t].ClsAnnounced? && CleanupKeys(s.receivers, s.threads[t].c) != {} &&
      b == UnWantConn(CleanupKeys(s.receivers, s.threads[t].c))
    case _ => false
  }

  ghost predicate Origin(s: State, st: Step, n: State, q: Tid)
    requires q in n.threads
  {
    || (q in s.threads && n.threads[q] == s.threads[q])
    || (q in s.threads && q in Actors(st) && Moves(st, s.threads[q]) && Leads(s.threads[q], n.threads[q], s.losses))
    || (q !in s.threads && q in Actors(st) && Starts(s, st, n.threads[q]))
  }

  lemma {:induction false} OriginEnv(s: State, st: Step, q: Tid)
    requires Enabled(s, st) && q in Actors(st) && q in Next(s, st).threads
    requires st.Arrive? || st.Request? || st.ContextDone? || st.ConnectionUp? || st.PublishRequest?
    ensures Origin(s, st, Next(s, st), q)
  {
  }

  lemma {:induction false} OriginMsg(s: State, st: Step, q: Tid)
    requires Enabled(s, st) && q in Actors(st) && q in Next(s, st).threads
    requires st.MsgLock? || st.MsgSend? || st.MsgDrop? || st.MsgEnd?
    ensures Origin(s, st, Next(s, st), q)
  {
  }

  lemma {:induction false} OriginSub(s: State, st: Step, q: Tid)
    requires Enabled(s, st) && q in Actors(st) && q in Next(s, st).threads
    requires st.SubAppend? || st.SubGreet? || st.SubFinish?
    ensures Origin(s, st, Next(s, st), q)
  {
  }

  lemma {:induction false} OriginCls(s: State, st: Step, q: Tid)
    requires Enabled(s, st) && q in Actors(st) && q in Next(s, st).threads
    requires st.ClsRemove? || st.ClsClose?
    ensures Origin(s, st, Next(s, st), q)
  {
  }

  lemma {:induction false} OriginLocks(s: State, st: Step, q: Tid)
    requires Enabled(s, st) && q in Actors(st) && q in Next(s, st).threads
    requires st.LockConn? || st.Announce?
    ensures Origin(s, st, Next(s, st), q)
  {
  }

  lemma {:induction false} OriginFl(s: State, st: Step, q: Tid)
    requires Enabled(s, st) && q in Actors(st) && q in Next(s, st).threads
    requires st.FlStart? || st.FlCall? || st.FlStore? || st.FlLeave?
    ensures Origin(s, st, Next(s, st), q)
  {
  }

  lemma {:induction false} OriginRest(s: State, st: Step, q: Tid)
    requires Enabled(s, st) && q in Actors(st) && q in Next(s, st).threads
    requires st.UnCall? || st.OcLock? || st.OcSub? || st.OcEnd? || st.PubCall?
    ensures Origin(s, st, Next(s, st), q)
  {
  }

  /** Every goroutine of the next state stands where it stood, has moved on by one
      point, or has just started. */
  lemma {:induction false} OriginStep(s: State, st: Step, q: Tid)
    requires Enabled(s, st) && q in Next(s, st).threads
    ensures Origin(s, st, Next(s, st), q)
  {
    if q !in Actors(st) {
      FrameStep(s, st);
    } else if st.Arrive? || st.Request? || st.ContextDone? || st.ConnectionUp? || st.PublishRequest? {
      OriginEnv(s, st, q);
    } else if st.MsgLock? || st.MsgSend? || st.MsgDrop? || st.MsgEnd? {
      OriginMsg(s, st, q);
    } else if st.SubAppend? || st.SubGreet? || st.SubFinish? {
      OriginSub(s, st, q);
    } else if st.ClsRemove? || st.ClsClose? {
      OriginCls(s, st, q);
    } else if st.LockConn? || st.Announce? {
      OriginLocks(s, st, q);
    } else if st.FlStart? || st.FlCall? || st.FlStore? || st.FlLeave? {
      OriginFl(s, st, q);
    } else {
      OriginRest(s, st, q);
    }
  }

  lemma {:induction false} ActorMoves(s: State, st: Step, q: Tid)
    requires Enabled(s, st) && q in s.threads && q in Actors(st)
    ensures Moves(st, s.threads[q])
  {
  }

  /** A goroutine that is not at the point of the step stays where it is. */
  lemma {:induction false} StaysPut(s: State, st: Step, q: Tid)
    requires Enabled(s, st) && q in s.threads && !Moves(st, s.threads[q])
    ensures q in Next(s, st).threads && Next(s, st).threads[q] == s.threads[q]
  {
    if q in Actors(st) { ActorMoves(s, st, q); }
    FrameStep(s, st);
  }

  // ----- runs -----

  ghost predicate Run(s: State, run: seq<Step>)
    decreases |run|
  {
    run != [] ==> Enabled(s, run[0]) && Run(Next(s, run[0]), run[1..])
  }

  ghost function After(s: State, run: seq<Step>): State
    decreases |run|
  {
    if run == [] then s else After(Next(s, run[0]), run[1..])
  }

  /** The environment does nothing. */
  predicate Unprompted(run: seq<Step>) {
    forall i :: 0 <= i < |run| ==> !Environment(run[i])
  }

  /** The client reports success only for what the server has granted. */
  predicate TruthfulStep(st: Step) {
    (st.FlCall? || st.OcSub?) && st.ok ==> st.acked
  }

  predicate Truthful(run: seq<Step>) {
    forall i :: 0 <= i < |run| ==> TruthfulStep(run[i])
  }

  /** Every step of the run is taken in a state that satisfies the guard. */
  ghost predicate Along(guard: (State, Step) -> bool, s: State, run: seq<Step>)
    decreases |run|
  {
    run != [] ==> guard(s, run[0]) && Along(guard, Next(s, run[0]), run[1..])
  }

  lemma {:induction false} RunConcat(s: State, a: seq<Step>, b: seq<Step>)
    requires Run(s, a) && Run(After(s, a), b)
    ensures Run(s, a + b) && After(s, a + b) == After(After(s, a), b)
    decreases |a|
  {
    if a == [] {
      assert a + b == b;
    } else {
      assert (a + b)[1..] == a[1..] + b;
      RunConcat(Next(s, a[0]), a[1..], b);
    }
  }

  lemma {:induction false} RunSplit(s: State, a: seq<Step>, b: seq<Step>)
    requires Run(s, a + b)
    ensures Run(s, a) && Run(After(s, a), b) && After(s, a + b) == After(After(s, a), b)
    decreases |a|
  {
    if a == [] {
      assert a + b == b;
    } else {
      assert (a + b)[0] == a[0] && (a + b)[1..] == a[1..] + b;
      RunSplit(Next(s, a[0]), a[1..], b);
    }
  }

  lemma {:induction false} RunCons(s: State, st: Step, rest: seq<Step>)
    requires Enabled(s, st) && Run(Next(s, st), rest)
    ensures Run(s, [st] + rest) && After(s, [st] + rest) == After(Next(s, st), rest)
  {
    assert ([st] + rest)[0] == st && ([st] + rest)[1..] == rest;
  }

  lemma {:induction false} RunOne(s: State, a: Step)
    requires Enabled(s, a)
    ensures Run(s, [a]) && After(s, [a]) == Next(s, a)
  {
    RunCons(s, a, []);
    assert [a] + [] == [a];
  }
}
