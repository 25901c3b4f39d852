/** From a subscriber channel to script callbacks (internal/automation/core.go). The
    event loop is a FIFO queue of jobs that another goroutine works off; what that
    goroutine and the other registrations do meanwhile is a parameter. */
module Automation {
  import opened Events
  import opened ReceiverLists
  import BrokerHeap
  import opened BrokerMachine
  import opened BrokerDispatch
  import opened BrokerSafety

  datatype Value = Null | Object(json: string)

  /** A closure given to RunOnLoop; `callback` identifies the registration. */
  datatype Job = Job(callback: nat, args: seq<string>)

  /** An invocation of a script function. */
  datatype Call = Call(callback: nat, self: Value, values: seq<Value>)

  function CallOf(job: Job): Call {
    Call(job.callback, Null, seq(|job.args|, i requires 0 <= i < |job.args| => Object(job.args[i])))
  }

  function Planned(jobs: seq<Job>): seq<Call> {
    seq(|jobs|, i requires 0 <= i < |jobs| => CallOf(jobs[i]))
  }

  class EventLoop {
    var queue: seq<Job>
    var calls: seq<Call>

    constructor ()
      ensures queue == [] && calls == []
    {
      queue, calls := [], [];
    }

    /** The calls made so far and those that are bound to follow, in order. */
    ghost function Outlook(): seq<Call>
      reads this
    {
      calls + Planned(queue)
    }

    method RunOnLoop(job: Job)
      modifies this
      ensures queue == old(queue) + [job] && calls == old(calls)
      ensures Outlook() == old(Outlook()) + [CallOf(job)]
    {
      queue := queue + [job];
    }

    /** The argument slice the closure fills by index. */
    static method MakeArgs(args: seq<string>) returns (a: array<Value>)
      ensures fresh(a) && a.Length == |args|
      ensures forall i :: 0 <= i < |args| ==> a[i] == Object(args[i])
    {
      a := new Value[|args|](_ => Null);
      var idx := 0;
      while idx < |args|
        invariant 0 <= idx <= |args|
        invariant forall i :: 0 <= i < idx ==> a[i] == Object(args[i])
      {
        a[idx] := Object(args[idx]);
        idx := idx + 1;
      }
    }

    /** The loop runs the oldest job. */
    method Turn()
      requires queue != []
      modifies this
      ensures queue == old(queue)[1..] && |calls| == |old(calls)| + 1 && calls[..|old(calls)|] == old(calls)
      ensures var call, job := calls[|old(calls)|], old(queue)[0];
              && call.callback == job.callback && call.self == Null && |call.values| == |job.args|
              && forall i :: 0 <= i < |job.args| ==> call.values[i] == Object(job.args[i])
      ensures Outlook() == old(Outlook())
    {
      var a := MakeArgs(queue[0].args);
      var call := Call(queue[0].callback, Null, a[..]);
      assert call == CallOf(queue[0]);
      calls, queue := calls + [call], queue[1..];
    }

    /** Other goroutines queue jobs, and the loop takes up to `turns` turns. */
    method Meanwhile(others: seq<Job>, turns: nat)
      modifies this
      ensures Outlook() == old(Outlook()) + Planned(others)
      ensures |calls| == |old(calls)| + if turns <= |old(queue)| + |others| then turns else |old(queue)| + |others|
    {
      assert Planned(queue + others) == Planned(queue) + Planned(others);
      queue := queue + others;
      var left := turns;
      while left > 0 && queue != []
        invariant 0 <= left <= turns && Outlook() == old(Outlook()) + Planned(others)
        invariant |calls| == |old(calls)| + (turns - left)
        invariant |calls| + |queue| == |old(calls)| + |old(queue)| + |others|
      {
        Turn();
        left := left - 1;
      }
    }
  }

  /** The variables `result` and `resultErr` that a wrapped operation returns. */
  datatype Report = Report(result: Option<string>, resultErr: Option<string>)

  function ReportOf(r: Result<string, string>): Report {
    match r
    case Ok(v) => Report(Some(v), None)
    case Err(e) => Report(None, Some(e))
  }

  /** What surrounds one event: whether a client for the long-running service could be
      made, whether op.Wrap got as far as running its function, and what others do. */
  datatype Surroundings = Surroundings(client: bool, registered: bool, others: seq<Job>, turns: nat)

  predicate Launched(wrap: bool, env: Surroundings) {
    wrap && env.client ==> env.registered
  }

  /** wrapOperation. `script` says what a call returns or throws. A wrapped operation
      reports the outcome of the callback exactly when the loop gets to it before the
      function returns, and an empty success otherwise, whatever the callback does later. */
  method WrapOperation(loop: EventLoop, wrap: bool, job: Job, env: Surroundings,
                       script: Call -> Result<string, string>)
    returns (report: Option<Report>)
    modifies loop
    ensures loop.Outlook() ==
            old(loop.Outlook()) + (if !wrap || !env.client || env.registered then [CallOf(job)] else []) +
            Planned(env.others)
    ensures report.Some? <==> wrap && env.client && env.registered
    ensures report.Some? && env.turns <= |old(loop.queue)| ==> report.value == Report(None, None)
    ensures report.Some? && env.turns > |old(loop.queue)| ==>
              match script(CallOf(job))
              case Ok(v) => report.value.result == Some(v) && report.value.resultErr == None
              case Err(e) => report.value.result == None && report.value.resultErr == Some(e)
  {
    ghost var before := loop.Outlook();
    if !wrap || !env.client {
      loop.RunOnLoop(job);
      loop.Meanwhile(env.others, env.turns);
      return None;
    }
    if !env.registered {
      assert before + [] == before;
      loop.Meanwhile(env.others, env.turns);
      return None;
    }
    var ticket := |loop.calls| + |loop.queue|;
    var captured := Report(None, None);
    loop.RunOnLoop(job);
    loop.Meanwhile(env.others, env.turns);
    if ticket < |loop.calls| {
      assert loop.calls[ticket] == loop.Outlook()[ticket] == (before + [CallOf(job)])[ticket];
      captured := ReportOf(script(loop.calls[ticket]));
    }
    report := Some(captured);
  }

  // ----- one `on` registration -----

  /** The calls of one registration. */
  function Mine(calls: seq<Call>, callback: nat): seq<Call> {
    if calls == [] then []
    else
      var n := |calls| - 1;
      Mine(calls[..n], callback) + (if calls[n].callback == callback then [calls[n]] else [])
  }

  lemma {:induction false} MineConcat(a: seq<Call>, b: seq<Call>, callback: nat)
    ensures Mine(a + b, callback) == Mine(a, callback) + Mine(b, callback)
    decreases |b|
  {
    if b == [] {
      assert a + b == a;
    } else {
      var n := |b| - 1;
      assert (a + b)[..|a| + n] == a + b[..n];
      MineConcat(a, b[..n], callback);
    }
  }

  lemma {:induction false} NoneMine(calls: seq<Call>, callback: nat)
    requires forall i :: 0 <= i < |calls| ==> calls[i].callback != callback
    ensures Mine(calls, callback) == []
    decreases |calls|
  {
    if calls != [] {
      NoneMine(calls[..|calls| - 1], callback);
    }
  }

  predicate Forwards(convert: Event -> Option<string>, wrap: bool, e: Event, env: Surroundings) {
    convert(e).Some? && Launched(wrap, env)
  }

  /** Which of the events taken from the channel lead to a callback. */
  function Positions(items: seq<Event>, convert: Event -> Option<string>, wrap: bool, envs: seq<Surroundings>): seq<nat>
    requires |items| == |envs|
  {
    if items == [] then []
    else
      var n := |items| - 1;
      Positions(items[..n], convert, wrap, envs[..n]) + (if Forwards(convert, wrap, items[n], envs[n]) then [n] else [])
  }

  function Callback(callback: nat, o: Option<string>): Call {
    Call(callback, Null, match o case Some(json) => [Object(json)] case None => [])
  }

  function Callbacks(callback: nat, items: seq<Event>, convert: Event -> Option<string>, at: seq<nat>): seq<Call>
    requires forall i :: 0 <= i < |at| ==> at[i] < |items|
  {
    seq(|at|, i requires 0 <= i < |at| => Callback(callback, convert(items[at[i]])))
  }

  /** The events that lead to a callback, in order, each once: exactly those that can be
      converted and whose operation, if they are wrapped in one, starts. */
  lemma {:induction false} PositionsExact(items: seq<Event>, convert: Event -> Option<string>, wrap: bool,
                                         envs: seq<Surroundings>)
    requires |items| == |envs|
    ensures var at := Positions(items, convert, wrap, envs);
            && (forall i :: 0 <= i < |at| ==> at[i] < |items|)
            && (forall i, j :: 0 <= i < j < |at| ==> at[i] < at[j])
            && (forall k :: 0 <= k < |items| ==>
                  (k in at <==> convert(items[k]).Some? && (wrap && envs[k].client ==> envs[k].registered)))
    decreases |items|
  {
    if items != [] {
      var n := |items| - 1;
      PositionsExact(items[..n], convert, wrap, envs[..n]);
      var at, was := Positions(items, convert, wrap, envs), Positions(items[..n], convert, wrap, envs[..n]);
      forall k | 0 <= k < |items|
        ensures k in at <==> convert(items[k]).Some? && (wrap && envs[k].client ==> envs[k].registered)
      {
        if k < n {
          assert items[..n][k] == items[k] && envs[..n][k] == envs[k];
          assert k in at <==> k in was;
        } else {
          assert n !in was;
        }
      }
    }
  }

  /** Without operations only the failed conversions are left out. */
  lemma {:induction false} DirectPathOmitsFailures(items: seq<Event>, convert: Event -> Option<string>,
                                                  envs: seq<Surroundings>)
    requires |items| == |envs|
    ensures forall k :: 0 <= k < |items| ==> (k in Positions(items, convert, false, envs) <==> convert(items[k]).Some?)
  {
    PositionsExact(items, convert, false, envs);
  }

  /** The registration itself: a channel nobody else knows, subscribed once. */
  method OnEvent(broker: BrokerHeap.Broker, event: string) returns (msgs: BrokerHeap.Channel, spawned: bool)
    requires broker.Valid()
    modifies broker`receivers, broker.Arrays()
    ensures broker.Valid() && fresh(msgs) && !msgs.closed
    ensures broker.View() == AppendTo(old(broker.View()), event, msgs)
    ensures spawned <==> event !in broker.topics
    ensures msgs.buf == if event in broker.retainedMsgs then [broker.retainedMsgs[event]] else []
  {
    msgs := new BrokerHeap.Channel();
    var outcome := broker.Subscribe(event, msgs);
    spawned := outcome.spawned;
  }

  function Own(callback: nat, convert: Event -> Option<string>, wrap: bool, m: Event, env: Surroundings): seq<Call> {
    if Forwards(convert, wrap, m, env) then [Callback(callback, convert(m))] else []
  }

  lemma {:induction false} OneMore(before: seq<Call>, own: seq<Call>, others: seq<Job>, callback: nat)
    requires own == [] || (|own| == 1 && own[0].callback == callback)
    requires forall q :: q in others ==> q.callback != callback
    ensures Mine(before + own + Planned(others), callback) == Mine(before, callback) + own
  {
    MineConcat(before + own, Planned(others), callback);
    MineConcat(before, own, callback);
    forall k | 0 <= k < |others|
      ensures Planned(others)[k].callback != callback
    {
      assert others[k] in others;
    }
    NoneMine(Planned(others), callback);
    assert Mine(own, callback) == own by {
      if own != [] { assert own[..0] == []; }
    }
  }

  /** One event: nothing if it cannot be converted, otherwise one operation. */
  method ForwardOne(loop: EventLoop, wrap: bool, callback: nat, m: Event, convert: Event -> Option<string>,
                    env: Surroundings, script: Call -> Result<string, string>)
    requires forall q :: q in env.others ==> q.callback != callback
    modifies loop
    ensures Mine(loop.Outlook(), callback) == Mine(old(loop.Outlook()), callback) +
                                              Own(callback, convert, wrap, m, env)
  {
    ghost var before, own := loop.Outlook(), Own(callback, convert, wrap, m, env);
    var o := convert(m);
    if o == None {
      loop.Meanwhile(env.others, env.turns);
      assert before + own == before;
    } else {
      var report := WrapOperation(loop, wrap, Job(callback, [o.value]), env, script);
      assert CallOf(Job(callback, [o.value])) == Callback(callback, o);
    }
    OneMore(before, own, env.others, callback);
  }

  ghost predicate Follows(callback: nat, items: seq<Event>, convert: Event -> Option<string>, wrap: bool,
                          envs: seq<Surroundings>, made: seq<Call>)
    requires |items| == |envs|
  {
    var at := Positions(items, convert, wrap, envs);
    (forall i :: 0 <= i < |at| ==> at[i] < |items|) && made == Callbacks(callback, items, convert, at)
  }

  lemma {:induction false} FollowsStep(callback: nat, items: seq<Event>, convert: Event -> Option<string>, wrap: bool,
                                       envs: seq<Surroundings>, i: nat, made: seq<Call>)
    requires i < |items| == |envs| && Follows(callback, items[..i], convert, wrap, envs[..i], made)
    ensures Follows(callback, items[..i + 1], convert, wrap, envs[..i + 1],
                    made + Own(callback, convert, wrap, items[i], envs[i]))
  {
    assert items[..i + 1][..i] == items[..i] && envs[..i + 1][..i] == envs[..i];
    assert items[..i + 1][i] == items[i] && envs[..i + 1][i] == envs[i];
  }

  /** The goroutine that drains the channel, over any number of events taken from it. */
  method Forward(loop: EventLoop, wrap: bool, callback: nat, items: seq<Event>, convert: Event -> Option<string>,
                 envs: seq<Surroundings>, script: Call -> Result<string, string>)
    requires |items| == |envs|
    requires forall i, q :: 0 <= i < |envs| && q in envs[i].others ==> q.callback != callback
    modifies loop
    ensures forall i :: 0 <= i < |Positions(items, convert, wrap, envs)| ==>
              Positions(items, convert, wrap, envs)[i] < |items|
    ensures Mine(loop.Outlook(), callback) ==
            Mine(old(loop.Outlook()), callback) +
            Callbacks(callback, items, convert, Positions(items, convert, wrap, envs))
  {
    var i := 0;
    ghost var made: seq<Call> := [];
    while i < |items|
      invariant 0 <= i <= |items|
      invariant Follows(callback, items[..i], convert, wrap, envs[..i], made)
      invariant Mine(loop.Outlook(), callback) == Mine(old(loop.Outlook()), callback) + made
    {
      ForwardOne(loop, wrap, callback, items[i], convert, envs[i], script);
      FollowsStep(callback, items, convert, wrap, envs, i, made);
      made := made + Own(callback, convert, wrap, items[i], envs[i]);
      i := i + 1;
    }
    assert items[..i] == items && envs[..i] == envs;
  }

  // ----- end to end -----

  lemma {:induction false} DeliveriesPrefix(items: seq<Item>, p: nat)
    requires p <= |items|
    ensures Deliveries(items[..p]) <= Deliveries(items)
    decreases |items| - p
  {
    if p < |items| {
      assert items[..p + 1][..p] == items[..p];
      DeliveriesPrefix(items, p + 1);
    } else {
      assert items[..p] == items;
    }
  }

  /** Where a delivery stands among the deliveries. */
  lemma {:induction false} DeliveryRank(items: seq<Item>, p: nat)
    requires p < |items| && items[p].Delivery?
    ensures |Deliveries(items[..p])| < |Deliveries(items)|
    ensures Deliveries(items)[|Deliveries(items[..p])|] == items[p]
  {
    assert items[..p + 1][..p] == items[..p];
    DeliveriesPrefix(items, p + 1);
  }

  lemma {:induction false} DeliveryRanks(items: seq<Item>, p: nat, q: nat)
    requires p < q < |items| && items[p].Delivery?
    ensures |Deliveries(items[..p])| < |Deliveries(items[..q])|
  {
    assert items[..q][..p] == items[..p];
    DeliveryRank(items[..q], p);
  }

  /** Items that arrived in order, deliveries in the order of distinct handled events. */
  ghost predicate Ordered(items: seq<Item>, log: seq<Entry>, c: Chan) {
    && InOrder(items)
    && (forall i :: 0 <= i < |items| && items[i].Delivery? ==>
          items[i].idx < |log| &&
          var en := log[items[i].idx]; en.Handled? && en.e == items[i].e && c in en.snapshot)
    && (forall i, j :: 0 <= i < j < |items| && items[i].Delivery? && items[j].Delivery? ==> items[i].idx < items[j].idx)
  }

  lemma {:induction false} DeliveriesOrder(items: seq<Item>, log: seq<Entry>, c: Chan)
    requires InOrder(items) && Increasing(Deliveries(items), log, c)
    ensures Ordered(items, log, c)
  {
    forall p | 0 <= p < |items| && items[p].Delivery?
      ensures items[p] in Deliveries(items)
    {
      DeliveryRank(items, p);
    }
    forall p, q | 0 <= p < q < |items| && items[p].Delivery? && items[q].Delivery?
      ensures items[p].idx < items[q].idx
    {
      DeliveryRank(items, p);
      DeliveryRank(items, q);
      DeliveryRanks(items, p, q);
    }
  }

  lemma {:induction false} OrderedPrefix(items: seq<Item>, more: seq<Item>, log: seq<Entry>, c: Chan)
    requires Ordered(items + more, log, c)
    ensures Ordered(items, log, c)
  {
    var all := items + more;
    assert forall i :: 0 <= i < |items| ==> all[i] == items[i];
  }

  /** The items at some of the positions. */
  ghost function At(items: seq<Item>, at: seq<nat>): seq<Item>
    requires forall i :: 0 <= i < |at| ==> at[i] < |items|
  {
    seq(|at|, i requires 0 <= i < |at| => items[at[i]])
  }

  lemma {:induction false} OrderedAt(items: seq<Item>, at: seq<nat>, log: seq<Entry>, c: Chan)
    requires forall i :: 0 <= i < |at| ==> at[i] < |items|
    requires forall i, j :: 0 <= i < j < |at| ==> at[i] < at[j]
    requires Ordered(items, log, c)
    ensures Ordered(At(items, at), log, c)
  {
  }

  /** The positions that lead to a callback, in the channel of a run. */
  lemma {:induction false} PositionsOrdered(run: seq<Step>, c: Chan, convert: Event -> Option<string>, wrap: bool,
                                            envs: seq<Surroundings>)
    requires Run(INIT, run) && Along(Tidy, INIT, run)
    requires |envs| == |Ch(After(INIT, run), c).taken|
    ensures var s := After(INIT, run);
            var items := Ch(s, c).taken;
            var at := Positions(EventsOf(items), convert, wrap, envs);
            && items <= Ch(s, c).enq
            && (forall i :: 0 <= i < |at| ==> at[i] < |items|)
            && (forall i, j :: 0 <= i < j < |at| ==> at[i] < at[j])
            && Ordered(At(items, at), s.log, c)
  {
    var s := After(INIT, run);
    var ch := Ch(s, c);
    SubscriberFifo(run, c);
    EventsAtMostOnceInOrder(run, c);
    PositionsExact(EventsOf(ch.taken), convert, wrap, envs);
    DeliveriesOrder(ch.taken + ch.queue, s.log, c);
    OrderedPrefix(ch.taken, ch.queue, s.log, c);
    OrderedAt(ch.taken, Positions(EventsOf(ch.taken), convert, wrap, envs), s.log, c);
  }

  /** End to end, in every run whose subscribers keep the rules: the goroutine of one
      registration, fed what its consumer took from channel `c`, leaves on the event loop
      one call of its callback for each item at the positions `at`, in that order and
      whatever else is queued meanwhile. These are distinct items in the order in which
      they were enqueued, exactly those that can be converted and whose operation starts.
      Those that are not greetings belong to distinct handled events, in the order of
      handling, for which the channel was registered. */
  method CallbacksInEventOrder(ghost run: seq<Step>, ghost c: Chan, loop: EventLoop, wrap: bool, callback: nat,
                               items: seq<Event>, convert: Event -> Option<string>, envs: seq<Surroundings>,
                               script: Call -> Result<string, string>)
    returns (ghost at: seq<nat>)
    requires Run(INIT, run) && Along(Tidy, INIT, run)
    requires items == EventsOf(Ch(After(INIT, run), c).taken) && |envs| == |items|
    requires forall i, q :: 0 <= i < |envs| && q in envs[i].others ==> q.callback != callback
    modifies loop
    ensures forall i :: 0 <= i < |at| ==> at[i] < |items|
    ensures forall i, j :: 0 <= i < j < |at| ==> at[i] < at[j]
    ensures forall k :: 0 <= k < |items| ==>
              (k in at <==> convert(items[k]).Some? && (wrap && envs[k].client ==> envs[k].registered))
    ensures Mine(loop.Outlook(), callback) ==
            Mine(old(loop.Outlook()), callback) + Callbacks(callback, items, convert, at)
    ensures Ch(After(INIT, run), c).taken <= Ch(After(INIT, run), c).enq
    ensures Ordered(At(Ch(After(INIT, run), c).taken, at), After(INIT, run).log, c)
  {
    at := Positions(items, convert, wrap, envs);
    PositionsExact(items, convert, wrap, envs);
    PositionsOrdered(run, c, convert, wrap, envs);
    Forward(loop, wrap, callback, items, convert, envs, script);
  }
}
