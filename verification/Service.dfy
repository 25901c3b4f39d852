/** The callers of the broker in the events service (internal/service/events_service.go)
    and the receive loop they drive (internal/broker/subscriber.go:49-71). */
module Service {
  import opened Events
  import opened Topics
  import opened ReceiverLists
  import opened BrokerHeap

  /** The stream SubscribeOnce makes up: it asks for each type URL once, then ends. */
  class FakeBidiStream {
    const typeUrls: seq<string>
    var iter: nat

    constructor (typeUrls: seq<string>)
      ensures this.typeUrls == typeUrls && iter == 0
    {
      this.typeUrls := typeUrls;
      iter := 0;
    }

    /** None stands for io.EOF. */
    method Receive() returns (r: Option<string>)
      modifies this
      ensures old(iter) < |typeUrls| ==> r == Some(typeUrls[old(iter)]) && iter == old(iter) + 1
      ensures old(iter) >= |typeUrls| ==> r == None && iter == old(iter)
    {
      if iter >= |typeUrls| { return None; }
      r := Some(typeUrls[iter]);
      iter := iter + 1;
    }
  }

  /** The lists after subscribing `urls` one after the other. */
  function SubscribeEach<C>(r: map<string, seq<C>>, urls: seq<string>, msgs: C): map<string, seq<C>>
    decreases |urls|
  {
    if urls == [] then r else SubscribeEach(AppendTo(r, urls[0], msgs), urls[1..], msgs)
  }

  function Greeting(retained: map<string, Event>, url: string): seq<Event> {
    if url in retained then [retained[url]] else []
  }

  /** The retained messages a new subscriber of `urls` is greeted with. */
  function Greetings(retained: map<string, Event>, urls: seq<string>): seq<Event> {
    if urls == [] then [] else Greeting(retained, urls[0]) + Greetings(retained, urls[1..])
  }

  lemma {:induction false} SubscribeEachSnoc<C>(r: map<string, seq<C>>, urls: seq<string>, k: nat, msgs: C)
    requires k < |urls|
    ensures SubscribeEach(r, urls[..k + 1], msgs) == AppendTo(SubscribeEach(r, urls[..k], msgs), urls[k], msgs)
    decreases k
  {
    if k == 0 {
      assert urls[..1][1..] == [];
    } else {
      assert urls[..k + 1][1..] == urls[1..][..k] && urls[..k][1..] == urls[1..][..k - 1];
      SubscribeEachSnoc(AppendTo(r, urls[0], msgs), urls[1..], k - 1, msgs);
    }
  }

  lemma {:induction false} GreetingsSnoc(retained: map<string, Event>, urls: seq<string>, k: nat)
    requires k < |urls|
    ensures Greetings(retained, urls[..k + 1]) ==
            Greetings(retained, urls[..k]) + Greeting(retained, urls[k])
    decreases k
  {
    if k == 0 {
      assert urls[..1][1..] == [];
    } else {
      assert urls[..k + 1][1..] == urls[1..][..k] && urls[..k][1..] == urls[1..][..k - 1];
      GreetingsSnoc(retained, urls[1..], k - 1);
    }
  }

  lemma {:induction false} GreetingsGrow(retained: map<string, Event>, urls: seq<string>, k: nat)
    requires k <= |urls|
    ensures |Greetings(retained, urls[..k])| <= |Greetings(retained, urls)|
    decreases |urls| - k
  {
    if k < |urls| {
      GreetingsSnoc(retained, urls, k);
      GreetingsGrow(retained, urls, k + 1);
    } else {
      assert urls[..k] == urls;
    }
  }

  /** A list after subscribing `urls`: one entry more for every mention of its key. */
  lemma {:induction false} SubscribeEachList<C>(r: map<string, seq<C>>, urls: seq<string>, msgs: C, k: string)
    ensures ListOf(SubscribeEach(r, urls, msgs), k) == ListOf(r, k) + Pad(msgs, Count(urls, k))
    decreases |urls|
  {
    if urls == [] {
      assert ListOf(r, k) + [] == ListOf(r, k);
    } else {
      SubscribeEachList(AppendTo(r, urls[0], msgs), urls[1..], msgs, k);
      if urls[0] == k {
        var n := Count(urls[1..], k);
        assert (ListOf(r, k) + [msgs]) + Pad(msgs, n) == ListOf(r, k) + ([msgs] + Pad(msgs, n));
      }
    }
  }

  /** SubscribeOnce breaks the rule "once per type URL" exactly when its request does. */
  lemma {:induction false} DuplicatesComeFromRequest<C>(r: map<string, seq<C>>, urls: seq<string>, msgs: C, k: string)
    requires NoDup(ListOf(r, k)) && msgs !in ListOf(r, k)
    ensures NoDup(ListOf(SubscribeEach(r, urls, msgs), k)) <==> Count(urls, k) <= 1
  {
    SubscribeEachList(r, urls, msgs, k);
    var n, list := Count(urls, k), ListOf(r, k);
    PadLength(msgs, n);
    var after := list + Pad(msgs, n);
    if n >= 2 {
      assert after[|list|] == msgs && after[|list| + 1] == msgs;
    }
  }

  /** How one pass of the receive loop ends; Blocked stands for a greeting that finds
      the channel closed (Subscribe panics), or full with nobody taking from it any more
      (Subscribe hangs). */
  datatype Pass = More | Ended | Blocked

  /** All of `greetings` can be sent with no consumer running. */
  predicate Room(buf: seq<Event>, closed: bool, greetings: seq<Event>) {
    greetings == [] || (!closed && |buf| + |greetings| <= CAPACITY)
  }

  /** The greeting of URL `iter - 1` cannot be sent. */
  predicate BlockedAt(urls: seq<string>, iter: nat, retained: map<string, Event>, closed: bool, buf: seq<Event>) {
    1 <= iter <= |urls| && urls[iter - 1] in retained && (closed || |buf| >= CAPACITY)
  }

  /** What was taken and what is queued is what was there at first and the greetings. */
  ghost predicate Going(first: seq<Event>, taken: seq<Event>, buf: seq<Event>, greetings: seq<Event>, closed: bool) {
    && taken + buf == first + greetings
    && (taken == [] ==> Room(first, closed, greetings))
    && (|first| <= CAPACITY ==> |buf| <= CAPACITY)
  }

  /** The send loop of Handle takes up to `n` items. */
  method TakeSome(msgs: Channel, n: nat, before: seq<Event>, ghost first: seq<Event>, ghost greetings: seq<Event>)
    returns (taken: seq<Event>)
    requires Going(first, before, msgs.buf, greetings, msgs.closed)
    modifies msgs`buf
    ensures Going(first, taken, msgs.buf, greetings, msgs.closed)
    ensures n == 0 ==> taken == before
    ensures n > 0 && |first| <= CAPACITY ==> |msgs.buf| < CAPACITY
  {
    var k := if n <= |msgs.buf| then n else |msgs.buf|;
    assert (before + msgs.buf[..k]) + msgs.buf[k..] == before + msgs.buf;
    taken := before + msgs.buf[..k];
    msgs.buf := msgs.buf[k..];
  }

  /** One greeting more. */
  lemma {:induction false} SendsOn(first: seq<Event>, taken: seq<Event>, buf: seq<Event>, greetings: seq<Event>,
                                   more: seq<Event>, closed: bool)
    requires Going(first, taken, buf, greetings, closed) && |more| <= 1
    requires more != [] ==> !closed && |buf| < CAPACITY
    ensures Going(first, taken, buf + more, greetings + more, closed)
  {
    assert taken + (buf + more) == (taken + buf) + more;
    assert |taken + buf| == |first + greetings|;
  }

  lemma {:induction false} BlockedNeedsRoom(first: seq<Event>, taken: seq<Event>, buf: seq<Event>,
                                           retained: map<string, Event>, urls: seq<string>, iter: nat, closed: bool)
    requires BlockedAt(urls, iter, retained, closed, buf)
    requires taken + buf == first + Greetings(retained, urls[..iter - 1])
    ensures !Room(first, closed, Greetings(retained, urls))
  {
    GreetingsSnoc(retained, urls, iter - 1);
    GreetingsGrow(retained, urls, iter);
    assert |taken + buf| == |first| + |Greetings(retained, urls[..iter - 1])|;
  }

  /** One receive, and one Subscribe. */
  method ReceiveOne(stream: FakeBidiStream, broker: Broker, msgs: Channel, ghost r: map<string, seq<Channel>>)
    returns (pass: Pass)
    requires broker.Valid() && stream.iter <= |stream.typeUrls|
    requires broker.View() == SubscribeEach(r, stream.typeUrls[..stream.iter], msgs)
    modifies stream, broker`receivers, broker.Arrays(), msgs`buf
    ensures broker.Valid() && fresh(broker.Arrays() - old(broker.Arrays()))
    ensures pass.Ended? <==> old(stream.iter) == |stream.typeUrls|
    ensures stream.iter == if pass.Ended? then old(stream.iter) else old(stream.iter) + 1
    ensures stream.iter <= |stream.typeUrls|
    ensures broker.View() == SubscribeEach(r, stream.typeUrls[..stream.iter], msgs)
    ensures pass.Blocked? ==> BlockedAt(stream.typeUrls, stream.iter, broker.retainedMsgs, msgs.closed, msgs.buf)
    ensures pass.More? && Greeting(broker.retainedMsgs, stream.typeUrls[stream.iter - 1]) != [] ==>
              !msgs.closed && |old(msgs.buf)| < CAPACITY
    ensures !pass.More? ==> msgs.buf == old(msgs.buf)
    ensures pass.More? ==>
              msgs.buf == old(msgs.buf) + Greeting(broker.retainedMsgs, stream.typeUrls[stream.iter - 1])
  {
    var msg := stream.Receive();
    if msg == None { return Ended; }
    SubscribeEachSnoc(r, stream.typeUrls, stream.iter - 1, msgs);
    var outcome := broker.Subscribe(msg.value, msgs);
    pass := if outcome.Returned? then More else Blocked;
  }

  /** The consumer takes up to `n` items, and the receive loop makes one pass. */
  method ReceiveNext(stream: FakeBidiStream, broker: Broker, msgs: Channel, n: nat, before: seq<Event>,
                     ghost r: map<string, seq<Channel>>, ghost first: seq<Event>)
    returns (pass: Pass, taken: seq<Event>)
    requires broker.Valid() && stream.iter <= |stream.typeUrls|
    requires broker.View() == SubscribeEach(r, stream.typeUrls[..stream.iter], msgs)
    requires Going(first, before, msgs.buf, Greetings(broker.retainedMsgs, stream.typeUrls[..stream.iter]), msgs.closed)
    modifies stream, broker`receivers, broker.Arrays(), msgs`buf
    ensures broker.Valid() && fresh(broker.Arrays() - old(broker.Arrays()))
    ensures pass.Ended? <==> old(stream.iter) == |stream.typeUrls|
    ensures stream.iter == if pass.Ended? then old(stream.iter) else old(stream.iter) + 1
    ensures stream.iter <= |stream.typeUrls|
    ensures broker.View() == SubscribeEach(r, stream.typeUrls[..stream.iter], msgs)
    ensures !pass.Blocked? ==>
              Going(first, taken, msgs.buf, Greetings(broker.retainedMsgs, stream.typeUrls[..stream.iter]), msgs.closed)
    ensures pass.Blocked? ==> BlockedAt(stream.typeUrls, stream.iter, broker.retainedMsgs, msgs.closed, msgs.buf)
    ensures pass.Blocked? ==>
              taken + msgs.buf == first + Greetings(broker.retainedMsgs, stream.typeUrls[..stream.iter - 1])
    ensures n == 0 && before == [] ==> taken == []
    ensures pass.Blocked? && n > 0 ==> msgs.closed || |first| > CAPACITY
  {
    ghost var k := stream.iter;
    taken := TakeSome(msgs, n, before, first, Greetings(broker.retainedMsgs, stream.typeUrls[..k]));
    ghost var waiting := msgs.buf;
    pass := ReceiveOne(stream, broker, msgs, r);
    if pass.More? {
      GreetingsSnoc(broker.retainedMsgs, stream.typeUrls, k);
      SendsOn(first, taken, waiting, Greetings(broker.retainedMsgs, stream.typeUrls[..k]),
              Greeting(broker.retainedMsgs, stream.typeUrls[k]), msgs.closed);
    }
  }

  /** Runs the receive loop of Handle over a SubscribeOnce stream, while the send loop
      takes `takes(i)` items before the i-th Subscribe. When it ends, it has made one
      receive more than there are URLs and left the broker as if Subscribe had been
      folded over them in order; what was taken and what is queued are the greetings in
      that order. It ends if the greetings have room, or if the consumer keeps taking;
      with no consumer at all it ends only if they have room. */
  method ReceiveLoop(stream: FakeBidiStream, broker: Broker, msgs: Channel, takes: nat -> nat)
    returns (receives: nat, ended: bool, taken: seq<Event>)
    requires broker.Valid() && stream.iter == 0
    modifies stream, broker`receivers, broker.Arrays(), msgs`buf
    ensures broker.Valid()
    ensures ended ==> receives == |stream.typeUrls| + 1
    ensures ended ==> broker.View() == SubscribeEach(old(broker.View()), stream.typeUrls, msgs)
    ensures ended ==> taken + msgs.buf == old(msgs.buf) + Greetings(broker.retainedMsgs, stream.typeUrls)
    ensures !ended ==> 1 <= receives == stream.iter <= |stream.typeUrls|
    ensures !ended ==> broker.View() == SubscribeEach(old(broker.View()), stream.typeUrls[..receives], msgs)
    ensures !ended ==> stream.typeUrls[receives - 1] in broker.retainedMsgs && (msgs.closed || |msgs.buf| >= CAPACITY)
    ensures !ended ==>
              taken + msgs.buf == old(msgs.buf) + Greetings(broker.retainedMsgs, stream.typeUrls[..receives - 1])
    ensures Room(old(msgs.buf), msgs.closed, Greetings(broker.retainedMsgs, stream.typeUrls)) ==> ended
    ensures !msgs.closed && |old(msgs.buf)| <= CAPACITY && (forall i :: takes(i) > 0) ==> ended
    ensures (forall i :: takes(i) == 0) && ended ==>
              Room(old(msgs.buf), msgs.closed, Greetings(broker.retainedMsgs, stream.typeUrls))
  {
    receives, taken := 0, [];
    var pass := More;
    while pass.More?
      invariant broker.Valid() && fresh(broker.Arrays() - old(broker.Arrays()))
      invariant stream.iter <= |stream.typeUrls|
      invariant receives == if pass.Ended? then stream.iter + 1 else stream.iter
      invariant pass.Ended? ==> stream.iter == |stream.typeUrls|
      invariant broker.View() == SubscribeEach(old(broker.View()), stream.typeUrls[..stream.iter], msgs)
      invariant !pass.Blocked? ==>
                Going(old(msgs.buf), taken, msgs.buf, Greetings(broker.retainedMsgs, stream.typeUrls[..stream.iter]),
                      msgs.closed)
      invariant pass.Blocked? ==> BlockedAt(stream.typeUrls, stream.iter, broker.retainedMsgs, msgs.closed, msgs.buf)
      invariant pass.Blocked? ==>
                taken + msgs.buf == old(msgs.buf) + Greetings(broker.retainedMsgs, stream.typeUrls[..stream.iter - 1])
      invariant (forall i :: takes(i) == 0) ==> taken == []
      invariant pass.Blocked? && (forall i :: takes(i) > 0) ==> msgs.closed || |old(msgs.buf)| > CAPACITY
      decreases pass.More?, |stream.typeUrls| - stream.iter
    {
      pass, taken := ReceiveNext(stream, broker, msgs, takes(receives), taken, old(broker.View()), old(msgs.buf));
      receives := receives + 1;
    }
    if pass.Ended? {
      assert stream.typeUrls[..stream.iter] == stream.typeUrls;
    } else {
      BlockedNeedsRoom(old(msgs.buf), taken, msgs.buf, broker.retainedMsgs, stream.typeUrls, stream.iter, msgs.closed);
    }
    ended := pass.Ended?;
  }

  // ----- publishing -----

  /** The incoming stream of PublishStream: messages whose event may be missing, then
      the end, with or without an error. */
  class ClientStream {
    const msgs: seq<Option<Event>>
    const failed: bool
    var pos: nat

    constructor (msgs: seq<Option<Event>>, failed: bool)
      ensures this.msgs == msgs && this.failed == failed && pos == 0
    {
      this.msgs, this.failed := msgs, failed;
      pos := 0;
    }

    /** False once the messages are used up; the current message is msgs[pos - 1]. */
    method Receive() returns (more: bool)
      modifies this
      ensures more <==> old(pos) < |msgs|
      ensures pos == if more then old(pos) + 1 else old(pos)
    {
      more := pos < |msgs|;
      if more { pos := pos + 1; }
    }
  }

  datatype PublishResult = Done | MissingEvent | Publishing(error: PublishError) | StreamFailed

  function Wire(msgs: seq<Option<Event>>): seq<Message> {
    if msgs == [] then []
    else
      var n := |msgs| - 1;
      Wire(msgs[..n]) + match msgs[n] case None => [] case Some(e) => [Message(MakeTopic(e.typeUrl), e.retained, e)]
  }

  /** Publishes a prefix of the stream, in order: all of it on success, and otherwise
      exactly what comes before the first message that is missing or refused, with the
      error of that message or of the stream. */
  method PublishStream(stream: ClientStream, broker: Broker, fates: nat -> Fate)
    returns (r: PublishResult, ghost n: nat)
    requires stream.pos == 0
    modifies stream, broker.conn
    ensures broker.conn != null ==> broker.conn.subscribed == old(broker.conn.subscribed)
    ensures n <= |stream.msgs|
    ensures forall i :: 0 <= i < n ==> stream.msgs[i].Some? && fates(i) == Accepted
    ensures broker.conn != null ==>
              broker.conn.published == old(broker.conn.published) + Wire(stream.msgs[..n])
    ensures broker.conn == null ==> n == 0
    ensures n == |stream.msgs| <==> r == Done || r == StreamFailed
    ensures r == StreamFailed ==> stream.failed
    ensures r == Done ==> !stream.failed
    ensures r == MissingEvent ==> stream.msgs[n] == None
    ensures r.Publishing? ==> stream.msgs[n] != None && (broker.conn == null || fates(n) != Accepted)
    ensures r.Publishing? ==>
              r.error == if fates(n) == Unencodable then MarshalFailed
                         else if broker.conn == null then NotConnected
                         else PublishFailed
  {
    n := 0;
    var msgs := stream.msgs;
    while true
      invariant stream.pos == n <= |msgs|
      invariant forall i :: 0 <= i < n ==> msgs[i].Some? && fates(i) == Accepted
      invariant broker.conn != null ==> broker.conn.subscribed == old(broker.conn.subscribed)
      invariant broker.conn != null ==> broker.conn.published == old(broker.conn.published) + Wire(msgs[..n])
      invariant broker.conn == null ==> n == 0
      decreases |msgs| - stream.pos
    {
      var more := stream.Receive();
      if !more { break; }
      var msg := msgs[stream.pos - 1];
      if msg == None { return MissingEvent, n; }
      var res := broker.Publish(msg.value, fates(stream.pos - 1));
      if res.Err? { return Publishing(res.error), n; }
      assert msgs[..n + 1][..n] == msgs[..n];
      n := n + 1;
    }
    assert n == |msgs|;
    r := if stream.failed then StreamFailed else Done;
  }
}
