/** The broker as the program holds it: maps of slices over shared backing arrays,
    mutated in place (internal/broker/broker.go). Each method is one goroutine's
    critical section run alone; BrokerMachine interleaves them. */
module BrokerHeap {
  import opened Events
  import opened Topics
  import opened ReceiverLists

  /** A Go channel of events. */
  class Channel {
    var buf: seq<Event>
    var closed: bool

    constructor ()
      ensures buf == [] && !closed
    {
      buf, closed := [], false;
    }
  }

  /** A Go slice: its first `len` cells of a backing array. */
  datatype Slice = Slice(data: array<Channel>, len: nat)

  /** What Publish hands to the client. */
  datatype Message = Message(topic: string, retained: bool, evt: Event)

  /** The MQTT session as seen through the blocking client. */
  class Session {
    var subscribed: set<string>
    var published: seq<Message>

    constructor ()
      ensures subscribed == {} && published == []
    {
      subscribed, published := {}, [];
    }
  }

  /** How a publication can fare: the event cannot be encoded, the client reports an
      error, or the message is accepted. */
  datatype Fate = Unencodable | Refused | Accepted

  datatype PublishError = MarshalFailed | NotConnected | PublishFailed

  /** How a call of Subscribe ends: a greeting can find the channel full or closed. */
  datatype Outcome = Returned(spawned: bool) | Stuck | Panicked

  function Chosen(names: set<string>, pick: string -> bool): set<string> {
    set t | t in names && pick(t)
  }

  lemma TopicsOfKeys(keys: seq<string>, topics: seq<string>)
    requires |keys| == |topics|
    requires forall i :: 0 <= i < |keys| ==> topics[i] == MakeTopic(keys[i])
    ensures Members(topics) == MakeTopics(Members(keys))
  {
    forall t | t in topics
      ensures t in MakeTopics(Members(keys))
    {
      var i :| 0 <= i < |topics| && topics[i] == t;
      assert keys[i] in keys;
    }
    forall k | k in keys
      ensures MakeTopic(k) in topics
    {
      var i :| 0 <= i < |keys| && keys[i] == k;
      assert topics[i] in topics;
    }
  }

  function Repeat(e: Event, n: nat): seq<Event> {
    seq(n, _ => e)
  }

  /** `n` attempts to enqueue `e` without a consumer: as many as fit succeed. */
  function Filled(buf: seq<Event>, e: Event, n: nat): seq<Event> {
    if |buf| + n <= CAPACITY then buf + Repeat(e, n)
    else if |buf| <= CAPACITY then buf + Repeat(e, CAPACITY - |buf|)
    else buf
  }

  /** A channel after another attempt, if the attempt was on this channel. */
  function Offered(buf: seq<Event>, e: Event, here: bool): seq<Event> {
    if here && |buf| < CAPACITY then buf + [e] else buf
  }

  lemma {:induction false} FilledStep(buf: seq<Event>, e: Event, n: nat)
    ensures Filled(buf, e, n + 1) ==
            if |Filled(buf, e, n)| < CAPACITY then Filled(buf, e, n) + [e] else Filled(buf, e, n)
  {
    if |buf| + n < CAPACITY {
      assert Repeat(e, n + 1) == Repeat(e, n) + [e];
    }
  }

  lemma {:induction false} OfferCounts(buf: seq<Event>, e: Event, tried: seq<Channel>, m: Channel, c: Channel)
    ensures Offered(Filled(buf, e, Count(tried, c)), e, c == m) == Filled(buf, e, Count(tried + [m], c))
  {
    CountAppend(tried, [m], c);
    FilledStep(buf, e, Count(tried, c));
  }

  class Broker {
    var conn: Session?
    var receivers: map<string, Slice>
    var topics: set<string>
    var retainedMsgs: map<string, Event>

    ghost function Arrays(): set<object>
      reads this
    {
      set k | k in receivers :: receivers[k].data
    }

    /** Slices fit their arrays, and different keys never share one. */
    ghost predicate Valid()
      reads this
    {
      && (forall k :: k in receivers ==> receivers[k].len <= receivers[k].data.Length)
      && (forall k, q :: k in receivers && q in receivers && k != q ==> receivers[k].data != receivers[q].data)
    }

    /** The receiver lists as values. */
    ghost function View(): map<string, seq<Channel>>
      requires Valid()
      reads this, Arrays()
    {
      map k | k in receivers :: receivers[k].data[..receivers[k].len]
    }

    /** Replacing one slice changes the list of that key alone. */
    twostate lemma ViewUpdate(key: string, new s: Slice)
      requires old(Valid()) && Valid()
      requires receivers == old(receivers)[key := s] && s.len <= s.data.Length
      requires forall k :: k in receivers && k != key ==> receivers[k].data[..] == old(receivers[k].data[..])
      ensures View() == old(View())[key := s.data[..s.len]]
    {
      var after, expected := View(), old(View())[key := s.data[..s.len]];
      assert after.Keys == expected.Keys;
      forall k | k in after
        ensures after[k] == expected[k]
      {
        if k != key {
          var other := receivers[k];
          assert other == old(receivers[k]);
          assert other.data[..other.len] == other.data[..][..other.len];
          assert old(other.data[..other.len]) == old(other.data[..])[..other.len];
        }
      }
    }

    constructor ()
      ensures Valid() && View() == map[] && topics == {} && retainedMsgs == map[] && conn == null
    {
      conn, receivers, topics, retainedMsgs := null, map[], {}, map[];
    }

    /** Go's append of one element: in place while capacity lasts, otherwise
        into a fresh array. */
    method Append(s: Slice, m: Channel) returns (r: Slice)
      requires s.len <= s.data.Length
      modifies s.data
      ensures r.len == s.len + 1 <= r.data.Length
      ensures r.data[..r.len] == old(s.data[..s.len]) + [m]
      ensures r.data == s.data || fresh(r.data)
    {
      if s.len < s.data.Length {
        s.data[s.len] := m;
        r := Slice(s.data, s.len + 1);
      } else {
        var grown := new Channel[2 * s.len + 1](_ => m);
        forall i | 0 <= i < s.len {
          grown[i] := s.data[i];
        }
        r := Slice(grown, s.len + 1);
      }
    }

    /** b.receivers[typeUrl] = append(b.receivers[typeUrl], msgs) */
    method AddReceiver(typeUrl: string, msgs: Channel)
      requires Valid()
      modifies this`receivers, Arrays()
      ensures Valid() && View() == AppendTo(old(View()), typeUrl, msgs)
      ensures fresh(Arrays() - old(Arrays()))
    {
      var slice;
      if typeUrl in receivers {
        slice := Append(receivers[typeUrl], msgs);
      } else {
        var empty := new Channel[0];
        slice := Append(Slice(empty, 0), msgs);
      }
      receivers := receivers[typeUrl := slice];
      ViewUpdate(typeUrl, slice);
    }

    method Subscribe(typeUrl: string, msgs: Channel) returns (r: Outcome)
      requires Valid()
      modifies this`receivers, Arrays(), msgs`buf
      ensures Valid() && View() == AppendTo(old(View()), typeUrl, msgs) && fresh(Arrays() - old(Arrays()))
      ensures typeUrl !in retainedMsgs ==> r == Returned(typeUrl !in topics) && msgs.buf == old(msgs.buf)
      ensures typeUrl in retainedMsgs ==>
                if msgs.closed then r == Panicked && msgs.buf == old(msgs.buf)
                else if |old(msgs.buf)| >= CAPACITY then r == Stuck && msgs.buf == old(msgs.buf)
                else r == Returned(typeUrl !in topics) && msgs.buf == old(msgs.buf) + [retainedMsgs[typeUrl]]
    {
      AddReceiver(typeUrl, msgs);
      if typeUrl in retainedMsgs {
        if msgs.closed { return Panicked; }
        if |msgs.buf| >= CAPACITY { return Stuck; }
        msgs.buf := msgs.buf + [retainedMsgs[typeUrl]];
      }
      r := Returned(typeUrl !in topics);
    }

    /** append(receivers[:idx], receivers[idx+1:]...) fits the capacity, so it
        moves the tail of the same array one cell down. */
    static method Visit(data: array<Channel>, idx: nat, n: nat, msgs: Channel, ghost cells: seq<Channel>)
      returns (hit: bool)
      requires idx < n <= data.Length && data[idx..n] == cells
      modifies data
      ensures hit <==> cells[0] == msgs
      ensures data[..idx] == old(data[..idx]) && data[idx..n] == Pulled(cells, msgs)
    {
      hit := data[idx] == msgs;
      if hit {
        forall i | idx <= i < n - 1 {
          data[i] := data[i + 1];
        }
      }
    }

    /** The loop body: `len` follows len(b.receivers[key]). */
    static method Iterate(data: array<Channel>, idx: nat, n: nat, msgs: Channel, len: nat,
                          ghost list: seq<Channel>, ghost done: seq<Channel>, ghost cells: seq<Channel>)
      returns (len': nat, ghost done': seq<Channel>, ghost cells': seq<Channel>)
      requires idx < n <= data.Length && data[..idx] == done && data[idx..n] == cells
      requires |list| == n && Progress(list, done, cells, len, msgs)
      modifies data
      ensures data[..idx + 1] == done' && data[idx + 1..n] == cells'
      ensures Progress(list, done', cells', len', msgs)
    {
      var hit := Visit(data, idx, n, msgs, cells);
      ProgressStep(list, done, cells, len, msgs);
      done', cells' := done + [Pulled(cells, msgs)[0]], Pulled(cells, msgs)[1..];
      len' := if hit then n - 1 else len;
    }

    /** The inner loop of UnsubscribeAll. The range expression is evaluated once,
        so the loop reads `data` up to its original length `n` while removals
        shift it; `marks` counts how often the key is appended to topicCleanup. */
    static method RemoveWhileRanging(data: array<Channel>, n: nat, msgs: Channel, ghost list: seq<Channel>)
      returns (len: nat, marks: nat)
      requires n <= data.Length && data[..n] == list
      modifies data
      ensures len <= n
      ensures data[..len] == RemoveInPlace(list, msgs)
      ensures marks == if list == [msgs] then 1 else 0
    {
      len, marks := n, 0;
      var idx := 0;
      ghost var done: seq<Channel>, cells := [], list;
      while idx < n
        invariant 0 <= idx <= n && data[..idx] == done && data[idx..n] == cells
        invariant Progress(list, done, cells, len, msgs)
        invariant marks == if len == 0 && idx == 1 then 1 else 0
      {
        len, done, cells := Iterate(data, idx, n, msgs, len, list, done, cells);
        if len == 0 {
          marks := marks + 1;
        }
        idx := idx + 1;
      }
      assert cells == [] && data[..n] == done;
      ProgressEnd(list, done, len, msgs);
      assert data[..len] == data[..n][..len];
    }

    /** One key of the outer loop. */
    method RemoveFrom(key: string, msgs: Channel) returns (marks: seq<string>)
      requires Valid() && key in receivers
      modifies this`receivers, receivers[key].data
      ensures Valid() && receivers.Keys == old(receivers.Keys)
      ensures forall k :: k in receivers ==> receivers[k].data == old(receivers[k].data)
      ensures View() == old(View())[key := RemoveInPlace(old(View()[key]), msgs)]
      ensures marks == if old(View()[key]) == [msgs] then [key] else []
    {
      var slice := receivers[key];
      ghost var list := View()[key];
      var len, hits := RemoveWhileRanging(slice.data, slice.len, msgs, list);
      receivers := receivers[key := Slice(slice.data, len)];
      ViewUpdate(key, receivers[key]);
      marks := if hits == 1 then [key] else [];
    }

    /** The outer loop, in whatever order the map yields its keys. */
    method RemoveFromAll(msgs: Channel) returns (topicCleanup: seq<string>)
      requires Valid()
      modifies this`receivers, Arrays()
      ensures Valid() && View() == RemoveEverywhere(old(View()), msgs)
      ensures Marked(topicCleanup, old(View()), {}, msgs)
    {
      ghost var before := View();
      topicCleanup := [];
      var todo := receivers.Keys;
      while todo != {}
        invariant Valid() && receivers.Keys == old(receivers.Keys) && todo <= before.Keys
        invariant forall k :: k in receivers ==> receivers[k].data == old(receivers[k].data)
        invariant View() == Partly(before, todo, msgs) && Marked(topicCleanup, before, todo, msgs)
        decreases todo
      {
        var key :| key in todo;
        VisitKey(before, todo, key, msgs, topicCleanup);
        var marks := RemoveFrom(key, msgs);
        todo := todo - {key};
        topicCleanup := topicCleanup + marks;
      }
    }

    method Forget(topicCleanup: seq<string>)
      modifies this`topics, this`retainedMsgs
      ensures topics == old(topics) - Members(topicCleanup)
      ensures retainedMsgs == old(retainedMsgs) - Members(topicCleanup)
    {
      var i := 0;
      while i < |topicCleanup|
        invariant 0 <= i <= |topicCleanup|
        invariant topics == old(topics) - Members(topicCleanup[..i])
        invariant retainedMsgs == old(retainedMsgs) - Members(topicCleanup[..i])
      {
        assert topicCleanup[..i + 1] == topicCleanup[..i] + [topicCleanup[i]];
        topics := topics - {topicCleanup[i]};
        retainedMsgs := retainedMsgs - {topicCleanup[i]};
        i := i + 1;
      }
      assert topicCleanup[..i] == topicCleanup;
    }

    method UnsubscribeAll(msgs: Channel) returns (topicCleanup: seq<string>)
      requires Valid()
      modifies this`receivers, this`topics, this`retainedMsgs, Arrays()
      ensures Valid() && View() == RemoveEverywhere(old(View()), msgs)
      ensures NoDup(topicCleanup) && Members(topicCleanup) == CleanupKeys(old(View()), msgs)
      ensures topics == old(topics) - CleanupKeys(old(View()), msgs)
      ensures retainedMsgs == old(retainedMsgs) - CleanupKeys(old(View()), msgs)
    {
      topicCleanup := RemoveFromAll(msgs);
      Forget(topicCleanup);
    }

    /** The channels that dispatch of key `k` writes to. */
    ghost function Targets(k: string): set<Channel>
      requires Valid()
      reads this, Arrays()
    {
      set c | c in ListOf(View(), k)
    }

    /** One send: a full channel times out. */
    static method Offer(m: Channel, pb: Event)
      modifies m`buf
      ensures m.buf == Offered(old(m.buf), pb, true)
    {
      if |m.buf| < CAPACITY {
        m.buf := m.buf + [pb];
      }
    }

    /** The send loop, with no consumer running: a full channel times out, a
        closed one panics, and a channel listed twice is tried twice. */
    static method SendAll(data: array<Channel>, n: nat, pb: Event, ghost list: seq<Channel>) returns (panicked: bool)
      requires n <= data.Length && data[..n] == list
      modifies (set c | c in list)`buf
      ensures panicked <==> exists c :: c in list && c.closed
      ensures !panicked ==> forall c :: c in list ==> c.buf == Filled(old(c.buf), pb, Count(list, c))
    {
      var i := 0;
      while i < n
        invariant 0 <= i <= n
        invariant forall c :: c in list[..i] ==> !c.closed
        invariant forall c :: c in list ==> c.buf == Filled(old(c.buf), pb, Count(list[..i], c))
      {
        var m := data[i];
        if m.closed { return true; }
        assert list[..i + 1] == list[..i] + [m];
        forall c | c in list
          ensures Offered(c.buf, pb, c == m) == Filled(old(c.buf), pb, Count(list[..i + 1], c))
        {
          OfferCounts(old(c.buf), pb, list[..i], m, c);
        }
        Offer(m, pb);
        i := i + 1;
      }
      assert list[..i] == list;
      panicked := false;
    }

    method HandleMessage(e: Event, flagged: bool) returns (panicked: bool)
      requires Valid()
      modifies this`retainedMsgs, Targets(DispatchKey(e.typeUrl))`buf
      ensures Valid() && View() == old(View())
      ensures retainedMsgs ==
              if flagged then old(retainedMsgs)[DispatchKey(e.typeUrl) := Event(e.typeUrl, e.payload, true)]
              else old(retainedMsgs)
      ensures panicked <==> exists c :: c in Targets(DispatchKey(e.typeUrl)) && c.closed
      ensures !panicked ==> forall c :: c in Targets(DispatchKey(e.typeUrl)) ==>
                c.buf == Filled(old(c.buf), Event(e.typeUrl, e.payload, e.retained || flagged),
                                Count(ListOf(View(), DispatchKey(e.typeUrl)), c))
    {
      var typeUrl, pb := DispatchKey(e.typeUrl), Stamp(e, flagged);
      if flagged {
        retainedMsgs := retainedMsgs[typeUrl := pb];
      }
      if typeUrl !in receivers { return false; }
      var slice := receivers[typeUrl];
      panicked := SendAll(slice.data, slice.len, pb, ListOf(View(), typeUrl));
    }

    /** The body that the singleflight group runs for `typeUrl`. The client reports
        success if `ok`; the server holds the subscription if `acked`. A lost reply hides
        a grant, and a client that does not look at the reason code hides a refusal. */
    method SubscribeTopic(typeUrl: string, ok: bool, acked: bool) returns (panicked: bool)
      modifies this`topics, conn
      ensures panicked <==> conn == null
      ensures topics == if !panicked && ok then old(topics) + {typeUrl} else old(topics)
      ensures conn != null ==> conn.published == old(conn.published)
      ensures conn != null ==>
                conn.subscribed == old(conn.subscribed) + if acked then {MakeTopic(typeUrl)} else {}
    {
      if conn == null { return true; }
      if acked {
        conn.subscribed := conn.subscribed + {MakeTopic(typeUrl)};
      }
      if ok {
        topics := topics + {typeUrl};
      }
      panicked := false;
    }

    method Publish(evt: Event, fate: Fate) returns (r: Result<(), PublishError>)
      modifies conn
      ensures r.Ok? <==> conn != null && fate == Accepted
      ensures fate == Unencodable ==> r == Err(MarshalFailed)
      ensures fate != Unencodable && conn == null ==> r == Err(NotConnected)
      ensures fate == Refused && conn != null ==> r == Err(PublishFailed)
      ensures conn != null ==> conn.subscribed == old(conn.subscribed)
      ensures conn != null && r.Err? ==> conn.published == old(conn.published)
      ensures conn != null && r.Ok? ==>
                conn.published == old(conn.published) + [Message(MakeTopic(evt.typeUrl), evt.retained, evt)]
    {
      if fate == Unencodable { return Err(MarshalFailed); }
      if conn == null { return Err(NotConnected); }
      if fate == Refused { return Err(PublishFailed); }
      conn.published := conn.published + [Message(MakeTopic(evt.typeUrl), evt.retained, evt)];
      r := Ok(());
    }

    /** The goroutine started by UnsubscribeAll rewrites its list to topics in place. */
    static method ToTopics(topicCleanup: array<string>)
      modifies topicCleanup
      ensures forall i :: 0 <= i < topicCleanup.Length ==> topicCleanup[i] == MakeTopic(old(topicCleanup[i]))
    {
      var idx := 0;
      while idx < topicCleanup.Length
        invariant 0 <= idx <= topicCleanup.Length
        invariant forall i :: 0 <= i < idx ==> topicCleanup[i] == MakeTopic(old(topicCleanup[i]))
        invariant forall i :: idx <= i < topicCleanup.Length ==> topicCleanup[i] == old(topicCleanup[i])
      {
        topicCleanup[idx] := MakeTopic(topicCleanup[idx]);
        idx := idx + 1;
      }
    }

    /** `dropped` says which topics the server gives up; the client's error, if any, is
        only logged. */
    method UnsubscribeTopics(topicCleanup: array<string>, dropped: string -> bool) returns (panicked: bool)
      modifies topicCleanup, conn
      ensures panicked <==> conn == null
      ensures conn != null ==> conn.published == old(conn.published)
      ensures conn != null ==>
                conn.subscribed == old(conn.subscribed) - Chosen(MakeTopics(Members(old(topicCleanup[..]))), dropped)
    {
      ghost var keys := topicCleanup[..];
      ToTopics(topicCleanup);
      if conn == null { return true; }
      TopicsOfKeys(keys, topicCleanup[..]);
      conn.subscribed := conn.subscribed - Chosen(Members(topicCleanup[..]), dropped);
      panicked := false;
    }

    /** Re-subscribes every topic. `acked` says which of them the server then holds; the
        errors the client reports are only logged. */
    method HandleOnConnect(cli: Session, acked: string -> bool)
      modifies this`conn, cli`subscribed
      ensures conn == cli
      ensures cli.subscribed == old(cli.subscribed) + MakeTopics(Chosen(topics, acked))
    {
      conn := cli;
      ghost var granted := Chosen(topics, acked);
      var todo := topics;
      while todo != {}
        invariant todo <= topics && conn == cli
        invariant cli.subscribed == old(cli.subscribed) + MakeTopics(granted - todo)
        decreases todo
      {
        var t :| t in todo;
        if acked(t) {
          cli.subscribed := cli.subscribed + {MakeTopic(t)};
          assert granted - (todo - {t}) == (granted - todo) + {t};
        } else {
          assert granted - (todo - {t}) == granted - todo;
        }
        todo := todo - {t};
      }
      assert granted - todo == granted;
    }
  }
}
