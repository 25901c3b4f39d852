/** Type URLs and the MQTT topics they map to (internal/broker/broker.go:208, 229-233). */
module Topics {
  const TYPE_PREFIX := "type.googleapis.com/"
  const TOPIC_BASE := "cis/protobuf/events/"

  predicate HasPrefix(s: string, p: string) {
    |p| <= |s| && s[..|p|] == p
  }

  /** Go's strings.TrimPrefix: at most one leading occurrence is removed. */
  function TrimPrefix(s: string, p: string): string {
    if HasPrefix(s, p) then s[|p|..] else s
  }

  /** A subscriber key that dispatch can look up under its own name. */
  predicate PrefixFree(typeUrl: string) {
    !HasPrefix(typeUrl, TYPE_PREFIX)
  }

  /** The key of `receivers` and `retainedMsgs` that dispatch uses for an event. */
  function DispatchKey(typeUrl: string): string {
    TrimPrefix(typeUrl, TYPE_PREFIX)
  }

  function MakeTopic(typeUrl: string): string {
    TOPIC_BASE + TrimPrefix(typeUrl, TYPE_PREFIX)
  }

  function MakeTopics(keys: set<string>): set<string> {
    set k | k in keys :: MakeTopic(k)
  }

  /** The type URL that anypb gives a message of type `key`. */
  function FullUrl(key: string): string {
    TYPE_PREFIX + key
  }

  /** What the two mappings are: the prefix goes if it is there and stays away if it is
      not, and the rest is the key, and the last part of the topic. */
  lemma KeysAndTopics(k: string)
    ensures PrefixFree(k) <==> !("type.googleapis.com/" <= k)
    ensures "type.googleapis.com/" <= k ==> DispatchKey(k) == k[20..]
    ensures !("type.googleapis.com/" <= k) ==> DispatchKey(k) == k
    ensures MakeTopic(k) == "cis/protobuf/events/" + if "type.googleapis.com/" <= k then k[20..] else k
    ensures FullUrl(k) == "type.googleapis.com/" + k
  {
    assert |TYPE_PREFIX| == 20;
  }

  lemma TopicsOf(keys: set<string>, topic: string)
    ensures topic in MakeTopics(keys) <==>
            exists k :: k in keys &&
                        topic == "cis/protobuf/events/" + if "type.googleapis.com/" <= k then k[20..] else k
  {
    forall k: string
      ensures MakeTopic(k) == "cis/protobuf/events/" + if "type.googleapis.com/" <= k then k[20..] else k
    {
      KeysAndTopics(k);
    }
    if k :| k in keys && topic == "cis/protobuf/events/" + if "type.googleapis.com/" <= k then k[20..] else k {
      assert MakeTopic(k) == topic;
    }
  }

  /** Two type URLs share a topic exactly when dispatch looks them up alike. */
  lemma SameTopicIffSameKey(a: string, b: string)
    ensures MakeTopic(a) == MakeTopic(b) <==> DispatchKey(a) == DispatchKey(b)
  {
    var n := |TOPIC_BASE|;
    assert MakeTopic(a)[n..] == DispatchKey(a);
    assert MakeTopic(b)[n..] == DispatchKey(b);
  }

  /** Dispatch strips exactly the prefix; the topic is that of the key if the key has no
      prefix of its own. */
  lemma FullUrlReachesKey(key: string)
    ensures DispatchKey(FullUrl(key)) == key
    ensures PrefixFree(key) ==> MakeTopic(FullUrl(key)) == MakeTopic(key)
  {
    assert FullUrl(key)[..|TYPE_PREFIX|] == TYPE_PREFIX;
    assert FullUrl(key)[|TYPE_PREFIX|..] == key;
  }

  lemma TopicInjective(a: string, b: string)
    requires PrefixFree(a) && PrefixFree(b)
    ensures MakeTopic(a) == MakeTopic(b) <==> a == b
  {
    SameTopicIffSameKey(a, b);
  }

  /** `Agrees(k)`: what is published to the topic of key k is what dispatch hands to list k. */
  ghost predicate Agrees(k: string) {
    forall e: string :: MakeTopic(e) == MakeTopic(k) <==> DispatchKey(e) == k
  }

  /** Routing agreement holds for the prefix-free keys and for no others. */
  lemma RoutingAgreement(k: string)
    ensures Agrees(k) <==> PrefixFree(k)
    ensures Agrees(k) <==> !("type.googleapis.com/" <= k)
  {
    KeysAndTopics(k);
    if PrefixFree(k) {
      forall e: string
        ensures MakeTopic(e) == MakeTopic(k) <==> DispatchKey(e) == k
      {
        SameTopicIffSameKey(e, k);
      }
    } else {
      assert |DispatchKey(k)| < |k|;
      assert MakeTopic(k) == MakeTopic(k) && DispatchKey(k) != k;
    }
  }

  /** A prefixed key is starved: nothing published to its topic reaches its list. */
  lemma PrefixedKeyIsStarved(k: string, e: string)
    requires MakeTopic(e) == MakeTopic(k)
    ensures DispatchKey(e) == k <==> !("type.googleapis.com/" <= k)
  {
    KeysAndTopics(k);
    SameTopicIffSameKey(e, k);
    if !PrefixFree(k) {
      assert |DispatchKey(k)| < |k|;
    }
  }
}
