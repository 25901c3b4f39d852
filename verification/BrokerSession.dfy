/** Interest in a type URL is never silently forgotten
    (internal/broker/broker.go:93-130, 136-157). */
module BrokerSession {
  import opened Events
  import opened Topics
  import opened ReceiverLists
  import opened BrokerMachine
  import opened BrokerLocks

  /** Subscribe is called with type URLs that dispatch can look up. */
  ghost predicate PlainKeys(s: State, st: Step) {
    st.Request? ==> PrefixFree(st.u)
  }

  predicate NamesUrl(th: Thread) {
    th.SubWantWrite? || th.SubAnnounced? || th.SubGreeting? || th.SubFinishing? || th.GoStart? || IsFlight(th)
  }

  ghost predicate PlainInv(s: State) {
    && (forall t :: t in s.threads && NamesUrl(s.threads[t]) ==> PrefixFree(s.threads[t].u))
    && (forall t, u :: t in s.threads && IsUnsub(s.threads[t]) && u in s.threads[t].keys ==> PrefixFree(u))
    && (forall u :: u in s.topics || u in s.receivers ==> PrefixFree(u))
  }

  lemma {:induction false} LeadsToName(a: Thread, b: Thread, losses: nat)
    requires Leads(a, b, losses) && NamesUrl(b)
    ensures NamesUrl(a) && a.u == b.u
  {
  }

  lemma {:induction false} NamesFrom(s: State, st: Step, n: State, t: Tid)
    requires t in n.threads && Origin(s, st, n, t) && NamesUrl(n.threads[t])
    ensures || (st.Request? && n.threads[t].u == st.u)
            || (t in s.threads && NamesUrl(s.threads[t]) && s.threads[t].u == n.threads[t].u)
  {
    if t in s.threads && n.threads[t] != s.threads[t] { LeadsToName(s.threads[t], n.threads[t], s.losses); }
  }

  lemma {:induction false} LeadsToUnsub(a: Thread, b: Thread, losses: nat)
    requires Leads(a, b, losses) && IsUnsub(b)
    ensures IsUnsub(a) && a.keys == b.keys
  {
  }

  lemma {:induction false} KeysFrom(s: State, st: Step, n: State, t: Tid)
    requires t in n.threads && Origin(s, st, n, t) && IsUnsub(n.threads[t])
    ensures || (t in s.threads && IsUnsub(s.threads[t]) && s.threads[t].keys == n.threads[t].keys)
            || n.threads[t].keys <= s.receivers.Keys
  {
    assert forall c, u :: u in CleanupKeys(s.receivers, c) ==> u in s.receivers;
    if t in s.threads && n.threads[t] != s.threads[t] { LeadsToUnsub(s.threads[t], n.threads[t], s.losses); }
  }

  lemma {:induction false} PlainThreads(s: State, st: Step, n: State, t: Tid)
    requires PlainInv(s) && PlainKeys(s, st) && t in n.threads && Origin(s, st, n, t)
    ensures NamesUrl(n.threads[t]) ==> PrefixFree(n.threads[t].u)
    ensures IsUnsub(n.threads[t]) ==> forall u :: u in n.threads[t].keys ==> PrefixFree(u)
  {
    if NamesUrl(n.threads[t]) { NamesFrom(s, st, n, t); }
    if IsUnsub(n.threads[t]) { KeysFrom(s, st, n, t); }
  }

  /** Where new topics and new lists come from. */
  lemma {:induction false} MapsFrom(s: State, st: Step)
    requires Enabled(s, st)
    ensures st.SubAppend? ==>
              Next(s, st).receivers.Keys == s.receivers.Keys + {s.threads[st.t].u} && Next(s, st).topics == s.topics
    ensures st.FlStore? ==> Next(s, st).topics == s.topics + {s.threads[st.t].u} && Next(s, st).receivers == s.receivers
    ensures !st.SubAppend? && !st.FlStore? ==>
              Next(s, st).receivers.Keys == s.receivers.Keys && Next(s, st).topics <= s.topics
  {
    if !st.ClsRemove? { FrameStep(s, st); }
  }

  lemma {:induction false} PlainMaps(s: State, st: Step)
    requires PlainInv(s) && Enabled(s, st)
    ensures forall u :: u in Next(s, st).topics || u in Next(s, st).receivers ==> PrefixFree(u)
  {
    var n := Next(s, st);
    MapsFrom(s, st);
    if st.SubAppend? || st.FlStore? {
      assert NamesUrl(s.threads[st.t]);
    }
    assert forall u :: u in n.receivers ==> u in n.receivers.Keys;
  }

  lemma {:induction false} PlainStep(s: State, st: Step)
    requires PlainInv(s) && Enabled(s, st) && PlainKeys(s, st)
    ensures PlainInv(Next(s, st))
  {
    PlainMaps(s, st);
    forall t | t in Next(s, st).threads
      ensures NamesUrl(Next(s, st).threads[t]) ==> PrefixFree(Next(s, st).threads[t].u)
      ensures IsUnsub(Next(s, st).threads[t]) ==> forall u :: u in Next(s, st).threads[t].keys ==> PrefixFree(u)
    {
      OriginStep(s, st, t);
      PlainThreads(s, st, Next(s, st), t);
    }
  }

  // ----- interest -----

  /** A call that will subscribe `u`, or decide that it already is. */
  predicate Pursues(th: Thread, u: string) {
    (th.SubGreeting? || th.SubFinishing? || IsSubscribing(th)) && th.u == u
  }

  ghost predicate Pending(s: State, u: string) {
    exists t :: t in s.threads && Pursues(s.threads[t], u)
  }

  ghost predicate InterestKept(s: State, u: string) {
    List(s, u) != [] ==> u in s.topics || Pending(s, u) || u in s.failed
  }

  /** A subscribe that finds a flight for its topic in progress finds one that has still
      to store its own type URL, or its URL is settled already: single.Do is keyed by
      topic, a flight stores only its own type URL, and it stays in the table for a
      moment after that. */
  ghost predicate JoinsOwnFlight(s: State, st: Step) {
    st.FlStart? && st.t in s.threads && s.threads[st.t].GoStart? ==>
      var u := s.threads[st.t].u;
      || u in s.topics || u in s.failed
      || forall q :: q in s.threads && IsFlight(s.threads[q]) && MakeTopic(s.threads[q].u) == MakeTopic(u) ==>
           s.threads[q].u == u && !s.threads[q].FlLeaving?
  }

  /** No subscribe finds a flight that has run its course. */
  ghost predicate NoneLeaving(s: State, st: Step) {
    st.FlStart? && st.t in s.threads && s.threads[st.t].GoStart? ==>
      var topic := MakeTopic(s.threads[st.t].u);
      forall q :: q in s.threads && s.threads[q].FlLeaving? ==> MakeTopic(s.threads[q].u) != topic
  }

  lemma {:induction false} PursuitActor(s: State, st: Step, u: string)
    requires Enabled(s, st)
    requires st.LockConn? || st.Announce? || st.SubGreet? || st.SubFinish? || st.FlCall? || st.FlStore?
    requires Pursues(s.threads[st.t], u)
    ensures var n := Next(s, st);
            || (st.t in n.threads && Pursues(n.threads[st.t], u))
            || u in n.topics || u in n.failed
  {
  }

  lemma {:induction false} JoinsFlight(s: State, st: Step, u: string)
    requires Enabled(s, st) && st.FlStart? && JoinsOwnFlight(s, st)
    requires Pursues(s.threads[st.t], u) && u !in s.topics && u !in s.failed
    ensures Pending(Next(s, st), u)
  {
    var n := Next(s, st);
    if InFlight(s, MakeTopic(u)) {
      var q :| q in s.threads && IsFlight(s.threads[q]) && MakeTopic(s.threads[q].u) == MakeTopic(u);
      assert q in n.threads && Pursues(n.threads[q], u);
    } else {
      assert st.t in n.threads && Pursues(n.threads[st.t], u);
    }
  }

  /** Every pursuit of `u` leads on, or ends in `topics`, in `failed`, or in the
      flight of the same URL. */
  lemma {:induction false} PursuitStep(s: State, st: Step, t: Tid, u: string)
    requires Enabled(s, st) && JoinsOwnFlight(s, st)
    requires t in s.threads && Pursues(s.threads[t], u)
    ensures Pending(Next(s, st), u) || u in Next(s, st).topics || u in Next(s, st).failed
  {
    var n := Next(s, st);
    if t !in Actors(st) {
      FrameStep(s, st);
      assert t in n.threads && Pursues(n.threads[t], u);
    } else if st.FlStart? {
      FrameStep(s, st);
      if u !in s.topics && u !in s.failed { JoinsFlight(s, st, u); }
    } else {
      PursuitActor(s, st, u);
    }
  }

  lemma {:induction false} InterestAppend(s: State, st: Step, u: string)
    requires Enabled(s, st) && st.SubAppend?
    requires List(Next(s, st), u) != []
    ensures List(s, u) != [] || Pending(Next(s, st), u)
    ensures Next(s, st).topics == s.topics
  {
    var n, t := Next(s, st), st.t;
    if s.threads[t].u == u {
      assert t in n.threads && Pursues(n.threads[t], u);
    }
  }

  lemma {:induction false} InterestRemove(s: State, st: Step, u: string)
    requires Enabled(s, st) && st.ClsRemove?
    requires List(Next(s, st), u) != []
    ensures List(s, u) != []
    ensures u in s.topics ==> u in Next(s, st).topics
  {
    var c := s.threads[st.t].c;
    if u in s.receivers { CleanupExact(s.receivers, c, u); }
  }

  lemma {:induction false} TopicsKept(s: State, st: Step)
    requires Enabled(s, st) && !st.ClsRemove? && !st.SubAppend?
    ensures s.topics <= Next(s, st).topics && Next(s, st).receivers == s.receivers
  {
    if !st.FlStore? { FrameStep(s, st); }
  }

  /** A list only becomes non-empty by a Subscribe, and its URL is dropped from
      `topics` only when the list has become empty. */
  lemma {:induction false} InterestSource(s: State, st: Step, u: string)
    requires Enabled(s, st)
    requires List(Next(s, st), u) != []
    ensures List(s, u) != [] || Pending(Next(s, st), u)
    ensures u in s.topics ==> u in Next(s, st).topics
  {
    if st.SubAppend? {
      InterestAppend(s, st, u);
    } else if st.ClsRemove? {
      InterestRemove(s, st, u);
    } else {
      TopicsKept(s, st);
    }
  }

  lemma {:induction false} FailedKept(s: State, st: Step, u: string)
    requires Enabled(s, st) && u in s.failed
    ensures u in Next(s, st).failed || u in Next(s, st).topics
  {
    if !st.FlCall? && !st.FlStore? { FrameStep(s, st); }
  }

  lemma {:induction false} InterestStep(s: State, st: Step, u: string)
    requires Enabled(s, st) && JoinsOwnFlight(s, st)
    requires InterestKept(s, u)
    ensures InterestKept(Next(s, st), u)
  {
    if List(Next(s, st), u) != [] {
      InterestSource(s, st, u);
      if List(s, u) != [] {
        if u in s.failed {
          FailedKept(s, st, u);
        } else if u !in s.topics {
          var t :| t in s.threads && Pursues(s.threads[t], u);
          PursuitStep(s, st, t, u);
        }
      }
    }
  }

  lemma {:induction false} InterestRun(s: State, run: seq<Step>, u: string)
    requires Run(s, run) && Along(JoinsOwnFlight, s, run)
    requires InterestKept(s, u)
    ensures InterestKept(After(s, run), u)
    decreases |run|
  {
    if run != [] {
      InterestStep(s, run[0], u);
      InterestRun(Next(s, run[0]), run[1..], u);
    }
  }

  /** In every run in which a subscribe joins only flights that have still to store its own
      type URL, a type URL with a receiver is subscribed, or a subscribe of it is
      outstanding, or the last attempt failed. */
  lemma {:induction false} InterestNeverForgotten(run: seq<Step>, u: string)
    requires Run(INIT, run) && Along(JoinsOwnFlight, INIT, run)
    ensures List(After(INIT, run), u) != [] ==>
              || u in After(INIT, run).topics
              || Pending(After(INIT, run), u)
              || u in After(INIT, run).failed
  {
    InterestRun(INIT, run, u);
  }

  lemma {:induction false} PlainJoins(s: State, st: Step)
    requires PlainInv(s) && Enabled(s, st) && NoneLeaving(s, st)
    ensures JoinsOwnFlight(s, st)
  {
    if st.FlStart? {
      var u := s.threads[st.t].u;
      forall q | q in s.threads && IsFlight(s.threads[q]) && MakeTopic(s.threads[q].u) == MakeTopic(u)
        ensures s.threads[q].u == u && !s.threads[q].FlLeaving?
      {
        assert NamesUrl(s.threads[q]) && NamesUrl(s.threads[st.t]);
        TopicInjective(s.threads[q].u, u);
      }
    }
  }

  ghost predicate PlainAndPrompt(s: State, st: Step) {
    PlainKeys(s, st) && NoneLeaving(s, st)
  }

  /** Prefix-free keys, and flights that leave the table in time, are enough for that. */
  lemma {:induction false} PlainKeysSuffice(s: State, run: seq<Step>)
    requires PlainInv(s) && Run(s, run) && Along(PlainAndPrompt, s, run)
    ensures Along(JoinsOwnFlight, s, run)
    decreases |run|
  {
    if run != [] {
      PlainJoins(s, run[0]);
      PlainStep(s, run[0]);
      PlainKeysSuffice(Next(s, run[0]), run[1..]);
    }
  }

  // ----- the rule is exact -----

  /** `t` is the only hope of `u`. */
  ghost predicate OnlyHope(s: State, t: Tid, u: string) {
    && t in s.threads && s.threads[t] == GoStart(u)
    && u !in s.topics && u !in s.failed
    && forall q :: q in s.threads && q != t ==> !Pursues(s.threads[q], u)
  }

  /** Interest in `u` survives the subscribe's entry into single.Do if and only if it
      joins no flight of another type URL and none that has run its course. */
  lemma {:induction false} InterestKeptIff(s: State, t: Tid, u: string)
    requires Enabled(s, FlStart(t)) && OnlyHope(s, t, u) && List(s, u) != []
    ensures InterestKept(Next(s, FlStart(t)), u) <==> JoinsOwnFlight(s, FlStart(t))
  {
    var n := Next(s, FlStart(t));
    assert n.receivers == s.receivers && n.topics == s.topics && n.failed == s.failed;
    if JoinsOwnFlight(s, FlStart(t)) {
      JoinsFlight(s, FlStart(t), u);
    } else {
      assert InFlight(s, MakeTopic(u));
      assert n.threads == s.threads - {t};
    }
  }

  ghost predicate Forgotten(s: State, u: string) {
    u !in s.topics && u !in s.failed && !Pending(s, u)
  }

  /** Nobody subscribes `u`. */
  ghost function Avoids(u: string): (State, Step) -> bool {
    (s: State, st: Step) =>
      st.SubAppend? && st.t in s.threads && s.threads[st.t].SubAnnounced? ==> s.threads[st.t].u != u
  }

  lemma {:induction false} NoNewPursuit(s: State, st: Step, n: State, t: Tid, u: string)
    requires t in n.threads && Origin(s, st, n, t) && !Pending(s, u) && Avoids(u)(s, st)
    requires st.SubAppend? ==> st.t in s.threads && s.threads[st.t].SubAnnounced?
    ensures !Pursues(n.threads[t], u)
  {
    if t in s.threads {
      assert !Pursues(s.threads[t], u);
    }
  }

  /** `topics` and `failed` gain only the URL of a flight. */
  lemma {:induction false} GainsOnlyOwn(s: State, st: Step, u: string)
    requires Enabled(s, st) && Forgotten(s, u)
    ensures u !in Next(s, st).topics && u !in Next(s, st).failed
  {
    if st.FlCall? || st.FlStore? {
      assert !Pursues(s.threads[st.t], u);
    } else if !st.ClsRemove? {
      FrameStep(s, st);
    }
  }

  lemma {:induction false} ForgottenStep(s: State, st: Step, u: string)
    requires Enabled(s, st) && Forgotten(s, u) && Avoids(u)(s, st)
    ensures Forgotten(Next(s, st), u)
  {
    var n := Next(s, st);
    forall t | t in n.threads
      ensures !Pursues(n.threads[t], u)
    {
      OriginStep(s, st, t);
      NoNewPursuit(s, st, n, t, u);
    }
    GainsOnlyOwn(s, st, u);
  }

  lemma {:induction false} ForgottenRun(s: State, run: seq<Step>, u: string)
    requires Forgotten(s, u) && Run(s, run) && Along(Avoids(u), s, run)
    ensures Forgotten(After(s, run), u)
    decreases |run|
  {
    if run != [] {
      ForgottenStep(s, run[0], u);
      ForgottenRun(Next(s, run[0]), run[1..], u);
    }
  }

  /** A subscribe that joins the flight of another type URL, or one that has run its
      course, is forgotten for good, whether that flight succeeds or not: until somebody subscribes `u` anew, it is
      neither in `topics`, nor outstanding, nor counted as failed. */
  lemma {:induction false} ForeignFlightForgets(s: State, t: Tid, u: string, run: seq<Step>)
    requires Enabled(s, FlStart(t)) && OnlyHope(s, t, u) && !JoinsOwnFlight(s, FlStart(t))
    requires Run(Next(s, FlStart(t)), run) && Along(Avoids(u), Next(s, FlStart(t)), run)
    ensures Forgotten(After(Next(s, FlStart(t)), run), u)
  {
    var n := Next(s, FlStart(t));
    assert InFlight(s, MakeTopic(u));
    assert n == s.(threads := s.threads - {t});
    ForgottenRun(n, run, u);
  }
}
