/** When a Subscribe that is sending a retained message gets past it
    (internal/broker/broker.go:93-108). */
module BrokerGreeting {
  import opened Events
  import opened BrokerMachine
  import opened BrokerLocks
  import opened BrokerSafety
  import opened BrokerTidiness

  /** The send of `t` is over, or has panicked, after the run. */
  ghost predicate GreetingEnds(s: State, t: Tid, run: seq<Step>) {
    && Run(s, run)
    && (After(s, run).crash == Some(SendOnClosed)
        || t !in After(s, run).threads || !After(s, run).threads[t].SubGreeting?)
  }

  lemma {:induction false} JammedRun(s: State, t: Tid, run: seq<Step>)
    requires LockInv(s) && Jammed(s, t) && Run(s, run)
    ensures Jammed(After(s, run), t)
    decreases |run|
  {
    if run != [] {
      StuckStays(s, t, run[0]);
      LockAfter(s, run[0]);
      JammedRun(Next(s, run[0]), t, run[1..]);
    }
  }

  lemma {:induction false} JammedNeverEnds(s: State, t: Tid, run: seq<Step>)
    requires LockInv(s) && s.crash == None && Jammed(s, t)
    ensures !GreetingEnds(s, t, run)
  {
    if Run(s, run) {
      JammedRun(s, t, run);
      StuckNeverSends(s, t, run);
    }
  }

  /** The closing goroutine closes the channel that the greeting is blocked on. */
  lemma {:induction false} ClosedUnder(s: State, t: Tid, q: Tid) returns (run: seq<Step>)
    requires LockInv(s) && s.crash == None && t in s.threads && s.threads[t].SubGreeting?
    requires !Ch(s, s.threads[t].c).closed && q in s.threads && s.threads[q] == ClsRemoved(s.threads[t].c)
    ensures Run(s, run) && Unprompted(run) && After(s, run).crash == Some(SendOnClosed)
  {
    var n := CloseNow(s, s.threads[t].c, q);
    RunOne(n, SubGreet(t));
    RunCons(s, ClsClose(q), [SubGreet(t)]);
    run := [ClsClose(q)] + [SubGreet(t)];
  }

  lemma {:induction false} GreetingGoesOn(s: State, t: Tid) returns (run: seq<Step>)
    requires LockInv(s) && s.crash == None && t in s.threads && s.threads[t].SubGreeting? && !Jammed(s, t)
    ensures GreetingEnds(s, t, run) && Unprompted(run)
  {
    var c := s.threads[t].c;
    var ch := Ch(s, c);
    assert NoReader(s) by { assert Writing(s.threads[t]); }
    if ch.closed {
      RunOne(s, SubGreet(t));
      run := [SubGreet(t)];
    } else if ch.live || |ch.queue| < CAPACITY {
      var n;
      run, n := GreetGoes(s, t);
    } else {
      var q :| q in s.threads && s.threads[q].ClsRemoved? && s.threads[q].c == c;
      run := ClosedUnder(s, t, q);
    }
  }

  /** A greeting can get through, or panic, if and only if it is not jammed: by steps of
      the broker and its consumers alone if it is not, and by no steps at all, not even
      with new requests and messages, if it is. */
  lemma {:induction false} GreetingEndsIff(s: State, t: Tid)
    requires LockInv(s) && s.crash == None && t in s.threads && s.threads[t].SubGreeting?
    ensures (exists run :: GreetingEnds(s, t, run) && Unprompted(run)) <==> !Jammed(s, t)
    ensures (exists run :: GreetingEnds(s, t, run)) <==> !Jammed(s, t)
  {
    if Jammed(s, t) {
      forall run ensures !GreetingEnds(s, t, run) { JammedNeverEnds(s, t, run); }
    } else {
      var run := GreetingGoesOn(s, t);
    }
  }
}
