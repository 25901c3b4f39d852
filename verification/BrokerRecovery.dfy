/** What a reconnect achieves (internal/broker/broker.go:71-91). */
module BrokerRecovery {
  import opened Events
  import opened Topics
  import opened BrokerMachine
  import opened BrokerLocks
  import opened BrokerReconnect
  import opened BrokerRefinement
  import H = BrokerHeap

  lemma {:induction false} Loses(s: State) returns (n: State)
    requires s.crash == None && s.up
    ensures Enabled(s, ConnectionLost) && n == Next(s, ConnectionLost)
    ensures n == s.(up := false, session := {}, losses := s.losses + 1, synced := false)
  {
    n := Next(s, ConnectionLost);
  }

  lemma {:induction false} ComesUp(s: State, t: Tid) returns (n: State)
    requires s.crash == None && !s.up && t !in s.threads && ConnFree(s) && NoWriter(s)
    ensures Enabled(s, ConnectionUp(t)) && n == Next(s, ConnectionUp(t))
    ensures n == s.(up := true, threads := s.threads[t := OcWantConn]) && NoWriter(n) && Enabled(n, LockConn(t))
  {
    n := Next(s, ConnectionUp(t));
  }

  lemma {:induction false} AllChosen(names: set<string>)
    ensures H.Chosen(names, _ => true) == names
  {
  }

  /** The network comes back, and the handler is granted everything. */
  lemma {:induction false} Returns(s: State, t: Tid) returns (run: seq<Step>)
    requires s.crash == None && !s.up && t !in s.threads && ConnFree(s) && NoWriter(s)
    ensures Run(s, run) && [ConnectionUp(t)] <= run
    ensures After(s, run) == s.(linked := true, up := true, session := s.session + MakeTopics(s.topics), synced := true)
  {
    var n := ComesUp(s, t);
    var rest := ConnectRun(n, t, _ => true, _ => true);
    AllChosen(s.topics);
    assert n.threads - {t} == s.threads;
    RunCons(s, ConnectionUp(t), rest);
    run := [ConnectionUp(t)] + rest;
  }

  /** A lost connection can be repaired: from every state in which nobody is at connLock or
      about to write under `l`, the connection can be lost and come back, and if the server
      then grants what it is asked, the session holds the topics of exactly the entries of
      `topics`, and the connection counts as renewed. */
  lemma {:induction false} LossIsRepaired(s: State, t: Tid) returns (run: seq<Step>)
    requires s.crash == None && s.up && ConnFree(s) && NoWriter(s) && t !in s.threads
    ensures Run(s, run) && [ConnectionLost, ConnectionUp(t)] <= run
    ensures After(s, run) ==
            s.(linked := true, session := MakeTopics(s.topics), losses := s.losses + 1, synced := true)
    ensures Renewed(After(s, run))
  {
    var s1 := Loses(s);
    var rest := Returns(s1, t);
    RunCons(s, ConnectionLost, rest);
    run := [ConnectionLost] + rest;
  }
}
