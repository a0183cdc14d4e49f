/**
 * The worker thread that several clients share through one transport: it is started by
 * the first client, told to stop by the last one to leave, and joined by that client.
 */
module SharedWorker {
  import opened Lists

  /** A client whose StartWorkerThread succeeded, or whose SignalEndWorkerThread was called. */
  datatype Event = Started(client: nat) | Ended(client: nat)

  /**
   * `clients` is the vector, `handle` says that workerThreadHandle is not NULL, `running`
   * that the thread behind it has not left its loop; `log` is the history and `works`
   * counts the calls of the lower layer's DoWork.
   */
  datatype State = State(
    clients: seq<nat>, stop: bool, handle: bool, running: bool, destroying: bool, lowLevel: bool,
    works: nat, log: seq<Event>)

  const START := State([], true, false, false, false, true, 0, [])

  /** start_worker_if_needed; `created` and `pushed` say whether the thread and the vector slot could be had. */
  function StartWorker(s: State, c: nat, created: bool, pushed: bool): (s': State)
  {
    var s1 := if s.handle then s else s.(stop := false, handle := created, running := created);
    if !s1.handle then s1
    else if c in s1.clients then s1.(log := s1.log + [Started(c)])
    else if pushed then s1.(clients := s1.clients + [c], log := s1.log + [Started(c)])
    else s1
  }

  /** signal_end_worker_thread; the second component tells the client to join. */
  function SignalEnd(s: State, c: nat): (r: (State, bool))
  {
    var k := IndexOf(s.clients, c, 0);
    var s1 := s.(clients := if k < |s.clients| then RemoveAt(s.clients, k) else s.clients, log := s.log + [Ended(c)]);
    if s1.handle && s1.clients == [] then (s1.(stop := true), true) else (s1, false)
  }

  /** wait_worker_thread: the join returns when the thread has left its loop. */
  function Join(s: State): (s': State)
  {
    if s.handle && !s.running then s.(handle := false) else s
  }

  /** One round of transport_worker_thread under the lock. */
  function Round(s: State): (s': State)
  {
    if !s.running then s
    else if s.stop then s.(running := false)
    else s.(works := s.works + 1)
  }

  /** After IoTHubTransport_Destroy has begun, no client starts the worker any more. */
  datatype Op =
    | DoStart(client: nat, created: bool, pushed: bool)
    | DoSignal(client: nat)
    | DoJoin
    | DoRound
    | BeginDestroy
    | FinishDestroy

  function Apply(s: State, op: Op): (s': State)
  {
    match op
    case DoStart(c, created, pushed) => if s.destroying then s else StartWorker(s, c, created, pushed)
    case DoSignal(c) => SignalEnd(s, c).0
    case DoJoin => Join(s)
    case DoRound => Round(s)
    case BeginDestroy => s.(destroying := true, stop := true)
    case FinishDestroy => if s.destroying && !s.running then Join(s).(lowLevel := false) else s
  }

  function Exec(s: State, ops: seq<Op>): (s': State)
  {
    if ops == [] then s else Apply(Exec(s, ops[..|ops| - 1]), ops[|ops| - 1])
  }

  // ---------------------------------------------------------------------------
  // Laws
  // ---------------------------------------------------------------------------

  /** The clients started and not ended since, told by the history alone. */
  function Active(log: seq<Event>): (cs: set<nat>)
  {
    if log == [] then {}
    else
      var before := Active(log[..|log| - 1]);
      match log[|log| - 1]
      case Started(c) => before + {c}
      case Ended(c) => before - {c}
  }

  ghost predicate Inv(s: State)
  {
    && NoDuplicates(s.clients) && (forall c :: c in s.clients <==> c in Active(s.log))
    && (s.running ==> s.handle && s.lowLevel)
    && (s.destroying && s.running ==> s.stop)
    && (!s.lowLevel ==> s.destroying)
  }

  lemma ActiveAppend(log: seq<Event>, e: Event)
    ensures Active(log + [e]) == if e.Started? then Active(log) + {e.client} else Active(log) - {e.client}
  {
    assert (log + [e])[..|log|] == log;
  }

  lemma StartKeeps(s: State, c: nat, created: bool, pushed: bool)
    requires Inv(s) && !s.destroying
    ensures Inv(StartWorker(s, c, created, pushed))
  {
    hide Active;
    ActiveAppend(s.log, Started(c));
    assert forall k :: 0 <= k < |s.clients| ==> s.clients[k] in s.clients;
  }

  lemma SignalKeeps(s: State, c: nat)
    requires Inv(s)
    ensures Inv(SignalEnd(s, c).0)
  {
    hide Active;
    ActiveAppend(s.log, Ended(c));
    var k := IndexOf(s.clients, c, 0);
    if k < |s.clients| { RemoveAtMember(s.clients, k); }
    hide NoDuplicates, RemoveAt;
  }

  lemma {:induction false} RunKeeps(ops: seq<Op>)
    ensures Inv(Exec(START, ops))
    decreases |ops|
  {
    if ops != [] {
      RunKeeps(ops[..|ops| - 1]);
      var s, op := Exec(START, ops[..|ops| - 1]), ops[|ops| - 1];
      hide Active, StartWorker, SignalEnd;
      match op {
        case DoStart(c, created, pushed) => if !s.destroying { StartKeeps(s, c, created, pushed); }
        case DoSignal(c) => SignalKeeps(s, c);
        case _ =>
      }
    }
  }

  /** In every run the vector is duplicate-free and holds exactly the clients started and not yet ended. */
  lemma ClientsAreActive(ops: seq<Op>)
    ensures
      var s := Exec(START, ops);
      NoDuplicates(s.clients) && (set c | c in s.clients) == Active(s.log)
  {
    hide Exec, Active;
    RunKeeps(ops);
  }

  /** A start makes its client active exactly if there is a worker, or one can be created, and a place in the vector. */
  lemma StartActivates(ops: seq<Op>, c: nat, created: bool, pushed: bool)
    ensures
      var s := Exec(START, ops);
      var s' := StartWorker(s, c, created, pushed);
      && (c in Active(s'.log) <==> c in Active(s.log) || ((s.handle || created) && pushed))
      && (s'.handle <==> s.handle || created)
      && (!s.handle && created ==> s'.running && !s'.stop)
  {
    hide Exec, Active;
    RunKeeps(ops);
    ActiveAppend(Exec(START, ops).log, Started(c));
  }

  /** A leaving client raises the stop flag, and is told to join, only when no active client is left. */
  lemma StopsOnlyWhenEmpty(ops: seq<Op>, c: nat)
    ensures
      var s := Exec(START, ops);
      var (s', join) := SignalEnd(s, c);
      && ((s'.stop && !s.stop) || join ==> Active(s'.log) == {})
      && (join <==> s.handle && Active(s'.log) == {})
  {
    hide Exec, Active;
    RunKeeps(ops);
    var s := Exec(START, ops);
    SignalKeeps(s, c);
    var s' := SignalEnd(s, c).0;
    assert s'.clients == [] <==> Active(s'.log) == {} by {
      if s'.clients != [] { assert s'.clients[0] in Active(s'.log); }
    }
  }

  /** A running worker calls the lower layer's DoWork once a round, unless it was told to stop; then it exits. */
  lemma RoundWorks(ops: seq<Op>)
    requires Exec(START, ops).running
    ensures
      var s, s' := Exec(START, ops), Exec(START, ops + [DoRound]);
      if s.stop then s'.works == s.works && !s'.running else s'.works == s.works + 1 && s'.running
  {
    ExecOne(START, ops, DoRound);
    hide Exec;
  }

  lemma DestroyedStep(s: State, op: Op)
    requires Inv(s) && !s.lowLevel
    ensures Apply(s, op).works == s.works && !Apply(s, op).lowLevel
  {
    hide Active, IndexOf;
  }

  /** The lower layer's DoWork is never called once the lower layer is destroyed. */
  lemma {:induction false} NoWorkAfterDestroy(ops: seq<Op>, later: seq<Op>)
    requires !Exec(START, ops).lowLevel
    ensures Exec(START, ops + later).works == Exec(START, ops).works && !Exec(START, ops + later).lowLevel
    decreases |later|
  {
    hide Apply, Inv;
    if later == [] {
      assert ops + later == ops;
    } else {
      var n := |later| - 1;
      NoWorkAfterDestroy(ops, later[..n]);
      RunKeeps(ops + later[..n]);
      assert ops + later == (ops + later[..n]) + [later[n]];
      ExecOne(START, ops + later[..n], later[n]);
      hide Exec;
      DestroyedStep(Exec(START, ops + later[..n]), later[n]);
    }
  }

  // ---------------------------------------------------------------------------
  // Is there always a worker for the clients?
  // ---------------------------------------------------------------------------

  /** While there are clients, the worker runs and has not been told to stop. */
  ghost predicate Served(s: State)
  {
    s.clients != [] ==> s.handle && s.running && !s.stop
  }

  /** A start breaks that exactly when it joins a worker that was told to stop and is not joined yet. */
  lemma StartServed(s: State, c: nat, created: bool, pushed: bool)
    requires Inv(s) && Served(s) && !s.destroying
    ensures Served(StartWorker(s, c, created, pushed)) <==> !(s.handle && (s.stop || !s.running) && pushed)
  {
  }

  /** Every other client operation keeps it. */
  lemma OthersServed(s: State, op: Op)
    requires Inv(s) && Served(s) && (op.DoSignal? || op.DoJoin? || op.DoRound?)
    ensures Served(Apply(s, op))
  {
  }

  /** A client that starts between another's signal and join is left without a worker, until it calls again. */
  lemma StartBetweenSignalAndJoin()
    ensures
      var s := Exec(START, [DoStart(1, true, true), DoSignal(1), DoStart(2, true, true), DoRound, DoJoin]);
      && s.clients == [2] && !s.running && !s.handle
      && Served(StartWorker(s, 2, true, true))
  {
    var a, b, c, d, e := DoStart(1, true, true), DoSignal(1), DoStart(2, true, true), DoRound, DoJoin;
    ExecOne(START, [], a);
    ExecOne(START, [a], b);
    ExecOne(START, [a, b], c);
    ExecOne(START, [a, b, c], d);
    ExecOne(START, [a, b, c, d], e);
    assert [] + [a] == [a] && [a] + [b] == [a, b] && [a, b] + [c] == [a, b, c];
    assert [a, b, c] + [d] == [a, b, c, d] && [a, b, c, d] + [e] == [a, b, c, d, e];
    hide Exec;
    assert Exec(START, [a]).clients == [1];
    assert IndexOf([1], 1, 0) == 0 && RemoveAt([1], 0) == [];
    assert Exec(START, [a, b]).clients == [];
  }

  lemma ExecOne(s: State, ops: seq<Op>, op: Op)
    ensures Exec(s, ops + [op]) == Apply(Exec(s, ops), op) && Exec(s, []) == s
  {
    hide Apply;
    assert (ops + [op])[..|ops|] == ops;
  }

  // ---------------------------------------------------------------------------
  // The object
  // ---------------------------------------------------------------------------

  class SharedTransport {
    var clients: seq<nat>
    var stop: bool
    var handle: bool
    var running: bool
    var destroying: bool
    var lowLevel: bool
    var works: nat
    var log: seq<Event>

    function View(): (s: State)
      reads this
    {
      State(clients, stop, handle, running, destroying, lowLevel, works, log)
    }

    constructor ()
      ensures View() == START
    {
      clients, stop, handle, running, destroying, lowLevel, works, log := [], true, false, false, false, true, 0, [];
    }

    method StartWorkerIfNeeded(c: nat, created: bool, pushed: bool) returns (ok: bool)
      modifies this
      ensures View() == StartWorker(old(View()), c, created, pushed)
      ensures ok == (|log| > |old(log)|)
    {
      ok := false;
      if !handle {
        stop := false;
        handle, running := created, created;
      }
      if handle {
        if c in clients {
          ok := true;
        } else if pushed {
          clients := clients + [c];
          ok := true;
        }
      }
      if ok { log := log + [Started(c)]; }
    }

    method SignalEndWorker(c: nat) returns (okToJoin: bool)
      modifies this
      ensures (View(), okToJoin) == SignalEnd(old(View()), c)
    {
      var k := 0;
      while k < |clients| && clients[k] != c
        invariant 0 <= k <= |clients| && View() == old(View())
        invariant IndexOf(clients, c, k) == IndexOf(clients, c, 0)
      {
        k := k + 1;
      }
      if k < |clients| { clients := RemoveAt(clients, k); }
      log := log + [Ended(c)];
      okToJoin := handle && clients == [];
      if okToJoin { stop := true; }
    }

    method WaitWorker()
      modifies this
      ensures View() == Join(old(View()))
    {
      if handle && !running { handle := false; }
    }

    method WorkerRound()
      modifies this
      ensures View() == Round(old(View()))
    {
      if running {
        if stop { running := false; } else { works := works + 1; }
      }
    }

    /** The first half of IoTHubTransport_Destroy. */
    method SignalDestroy()
      modifies this
      ensures View() == old(View()).(destroying := true, stop := true)
    {
      destroying, stop := true, true;
    }

    /** The second half, once the join has returned. */
    method DestroyLowLevel()
      requires destroying && !running
      modifies this
      ensures View() == Join(old(View())).(lowLevel := false)
    {
      WaitWorker();
      lowLevel := false;
    }

    method Step(op: Op)
      modifies this
      ensures View() == Apply(old(View()), op)
    {
      hide StartWorker, SignalEnd, Join, Round;
      match op {
        case DoStart(c, created, pushed) => if !destroying { var _ := StartWorkerIfNeeded(c, created, pushed); }
        case DoSignal(c) => var _ := SignalEndWorker(c);
        case DoJoin => WaitWorker();
        case DoRound => WorkerRound();
        case BeginDestroy => SignalDestroy();
        case FinishDestroy => if destroying && !running { DestroyLowLevel(); }
      }
    }

    /** Any sequence of calls and worker rounds is a run of the model, so its theorems hold of the object. */
    method Run(ops: seq<Op>)
      modifies this
      ensures View() == Exec(old(View()), ops)
    {
      hide Apply;
      var k := 0;
      while k < |ops|
        invariant 0 <= k <= |ops| && View() == Exec(old(View()), ops[..k])
      {
        Step(ops[k]);
        k := k + 1;
        assert ops[..k][..k - 1] == ops[..k - 1];
      }
      assert ops[..k] == ops;
    }
  }
}
