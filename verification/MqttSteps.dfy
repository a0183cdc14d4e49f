/** What single operations do, in every run of a device over MQTT. */
module MqttSteps {
  import opened Clock
  import opened Lists
  import opened MqttDevice
  import opened MqttRuns
  import opened MqttTheorems
  import C = Connection
  import L = TelemetryLaws
  import PacketIds
  import R = Results
  import T = Telemetry
  import W = Twin

  // ---------------------------------------------------------------------------
  // Every confirmation has its cause
  // ---------------------------------------------------------------------------

  /** The results with which an operation may confirm messages. */
  function ResultsOf(op: Op): (results: set<T.Confirmation>)
  {
    match op
    case DoWork(_) => {T.MessageTimeout, T.Error}
    case PubAck(_) => {T.Ok}
    case Destroy => {T.BecauseDestroy}
    case _ => {}
  }

  lemma WorkAdds(s: State, env: WorkEnv)
    ensures R.Adds(s.tele.done, Work(s, env).tele.done, {T.MessageTimeout, T.Error})
  {
    hide R.Adds, T.TimeoutWalk, T.ResendWalk, T.PublishWalk, W.ProcessWalk, W.Retrieve, C.Initialize;
    var results := {T.MessageTimeout, T.Error};
    R.AddsNothing(s.tele.done, results);
    if env.timeoutClock.Some? {
      R.TimeoutAdds(s.tele, 0, env.timeoutClock.value);
      R.AddsWider(s.tele.done, T.TimeoutWalk(s.tele, 0, env.timeoutClock.value).done, {T.MessageTimeout}, results);
    }
    var s2 := DoReports(DoTimeouts(s, env.timeoutClock), env.reports);
    PhaseAdds(s2.(conn := C.Initialize(s2.conn, env.connect).0, bound := true), env);
    R.AddsNothing(s2.tele.done, results);
    R.AddsMore(s.tele.done, s2.tele.done, DoTransport(s2, env).tele.done, results);
  }

  lemma PhaseAdds(s: State, env: WorkEnv)
    ensures R.Adds(s.tele.done, DoPhase(s, env).tele.done, {T.MessageTimeout, T.Error})
  {
    hide R.Adds, T.ResendWalk, T.PublishWalk, W.Retrieve;
    var results := {T.MessageTimeout, T.Error};
    R.AddsNothing(s.tele.done, results);
    if s.conn.phase == C.Publish {
      var resent := T.ResendWalk(s.tele, 0, env.visit, s.conn.connected);
      R.ResendAdds(s.tele, 0, env.visit, s.conn.connected);
      R.PublishAdds(resent, 0, env.first, s.conn.connected);
      var published := T.PublishWalk(resent, 0, env.first, s.conn.connected);
      R.AddsWider(resent.done, published.done, {T.Error}, results);
      R.AddsMore(s.tele.done, resent.done, published.done, results);
    }
  }

  lemma {:induction false} DrainTwinConfirmsNone(s: State)
    ensures DrainTwin(s).tele.done == s.tele.done
    decreases |s.twin.awaiting|
  {
    if s.twin.awaiting != [] {
      var item := s.twin.awaiting[0];
      var popped := s.(twin := s.twin.(awaiting := s.twin.awaiting[1..]));
      DrainTwinConfirmsNone(Answered(popped, W.Complete(popped.twin, item.reportId, W.STATUS_CODE_TIMEOUT)));
    }
  }

  lemma DestroyAdds(s: State)
    ensures R.Adds(s.tele.done, DestroyClient(s).tele.done, {T.BecauseDestroy})
  {
    hide R.Adds, T.DrainFlight, T.DrainWaiting, DrainTwin;
    var s0 := s.(conn := C.Disconnected(s.conn));
    R.DrainFlightAdds(s.tele);
    R.AddsNothing(s.tele.done, {T.BecauseDestroy});
    DrainTwinConfirmsNone(s0.(tele := T.DrainFlight(s.tele)));
    var s1 := DestroyTransport(s);
    R.DrainWaitingAdds(s1.tele);
    R.AddsMore(s.tele.done, s1.tele.done, DestroyClient(s).tele.done, {T.BecauseDestroy});
  }

  lemma StepAdds(s: State, op: Op)
    ensures R.Adds(s.tele.done, Apply(s, op).tele.done, ResultsOf(op))
  {
    hide R.Adds, Work, DestroyClient, T.AckWalk, W.Respond;
    R.AddsNothing(s.tele.done, ResultsOf(op));
    if s.live {
      match op {
        case DoWork(env) => WorkAdds(s, env);
        case PubAck(pid) => R.AckAdds(s.tele, 0, pid);
        case Destroy => DestroyAdds(s);
        case _ =>
      }
    }
  }

  /** Confirmation `j` of a run was made by the operation at `k`, which may give such a result. */
  ghost predicate MadeBy(s: State, ops: seq<Op>, j: nat, k: nat)
    requires j < |Exec(s, ops).tele.done|
  {
    && k < |ops| && Exec(s, ops).tele.done[j].result in ResultsOf(ops[k])
    && |Exec(s, ops[..k]).tele.done| <= j < |Exec(s, ops[..k + 1]).tele.done|
    && Exec(s, ops[..k + 1]).tele.done[j] == Exec(s, ops).tele.done[j]
  }

  /**
   * In every run each confirmation was made by an operation that gives its result: OK by a PUBACK,
   * a time-out or an error by a DoWork, and BECAUSE_DESTROY by Destroy.
   */
  lemma {:induction false} ConfirmedBecause(s: State, ops: seq<Op>, j: nat) returns (k: nat)
    requires s.tele.done == [] && j < |Exec(s, ops).tele.done|
    ensures MadeBy(s, ops, j, k)
    decreases |ops|
  {
    hide Apply, R.Adds, ResultsOf;
    var n := |ops| - 1;
    var front, op := ops[..n], ops[n];
    assert ops == front + [op] && ops[..n + 1] == ops;
    var before := Exec(s, front);
    StepAdds(before, op);
    AddsAt(before.tele.done, Exec(s, ops).tele.done, ResultsOf(op), j);
    if j < |before.tele.done| {
      k := ConfirmedBecause(s, front, j);
      assert front[..k] == ops[..k] && front[..k + 1] == ops[..k + 1];
    } else {
      k := n;
    }
  }

  lemma AddsAt(a: seq<T.Completion>, b: seq<T.Completion>, results: set<T.Confirmation>, j: nat)
    requires R.Adds(a, b, results) && j < |b|
    ensures |a| <= |b| && (if j < |a| then a[j] == b[j] else b[j].result in results)
  {
  }

  /**
   * A message is confirmed as delivered only by a PUBACK, and it was then in flight under the packet
   * id that the PUBACK carries.
   */
  lemma OkOnlyByPubAck(user: seq<seq<T.Request>>, uninitialised: Tick, ops: seq<Op>, j: nat)
    returns (k: nat, e: T.Entry)
    requires j < |Exec(Start(user, uninitialised), ops).tele.done|
    requires Exec(Start(user, uninitialised), ops).tele.done[j].result == T.Ok
    ensures k < |ops| && ops[k].PubAck? && e.packetId == ops[k].packetId
    ensures e in Exec(Start(user, uninitialised), ops[..k]).tele.inFlight
    ensures e.message == Exec(Start(user, uninitialised), ops).tele.done[j].message
  {
    var s := Start(user, uninitialised);
    k := ConfirmedBecause(s, ops, j);
    assert ops[..k + 1] == ops[..k] + [ops[k]];
    ExecOne(s, ops[..k], ops[k]);
    hide Exec;
    e := AckConfirms(Exec(s, ops[..k]), ops[k], j);
    hide Apply;
  }

  /** What a PUBACK adds to the confirmations was in flight under its packet id. */
  lemma AckConfirms(s: State, op: Op, j: nat) returns (e: T.Entry)
    requires op.PubAck? && |s.tele.done| <= j < |Apply(s, op).tele.done|
    ensures e in s.tele.inFlight && e.packetId == op.packetId && e.message == Apply(s, op).tele.done[j].message
  {
    hide T.AckWalk;
    var t := s.tele;
    assert t.inFlight[0..] == t.inFlight;
    L.AckDecides(t, 0, op.packetId);
    L.SelectMember(t.inFlight, op.packetId, true);
    e := L.Select(t.inFlight, op.packetId, true)[j - |t.done|];
  }

  /** Destroy confirms as destroyed everything it confirms, and nothing is confirmed otherwise. */
  lemma DestroyTells(user: seq<seq<T.Request>>, uninitialised: Tick, ops: seq<Op>)
    requires Destroy !in ops
    ensures
      var done := Exec(Start(user, uninitialised), ops).tele.done;
      var done' := Exec(Start(user, uninitialised), ops + [Destroy]).tele.done;
      done <= done' && forall j :: |done| <= j < |done'| ==> done'[j].result == T.BecauseDestroy
  {
    ExecOne(Start(user, uninitialised), ops, Destroy);
    StepAdds(Exec(Start(user, uninitialised), ops), Destroy);
    hide Exec, Apply;
  }

  // ---------------------------------------------------------------------------
  // DoWork
  // ---------------------------------------------------------------------------

  lemma WorkTwin(s: State, env: WorkEnv)
    ensures
      var w := DoReports(DoTimeouts(s, env.timeoutClock), env.reports).twin;
      var w' := Work(s, env).twin;
      && w'.queue == w.queue && w'.acks == w.acks && w'.sent == w.sent && w'.dropped == w.dropped
  {
    hide T.TimeoutWalk, T.ResendWalk, T.PublishWalk, W.ProcessWalk, C.Initialize;
  }

  /**
   * A DoWork that finds the transport publishing publishes every queued report whose publication is
   * accepted, in order, and drops the others; in any other state it leaves the reports alone.
   */
  lemma WorkReports(user: seq<seq<T.Request>>, uninitialised: Tick, ops: seq<Op>, env: WorkEnv)
    requires Destroy !in ops
    ensures
      var s := Exec(Start(user, uninitialised), ops);
      var w, w' := s.twin, Exec(Start(user, uninitialised), ops + [DoWork(env)]).twin;
      if s.conn.phase == C.Publish then
        && w'.queue == []
        && w'.acks == w.acks + W.Chosen(w.queue, env.reports, true)
        && W.Payloads(w'.sent) == W.Payloads(w.sent) + W.Chosen(w.queue, env.reports, true)
        && w'.dropped == w.dropped + W.Chosen(w.queue, env.reports, false)
      else
        w'.queue == w.queue && w'.acks == w.acks && w'.sent == w.sent && w'.dropped == w.dropped
  {
    hide Exec, T.TimeoutWalk, W.ProcessWalk;
    var s := Exec(Start(user, uninitialised), ops);
    ExecOne(Start(user, uninitialised), ops, DoWork(env));
    LiveUntilDestroy(Start(user, uninitialised), ops);
    WorkTwin(s, env);
    hide Work;
    var stage := W.Stage(s.twin, DoTimeouts(s, env.timeoutClock).tele.ids);
    W.ProcessDecides(stage, env.reports, s.conn.connected);
  }

  /**
   * The DoWork after a SUBACK asks for the twin if a twin topic exists and it has not asked since the last
   * reset: the request is then awaited under a packet id of its own, and it is not repeated.
   */
  lemma WorkRetrieves(user: seq<seq<T.Request>>, uninitialised: Tick, ops: seq<Op>, env: WorkEnv)
    requires Destroy !in ops && env.retrieve == W.Accepted
    requires
      var c := C.Initialize(Exec(Start(user, uninitialised), ops).conn, env.connect);
      c.1 && c.0.phase == C.SubAck && (C.GetState in c.0.topics || C.NotifyState in c.0.topics)
    ensures
      var s, s' := Exec(Start(user, uninitialised), ops), Exec(Start(user, uninitialised), ops + [DoWork(env)]);
      var asked := C.Initialize(s.conn, env.connect).0.getSent;
      && s'.conn.getSent && s'.conn.phase == C.Publish
      && s'.twin.awaiting == s.twin.awaiting +
           (if asked then [] else [W.Item(s'.tele.ids.current, 0, W.RetrieveProperties)])
  {
    var s := Exec(Start(user, uninitialised), ops);
    ExecOne(Start(user, uninitialised), ops, DoWork(env));
    LiveUntilDestroy(Start(user, uninitialised), ops);
    InitializePhase(s.conn, env.connect);
    hide Exec, T.TimeoutWalk, T.ResendWalk, T.PublishWalk, W.ProcessWalk, C.Initialize;
  }

  lemma InitializePhase(c: C.State, env: C.ConnectEnv)
    ensures C.Initialize(c, env).0.phase == c.phase || C.Initialize(c, env).0.phase == C.Unknown
  {
  }

  /** What the two queue loops of DoWork start from: the wait list without its expired messages. */
  lemma WaitingAfterTimeouts(t: T.State, clock: Option<Tick>, m: T.Message)
    requires m in t.waiting && (clock.Some? ==> !T.Expired(m, clock.value))
    ensures m in (if clock.None? then t else T.TimeoutWalk(t, 0, clock.value)).waiting
  {
    var k :| 0 <= k < |t.waiting| && t.waiting[k] == m;
    if clock.Some? { L.TimeoutDecides(t, 0, clock.value, k); }
  }

  /** The message is where its payload and the outcome of a first publication say. */
  lemma PassPlaces(t: T.State, env: WorkEnv, connected: bool, m: T.Message)
    requires m in t.waiting
    ensures
      var resent := T.ResendWalk(t, 0, env.visit, connected);
      L.Placed(m, false, env.first(m.id), T.PublishWalk(resent, 0, env.first, connected))
  {
    hide T.ResendWalk, T.PublishWalk, L.Placed, L.Survivors, L.Casualties;
    L.ResendDecides(t, 0, env.visit, connected);
    var resent := T.ResendWalk(t, 0, env.visit, connected);
    var k :| 0 <= k < |resent.waiting| && resent.waiting[k] == m;
    L.PublishDecides(resent, 0, env.first, connected, k);
  }

  /**
   * A DoWork that publishes takes every waiting message that has not expired as its outcome says:
   * without payload or memory it stays, refused it is confirmed as failed, published it is in flight.
   */
  lemma WorkPublishes(user: seq<seq<T.Request>>, uninitialised: Tick, ops: seq<Op>, env: WorkEnv, m: T.Message)
    requires Destroy !in ops && Publishes(Exec(Start(user, uninitialised), ops), env)
    requires m in Exec(Start(user, uninitialised), ops).tele.waiting
    requires env.timeoutClock.Some? ==> !T.Expired(m, env.timeoutClock.value)
    ensures L.Placed(m, false, env.first(m.id), Exec(Start(user, uninitialised), ops + [DoWork(env)]).tele)
  {
    hide Exec, L.Placed, T.ResendWalk, T.PublishWalk, Publishes, Apply;
    var s := Exec(Start(user, uninitialised), ops);
    ExecOne(Start(user, uninitialised), ops, DoWork(env));
    LiveUntilDestroy(Start(user, uninitialised), ops);
    WorkTele(s, env);
    WaitingAfterTimeouts(s.tele, env.timeoutClock, m);
    AfterReports(s, env);
    hide DoTimeouts, DoReports;
    PassPlaces(DoReports(DoTimeouts(s, env.timeoutClock), env.reports).tele, env,
               C.Initialize(s.conn, env.connect).0.connected, m);
  }

  lemma AfterReports(s: State, env: WorkEnv)
    ensures DoReports(DoTimeouts(s, env.timeoutClock), env.reports).tele.waiting ==
            (if env.timeoutClock.None? then s.tele else T.TimeoutWalk(s.tele, 0, env.timeoutClock.value)).waiting
    ensures DoReports(DoTimeouts(s, env.timeoutClock), env.reports).tele.done ==
            (if env.timeoutClock.None? then s.tele else T.TimeoutWalk(s.tele, 0, env.timeoutClock.value)).done
  {
    hide T.TimeoutWalk, W.ProcessWalk;
  }

  /** Whatever the transport does afterwards, the confirmations of DoTimeouts stand. */
  lemma WorkKeepsDone(s: State, env: WorkEnv)
    ensures
      var t := if env.timeoutClock.None? then s.tele else T.TimeoutWalk(s.tele, 0, env.timeoutClock.value);
      t.done <= Work(s, env).tele.done
  {
    AfterReports(s, env);
    hide T.TimeoutWalk, DoTimeouts, DoReports, DoPhase;
    var s2 := DoReports(DoTimeouts(s, env.timeoutClock), env.reports);
    PhaseAdds(s2.(conn := C.Initialize(s2.conn, env.connect).0, bound := true), env);
  }

  /** A waiting message that is not expired is still waiting after a DoWork that does not publish. */
  lemma WorkLeavesWaiting(s: State, env: WorkEnv, m: T.Message)
    requires !Publishes(s, env) && m in s.tele.waiting
    requires env.timeoutClock.Some? ==> !T.Expired(m, env.timeoutClock.value)
    ensures m in Work(s, env).tele.waiting
  {
    AfterReports(s, env);
    WaitingAfterTimeouts(s.tele, env.timeoutClock, m);
    EarlierKeepsConn(s, env);
    hide DoTimeouts, DoReports, T.TimeoutWalk, C.Initialize, W.Retrieve, C.SendSubscribe, T.TakeId;
    var s2 := DoReports(DoTimeouts(s, env.timeoutClock), env.reports);
    assert s2.tele.waiting == T.TakeId(s2.tele).waiting by { TakeIdWaiting(s2.tele); }
  }

  lemma TakeIdWaiting(t: T.State)
    ensures T.TakeId(t).waiting == t.waiting
  {
  }

  /**
   * A DoWork whose clock reading succeeds confirms a waiting message as timed out exactly when it is
   * expired at that reading; without a reading it times out no waiting message.
   */
  lemma WorkTimeouts(user: seq<seq<T.Request>>, uninitialised: Tick, ops: seq<Op>, env: WorkEnv, m: T.Message)
    requires Destroy !in ops && m in Exec(Start(user, uninitialised), ops).tele.waiting
    ensures
      var t' := Exec(Start(user, uninitialised), ops + [DoWork(env)]).tele;
      T.Completion(m, T.MessageTimeout) in t'.done <==>
      env.timeoutClock.Some? && T.Expired(m, env.timeoutClock.value)
  {
    var s := Exec(Start(user, uninitialised), ops);
    var s' := Exec(Start(user, uninitialised), ops + [DoWork(env)]);
    ExecOne(Start(user, uninitialised), ops, DoWork(env));
    LiveUntilDestroy(Start(user, uninitialised), ops);
    AnyRunKeeps(user, uninitialised, ops + [DoWork(env)]);
    TeleOf(s', Mode(false, false, false, 0));
    hide Exec, Inv, Work, Publishes;
    if env.timeoutClock.Some? && T.Expired(m, env.timeoutClock.value) {
      var k :| 0 <= k < |s.tele.waiting| && s.tele.waiting[k] == m;
      L.TimeoutDecides(s.tele, 0, env.timeoutClock.value, k);
      WorkKeepsDone(s, env);
      hide T.TimeoutWalk;
    } else {
      if Publishes(s, env) {
        WorkPublishes(user, uninitialised, ops, env, m);
      } else {
        WorkLeavesWaiting(s, env, m);
      }
      NotTimedOut(s'.tele, m, env.first(m.id), Publishes(s, env));
    }
  }

  lemma NotTimedOut(t: T.State, m: T.Message, o: T.FirstOutcome, published: bool)
    requires L.Conserved(t) && L.Identified(t) && (if published then L.Placed(m, false, o, t) else m in t.waiting)
    ensures T.Completion(m, T.MessageTimeout) !in t.done
  {
    hide L.Conserved, L.Identified;
    if T.Completion(m, T.MessageTimeout) in t.done {
      ConfirmedOnce(t, m, T.MessageTimeout, T.Error);
    }
  }

  /**
   * The response to a published report runs the application's callback exactly if the report asked for one,
   * and a second response to the same request does nothing.
   */
  lemma ResponseCallsBack(user: seq<seq<T.Request>>, uninitialised: Tick, ops: seq<Op>, rid: nat, status: int)
    requires Destroy !in ops
    ensures
      var s := Exec(Start(user, uninitialised), ops);
      var s' := Exec(Start(user, uninitialised), ops + [TwinResponse(rid, status)]);
      var n := |s.twin.answered|;
      && n <= |s'.twin.answered| <= n + 1
      && (if |s'.twin.answered| > n && s'.twin.answered[n].report.notify
          then s'.tele == T.Callback(s.tele) && s'.twin.answered[n].status == status
          else s'.tele == s.tele)
  {
    ExecOne(Start(user, uninitialised), ops, TwinResponse(rid, status));
    LiveUntilDestroy(Start(user, uninitialised), ops);
    hide Exec, T.Callback;
  }

  // ---------------------------------------------------------------------------
  // Submitting
  // ---------------------------------------------------------------------------

  /**
   * SendEventAsync accepts a request exactly if it is valid and the resources are there; the record it
   * appends carries the request's payload, wants a callback exactly if the request did, and gets its
   * deadline from the last timeout set.
   */
  lemma SendEventAppends(user: seq<seq<T.Request>>, uninitialised: Tick, ops: seq<Op>, timeout: Tick, r: T.Request)
    requires Destroy !in ops
    ensures
      var t := Exec(Start(user, uninitialised), ops).tele;
      var t' := Exec(Start(user, uninitialised), ops + [SetMessageTimeout(timeout)] + [SendEvent(r)]).tele;
      if r.payload.Some? && (r.callback || !r.context) && r.memory && (timeout == 0 || r.clock.Some?) then
        && |t'.accepted| == |t.accepted| + 1 && t'.waiting == t.waiting + [t'.accepted[|t.accepted|]]
        && t'.accepted[|t.accepted|].payload == r.payload.value && t'.accepted[|t.accepted|].notify == r.callback
        && t'.accepted[|t.accepted|].deadline == (if timeout == 0 then 0 else (r.clock.value + timeout) % U64)
      else t'.waiting == t.waiting && t'.accepted == t.accepted
  {
    ExecOne(Start(user, uninitialised), ops, SetMessageTimeout(timeout));
    ExecOne(Start(user, uninitialised), ops + [SetMessageTimeout(timeout)], SendEvent(r));
    LiveUntilDestroy(Start(user, uninitialised), ops);
    hide Exec;
  }

  /** SendReportedState queues the report, last, exactly if its memory and both twin topics can be had. */
  lemma SendReportQueues(user: seq<seq<T.Request>>, uninitialised: Tick, ops: seq<Op>,
                         notify: bool, memory: bool, getMemory: bool, notifyMemory: bool)
    requires Destroy !in ops
    ensures
      var s := Exec(Start(user, uninitialised), ops);
      var s' := Exec(Start(user, uninitialised), ops + [SendReport(notify, memory, getMemory, notifyMemory)]);
      if memory && (C.GetState in s.conn.topics || getMemory) && (C.NotifyState in s.conn.topics || notifyMemory) then
        && |s'.twin.submitted| == |s.twin.submitted| + 1
        && s'.twin.queue == s.twin.queue + [s'.twin.submitted[|s.twin.submitted|]]
        && s'.twin.submitted[|s.twin.submitted|].notify == notify
        && {C.GetState, C.NotifyState} <= s'.conn.topics
      else s'.twin.queue == s.twin.queue && s'.twin.submitted == s.twin.submitted
  {
    ExecOne(Start(user, uninitialised), ops, SendReport(notify, memory, getMemory, notifyMemory));
    LiveUntilDestroy(Start(user, uninitialised), ops);
    hide Exec;
  }

  lemma {:induction false} DrainCounters(w: W.State)
    ensures W.Counters(W.DrainAwaiting(w)) == W.Counters(w)
    decreases |w.awaiting|
  {
    if w.awaiting != [] {
      DrainCounters(W.Complete(w.(awaiting := w.awaiting[1..]), w.awaiting[0].reportId, W.STATUS_CODE_TIMEOUT));
    }
  }

  lemma WorkCounters(s: State, env: WorkEnv)
    ensures W.Counters(Work(s, env).twin) == W.Counters(s.twin)
  {
    ReportsCounters(DoTimeouts(s, env.timeoutClock), env);
    TransportCounters(DoReports(DoTimeouts(s, env.timeoutClock), env.reports), env);
    hide DoReports, DoTransport, T.TimeoutWalk;
  }

  lemma ReportsCounters(s: State, env: WorkEnv)
    ensures W.Counters(DoReports(s, env.reports).twin) == W.Counters(s.twin)
  {
    W.ProcessDecides(W.Stage(s.twin, s.tele.ids), env.reports, s.conn.connected);
    hide W.ProcessWalk;
  }

  lemma TransportCounters(s: State, env: WorkEnv)
    ensures W.Counters(DoTransport(s, env).twin) == W.Counters(s.twin)
  {
    hide T.ResendWalk, T.PublishWalk, C.Initialize, C.SendSubscribe;
  }

  lemma DestroyCounters(s: State, mode: Mode)
    requires Inv(s, mode) && s.live
    ensures W.Counters(DestroyClient(s).twin) == W.Counters(s.twin)
  {
    DestroyTransportKeeps(s, mode);
    DrainCounters(s.twin);
    hide Inv, DestroyTransport, W.DrainAwaiting, T.DrainWaiting;
  }

  lemma RespondCounters(w: W.State, rid: nat, status: int)
    ensures W.Counters(W.Respond(w, rid, status)) == W.Counters(w)
  {
  }

  lemma StepCounters(s: State, op: Op, mode: Mode)
    requires Inv(s, mode) && !op.SendReport?
    ensures W.Counters(Apply(s, op).twin) == W.Counters(s.twin)
  {
    hide Work, DestroyClient, W.Respond, Inv;
    if s.live {
      match op {
        case DoWork(env) => WorkCounters(s, env);
        case Destroy => DestroyCounters(s, mode);
        case TwinResponse(rid, status) => RespondCounters(s.twin, rid, status);
        case _ =>
      }
    }
  }

  lemma SameNumbers(w: W.State, w': W.State)
    requires W.Numbered(w) && W.Counters(w') == W.Counters(w)
    ensures W.Numbered(w')
  {
  }

  lemma StepNumbered(s: State, op: Op, mode: Mode)
    requires Inv(s, mode) && W.Numbered(s.twin)
    ensures W.Numbered(Apply(s, op).twin)
  {
    hide Inv, W.Numbered;
    if op.SendReport? {
      W.EnqueueNumbered(s.twin, op.notify, op.memory && C.TwinSubscribed(s.conn, op.getMemory, op.notifyMemory));
      hide W.Enqueue;
    } else {
      StepCounters(s, op, mode);
      SameNumbers(s.twin, Apply(s, op).twin);
    }
  }

  lemma {:induction false} RunNumbered(user: seq<seq<T.Request>>, uninitialised: Tick, ops: seq<Op>)
    ensures W.Numbered(Exec(Start(user, uninitialised), ops).twin)
    decreases |ops|
  {
    if ops != [] {
      var n := |ops| - 1;
      RunNumbered(user, uninitialised, ops[..n]);
      AnyRunKeeps(user, uninitialised, ops[..n]);
      hide Inv, Apply, W.Numbered;
      StepNumbered(Exec(Start(user, uninitialised), ops[..n]), ops[n], Mode(false, false, false, 0));
    }
  }

  /** In every run two reports whose ids were drawn less than 4294967294 draws apart have different ids. */
  lemma ReportIdsDistinct(user: seq<seq<T.Request>>, uninitialised: Tick, ops: seq<Op>, j: nat, k: nat)
    requires j < k < |Exec(Start(user, uninitialised), ops).twin.submitted|
    ensures
      var reports := Exec(Start(user, uninitialised), ops).twin.submitted;
      && 1 <= reports[j].id <= 4294967294 && reports[j].draw < reports[k].draw
      && (reports[k].draw - reports[j].draw < 4294967294 ==> reports[j].id != reports[k].id)
  {
    hide Exec;
    RunNumbered(user, uninitialised, ops);
    var reports := Exec(Start(user, uninitialised), ops).twin.submitted;
    if reports[k].draw - reports[j].draw < 4294967294 { PacketIds.ItemsDistinct(reports[j].draw, reports[k].draw); }
  }

  // ---------------------------------------------------------------------------
  // Connection
  // ---------------------------------------------------------------------------

  /** A lost connection is noticed at once: nothing is published until the transport has connected again. */
  lemma LinkLost(user: seq<seq<T.Request>>, uninitialised: Tick, ops: seq<Op>, op: Op)
    requires op.Disconnected? || op.ConnectionFailed? || op == ConnAcked(false) || op.ChangeKeepAlive? || op.Destroy?
    requires Destroy !in ops
    ensures
      var c := Exec(Start(user, uninitialised), ops + [op]).conn;
      && !c.connected && c.phase != C.Publish
      && (op.ConnectionFailed? ==> c.topics <= c.pending && c.handed == {} && !c.getSent)
  {
    AnyRunKeeps(user, uninitialised, ops);
    ExecOne(Start(user, uninitialised), ops, op);
    LiveUntilDestroy(Start(user, uninitialised), ops);
    hide Exec, Inv;
    LinkLostNow(Exec(Start(user, uninitialised), ops), op, Mode(false, false, false, 0));
    hide Apply;
  }

  lemma LinkLostNow(s: State, op: Op, mode: Mode)
    requires op.Disconnected? || op.ConnectionFailed? || op == ConnAcked(false) || op.ChangeKeepAlive? || op.Destroy?
    requires Inv(s, mode) && s.live
    ensures
      var c := Apply(s, op).conn;
      && !c.connected && c.phase != C.Publish
      && (op.ConnectionFailed? ==> c.topics <= c.pending && c.handed == {} && !c.getSent)
  {
    if op.Destroy? { DestroyDisconnects(s, mode); }
    hide L.Good, W.Good, Bound, DestroyClient, C.Covered, C.Clocked, C.Backed;
  }

  lemma DestroyDisconnects(s: State, mode: Mode)
    requires Inv(s, mode) && s.live
    ensures !DestroyClient(s).conn.connected && DestroyClient(s).conn.phase == C.Disconnect
  {
    L.DrainFlightKeeps(s.tele, Tele(mode));
    DrainTwinIs(s.(conn := C.Disconnected(s.conn), tele := T.DrainFlight(s.tele)), mode);
    hide DrainTwin, T.DrainFlight, T.DrainWaiting, L.Good;
  }

  /** The topics an operation asks for, or gives up. */
  function TopicsOf(op: Op): (topics: set<C.Topic>)
  {
    match op
    case SubscribeMessages(_) => {C.Messages}
    case UnsubscribeMessages => {C.Messages}
    case SubscribeTwin(_, _) => {C.GetState, C.NotifyState}
    case UnsubscribeTwin => {C.GetState, C.NotifyState}
    case SubscribeMethods(_) => {C.DeviceMethods}
    case UnsubscribeMethods => {C.DeviceMethods}
    case _ => {}
  }

  /** Subscribing, when memory suffices, makes the topics exist and the new ones pending. */
  lemma SubscribingAdds(user: seq<seq<T.Request>>, uninitialised: Tick, ops: seq<Op>, op: Op)
    requires Destroy !in ops
    requires op == SubscribeMessages(true) || op == SubscribeTwin(true, true) || op == SubscribeMethods(true)
    ensures
      var c, c' := Exec(Start(user, uninitialised), ops).conn, Exec(Start(user, uninitialised), ops + [op]).conn;
      c'.topics == c.topics + TopicsOf(op) && c'.pending >= c.pending + (TopicsOf(op) - c.topics)
  {
    ExecOne(Start(user, uninitialised), ops, op);
    LiveUntilDestroy(Start(user, uninitialised), ops);
    hide Exec;
  }

  /** Unsubscribing drops the topics and their bits. */
  lemma UnsubscribingDrops(user: seq<seq<T.Request>>, uninitialised: Tick, ops: seq<Op>, op: Op)
    requires Destroy !in ops && (op.UnsubscribeMessages? || op.UnsubscribeTwin? || op.UnsubscribeMethods?)
    ensures
      var c, c' := Exec(Start(user, uninitialised), ops).conn, Exec(Start(user, uninitialised), ops + [op]).conn;
      && c'.topics == c.topics - TopicsOf(op)
      && (op.UnsubscribeMethods? ==> C.DeviceMethods in c.topics ==> C.DeviceMethods !in c'.pending)
      && (!op.UnsubscribeMethods? ==> c'.pending == c.pending - TopicsOf(op))
  {
    ExecOne(Start(user, uninitialised), ops, op);
    LiveUntilDestroy(Start(user, uninitialised), ops);
    hide Exec;
  }

  /** What DoWork makes of the connection; the queues have no say in it. */
  function ConnAfter(c: C.State, env: WorkEnv): (c': C.State)
  {
    var (c1, ok) := C.Initialize(c, env.connect);
    if !ok then c1
    else match c1.phase
      case ConnAck => C.SendSubscribe(c1, env.subscribed)
      case Subscribe => C.SendSubscribe(c1, env.subscribed)
      case SubAck =>
        var ask := (C.NotifyState in c1.topics || C.GetState in c1.topics) && !c1.getSent;
        c1.(getSent := if ask then env.retrieve == W.Accepted else c1.getSent, phase := C.Publish)
      case _ => c1
  }

  lemma WorkConn(s: State, env: WorkEnv)
    ensures Work(s, env).conn == ConnAfter(s.conn, env)
  {
    EarlierKeepsConn(s, env);
    hide DoTimeouts, DoReports, T.ResendWalk, T.PublishWalk, W.Retrieve, C.Initialize, C.SendSubscribe;
  }

  lemma EarlierKeepsConn(s: State, env: WorkEnv)
    ensures DoReports(DoTimeouts(s, env.timeoutClock), env.reports).conn == s.conn
  {
    hide T.TimeoutWalk, W.ProcessWalk;
  }

  /** The clock and the network let this DoWork connect, at `t`, or keep a connection that stands since `t`. */
  predicate KeepsLink(c: C.State, env: C.ConnectEnv, t: Tick)
  {
    && env.refresh.Some? && t <= env.refresh.value && env.refresh.value as int - t as int < 2881000
    && (c.connected ==> c.connectTime == t)
    && (!c.connected ==> !C.HeldBack(c, env) && env.stamp.Some? && env.sent && env.connectedAt == Some(t))
  }

  /** Such a DoWork ends connected since `t`, and InitializeConnection reports success without touching the rest. */
  lemma LinkKept(c: C.State, env: C.ConnectEnv, t: Tick)
    requires KeepsLink(c, env, t)
    ensures
      var (c', ok) := C.Initialize(c, env);
      && ok && c'.connected && c'.connectTime == t && c'.phase == c.phase
      && c'.topics == c.topics && c'.pending == c.pending && c'.handed == c.handed && c'.getSent == c.getSent
  {
  }

  /** An operation during which a connection that stands since `t` goes on standing. */
  predicate Quiet(op: Op, t: Tick)
  {
    && !op.Disconnected? && !op.ConnectionFailed? && !op.ChangeKeepAlive? && !op.Destroy? && op != ConnAcked(false)
    && (op.DoWork? ==>
          && op.env.connect.refresh.Some? && t <= op.env.connect.refresh.value
          && op.env.connect.refresh.value as int - t as int < 2881000)
  }

  /** A connection made at `t` stands until 2881 s later, unless it is lost or given up. */
  lemma {:induction false} StandsUntilRefresh(s: State, later: seq<Op>, t: Tick)
    requires s.live && s.conn.connected && s.conn.connectTime == t
    requires forall k :: 0 <= k < |later| ==> Quiet(later[k], t)
    ensures Exec(s, later).live && Exec(s, later).conn.connected && Exec(s, later).conn.connectTime == t
    decreases |later|
  {
    if later != [] {
      var n := |later| - 1;
      StandsUntilRefresh(s, later[..n], t);
      QuietStands(Exec(s, later[..n]), later[n], t);
    }
  }

  lemma QuietStands(s: State, op: Op, t: Tick)
    requires s.live && s.conn.connected && s.conn.connectTime == t && Quiet(op, t)
    ensures Apply(s, op).live && Apply(s, op).conn.connected && Apply(s, op).conn.connectTime == t
  {
    OnlyDestroyEnds(s, op);
    if op.DoWork? {
      WorkConn(s, op.env);
      LinkKept(s.conn, op.env.connect, t);
    }
    hide Work, T.AckWalk, T.Submit, T.TakeId, Answered, DestroyClient, W.Enqueue, W.Respond, C.Initialize;
  }

  /**
   * A device that connects gets to publish: after CONNECT, an accepted CONNACK, a SUBSCRIBE that goes out and
   * its SUBACK, the transport is connected and publishing, and every topic has been handed to the MQTT client.
   */
  lemma ConnectsToPublish(user: seq<seq<T.Request>>, uninitialised: Tick, ops: seq<Op>,
                          first: WorkEnv, second: WorkEnv, third: WorkEnv, t: Tick)
    requires Destroy !in ops && MaskSafeRun(Start(user, uninitialised), ops)
    requires
      var c := Exec(Start(user, uninitialised), ops).conn;
      !c.connected && KeepsLink(c, first.connect, t) && second.subscribed
    requires Quiet(DoWork(second), t) && Quiet(DoWork(third), t)
    ensures
      var s := Exec(Start(user, uninitialised), ops);
      var c := Exec(s, [DoWork(first), ConnAcked(true), DoWork(second), SubAcked, DoWork(third)]).conn;
      c.connected && c.phase == C.Publish && c.pending == {} && c.topics <= c.handed
  {
    var s := Exec(Start(user, uninitialised), ops);
    MaskBacked(user, uninitialised, ops);
    LiveUntilDestroy(Start(user, uninitialised), ops);
    ExecFive(s, DoWork(first), ConnAcked(true), DoWork(second), SubAcked, DoWork(third));
    hide Exec, Apply, MaskSafeRun;
    var s1 := Apply(s, DoWork(first));
    var s2 := Apply(s1, ConnAcked(true));
    var s3 := Apply(s2, DoWork(second));
    var s4 := Apply(s3, SubAcked);
    LinkStep(s, DoWork(first));
    LinkStep(s1, ConnAcked(true));
    LinkStep(s2, DoWork(second));
    LinkStep(s3, SubAcked);
    LinkStep(s4, DoWork(third));
    Handshake(s.conn, first, second, third, t);
  }

  /** The connection part of the operations of a handshake. */
  lemma LinkStep(s: State, op: Op)
    requires s.live
    ensures Apply(s, op).live || op.Destroy?
    ensures op.DoWork? ==> Apply(s, op).conn == ConnAfter(s.conn, op.env)
    ensures op == ConnAcked(true) ==> Apply(s, op).conn == s.conn.(phase := C.ConnAck)
    ensures op.SubAcked? ==> Apply(s, op).conn == s.conn.(phase := C.SubAck)
  {
    OnlyDestroyEnds(s, op);
    if op.DoWork? { WorkConn(s, op.env); }
    hide Work, ConnAfter;
  }

  lemma Handshake(c: C.State, first: WorkEnv, second: WorkEnv, third: WorkEnv, t: Tick)
    requires c.pending <= c.topics <= c.pending + c.handed && KeepsLink(c, first.connect, t) && second.subscribed
    requires Quiet(DoWork(second), t) && Quiet(DoWork(third), t)
    ensures
      var c2 := ConnAfter(c, first).(phase := C.ConnAck);
      var c4 := ConnAfter(c2, second).(phase := C.SubAck);
      var c5 := ConnAfter(c4, third);
      c5.connected && c5.phase == C.Publish && c5.pending == {} && c5.topics <= c5.handed
  {
    LinkKept(c, first.connect, t);
    AfterFirst(c, first, t);
    var c2 := ConnAfter(c, first).(phase := C.ConnAck);
    LinkKept(c2, second.connect, t);
    if c2.pending != {} { C.SubscribeClears(C.Initialize(c2, second.connect).0, true); }
    hide C.Initialize, C.Filters;
    var c4 := ConnAfter(c2, second).(phase := C.SubAck);
    assert c4.connected && c4.connectTime == t && c4.pending == {} && c4.topics <= c4.handed;
    LinkKept(c4, third.connect, t);
  }

  lemma AfterFirst(c: C.State, env: WorkEnv, t: Tick)
    requires c.pending <= c.topics <= c.pending + c.handed && KeepsLink(c, env.connect, t)
    ensures
      var c' := ConnAfter(c, env);
      c'.connected && c'.connectTime == t && c'.pending <= c'.topics <= c'.pending + c'.handed
  {
    LinkKept(c, env.connect, t);
    hide C.Initialize;
  }

  lemma ExecFive(s: State, a: Op, b: Op, c: Op, d: Op, e: Op)
    ensures Exec(s, [a, b, c, d, e]) == Apply(Apply(Apply(Apply(Apply(s, a), b), c), d), e)
  {
    ExecOne(s, [], a);
    ExecOne(s, [a], b);
    ExecOne(s, [a, b], c);
    ExecOne(s, [a, b, c], d);
    ExecOne(s, [a, b, c, d], e);
    assert [] + [a] == [a] && [a] + [b] == [a, b] && [a, b] + [c] == [a, b, c];
    assert [a, b, c] + [d] == [a, b, c, d] && [a, b, c, d] + [e] == [a, b, c, d, e];
    assert Exec(s, []) == s;
    hide Exec, Apply;
  }
}
