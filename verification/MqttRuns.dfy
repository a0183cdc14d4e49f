/** What holds in every run of a device over MQTT. */
module MqttRuns {
  import opened Clock
  import opened Lists
  import opened MqttDevice
  import C = Connection
  import L = TelemetryLaws
  import PacketIds
  import T = Telemetry
  import W = Twin

  /**
   * Assumptions a run may additionally satisfy: `ordered`, no allocation failure while
   * publishing; `timed`, a working monotone clock; `masked`, no allocation failure in a
   * Subscribe whose topic is still pending.
   */
  datatype Mode = Mode(ordered: bool, timed: bool, masked: bool, clock: Tick)

  function Tele(mode: Mode): (m: L.Mode)
  {
    L.Mode(mode.ordered, mode.timed, mode.clock)
  }

  ghost predicate Bound(s: State)
  {
    && (s.tele.inFlight != [] || s.twin.awaiting != [] || s.conn.phase == C.Publish ==> s.bound)
    && (!s.live ==>
          s.tele.waiting == [] && s.tele.inFlight == [] &&
          s.twin.queue == [] && s.twin.acks == [] && s.twin.awaiting == [])
  }

  ghost predicate Linked(c: C.State, mode: Mode)
  {
    C.Sound(c) && (mode.masked ==> C.Backed(c)) && (mode.timed ==> C.Clocked(c, mode.clock))
  }

  ghost predicate Inv(s: State, mode: Mode)
  {
    L.Good(s.tele, Tele(mode)) && W.Good(s.twin) && Linked(s.conn, mode) && Bound(s)
  }

  /** The clock readings of one operation lie between `lo` and `hi`. */
  ghost predicate Timed(op: Op, lo: Tick, hi: Tick)
  {
    op.DoWork? ==>
      && C.ClockWorks(op.env.connect, lo, hi)
      && L.VisitsWithin(op.env.visit, lo, hi)
      && L.FirstsWithin(op.env.first, hi)
  }

  ghost predicate Allowed(op: Op, mode: Mode, hi: Tick)
  {
    && mode.clock <= hi
    && (mode.ordered && op.DoWork? ==> L.NeverOutOfMemory(op.env.first))
    && (mode.timed ==> Timed(op, mode.clock, hi))
  }

  /** A Subscribe may only fail to rebuild the topic string while its bit is not pending. */
  ghost predicate MaskSafe(s: State, op: Op)
  {
    s.live && op.SubscribeMessages? ==> op.memory || C.Messages !in s.conn.pending
  }

  // ---------------------------------------------------------------------------
  // Each operation keeps the invariant
  // ---------------------------------------------------------------------------

  lemma TeleLater(t: T.State, mode: L.Mode, hi: Tick)
    requires L.Good(t, mode) && mode.clock <= hi
    ensures L.Good(t, mode.(clock := hi))
  {
    hide L.Conserved, L.Identified, L.Stamped, L.Ordered, L.Times, L.Spaced;
  }

  lemma IdsKeep(t: T.State, ids: PacketIds.Counter, mode: L.Mode)
    requires L.Good(t, mode) && PacketIds.Consistent(ids) && t.ids.issued <= ids.issued
    ensures L.Good(t.(ids := ids), mode)
  {
    var t' := t.(ids := ids);
    assert L.Conserved(t') && L.Identified(t') && L.Stamped(t');
    assert L.Ordered(t) ==> L.Ordered(t');
    assert L.Paced(t, mode.clock) ==> L.Paced(t', mode.clock);
  }

  lemma CallbackKeeps(t: T.State, mode: L.Mode)
    requires L.Good(t, mode)
    ensures L.Good(T.Callback(t), mode) && T.Callback(t).inFlight == t.inFlight
  {
    hide L.Good;
    L.GrowKeeps(t, T.Callback(t), mode);
  }

  lemma SubmitKeeps(t: T.State, r: T.Request, mode: L.Mode)
    requires L.Good(t, mode)
    ensures L.Good(T.Submit(t, r), mode) && T.Submit(t, r).inFlight == t.inFlight
  {
    hide L.Good;
    L.GrowKeeps(t, T.Submit(t, r), mode);
  }

  lemma TimeoutsKeep(s: State, clock: Option<Tick>, mode: Mode)
    requires Inv(s, mode) && s.live
    ensures Inv(DoTimeouts(s, clock), mode) && DoTimeouts(s, clock).live
    ensures DoTimeouts(s, clock).conn == s.conn
  {
    hide L.Good, W.Good, Linked;
    if clock.Some? {
      L.TimeoutKeeps(s.tele, 0, clock.value, Tele(mode));
    }
  }

  lemma GoodIds(t: T.State, mode: L.Mode)
    requires L.Good(t, mode)
    ensures PacketIds.Consistent(t.ids)
  {
  }

  lemma ReportsKeep(s: State, outcome: nat -> W.Outcome, mode: Mode)
    requires Inv(s, mode) && s.live
    ensures Inv(DoReports(s, outcome), mode) && DoReports(s, outcome).live
    ensures DoReports(s, outcome).conn == s.conn
  {
    hide L.Good, W.Good, C.Covered, C.Backed, C.Clocked;
    if s.conn.phase == C.Publish {
      GoodIds(s.tele, Tele(mode));
      W.ProcessKeeps(W.Stage(s.twin, s.tele.ids), outcome);
      IdsKeep(s.tele, W.ProcessWalk(W.Stage(s.twin, s.tele.ids), outcome, true).ids, Tele(mode));
    }
  }

  lemma InitializeLinked(c: C.State, env: C.ConnectEnv, mode: Mode, hi: Tick)
    requires Linked(c, mode) && mode.clock <= hi
    requires mode.timed ==> C.ClockWorks(env, mode.clock, hi)
    ensures Linked(C.Initialize(c, env).0, mode.(clock := hi))
    ensures C.Initialize(c, env).1 ==> C.Initialize(c, env).0.connected || C.Initialize(c, env).0.phase == C.Unknown
    ensures C.Initialize(c, env).0.phase == C.Publish ==> c.phase == C.Publish
  {
    C.InitializeSound(c, env);
    if mode.timed { C.InitializeClocked(c, env, mode.clock, hi); }
  }

  lemma SubscribeKeeps(s: State, ok: bool, mode: Mode)
    requires Inv(s, mode) && s.live && s.bound && s.conn.connected
    ensures Inv(DoSubscribe(s, ok), mode)
  {
    hide L.Good, W.Good;
    L.TakeIdKeeps(s.tele, Tele(mode));
    SendSubscribeLinked(s.conn, ok, mode);
    hide Linked, C.SendSubscribe;
  }

  lemma SendSubscribeLinked(c: C.State, ok: bool, mode: Mode)
    requires Linked(c, mode) && c.connected
    ensures Linked(C.SendSubscribe(c, ok), mode)
  {
    hide C.Throttled, C.Trailing;
  }

  lemma RetrieveKeeps(s: State, o: W.Outcome, mode: Mode)
    requires Inv(s, mode) && s.live && s.bound && s.conn.connected
    ensures Inv(DoRetrieve(s, o), mode)
  {
    hide L.Good, W.Good, C.Throttled, C.Trailing;
    GoodIds(s.tele, Tele(mode));
    W.RetrieveKeeps(W.Stage(s.twin, s.tele.ids), o);
    IdsKeep(s.tele, W.Retrieve(W.Stage(s.twin, s.tele.ids), o).ids, Tele(mode));
  }

  lemma InFlightBefore(t: T.State, mode: L.Mode)
    requires L.Good(t, mode) && mode.timed
    ensures forall k :: 0 <= k < |t.inFlight| ==> t.inFlight[k].publishedAt <= mode.clock
  {
    hide L.Conserved, L.Identified, L.Stamped, L.Ordered, L.Unsent, L.Spaced;
  }

  /** `lo` is the clock when the pass began. */
  lemma PublishKeeps(s: State, env: WorkEnv, mode: Mode, hi: Tick)
    requires L.Good(s.tele, Tele(mode)) && W.Good(s.twin) && Linked(s.conn, mode.(clock := hi)) && Bound(s)
    requires s.live && s.bound && s.conn.connected && Allowed(DoWork(env), mode, hi)
    ensures Inv(DoPublish(s, env), mode.(clock := hi))
  {
    hide L.Good, W.Good, Linked;
    var tm := Tele(mode.(clock := hi));
    if mode.timed { InFlightBefore(s.tele, Tele(mode)); }
    TeleLater(s.tele, Tele(mode), hi);
    L.ResendKeeps(s.tele, 0, env.visit, mode.clock, tm);
    L.PublishKeeps(T.ResendWalk(s.tele, 0, env.visit, true), 0, env.first, tm);
  }

  lemma TransportKeeps(s: State, env: WorkEnv, mode: Mode, hi: Tick)
    requires Inv(s, mode) && s.live && Allowed(DoWork(env), mode, hi)
    ensures Inv(DoTransport(s, env), mode.(clock := hi))
  {
    hide L.Good, W.Good, Linked, C.Initialize, DoSubscribe, DoRetrieve, DoPublish;
    InitializeLinked(s.conn, env.connect, mode, hi);
    var (conn, ok) := C.Initialize(s.conn, env.connect);
    var s1 := s.(conn := conn, bound := true);
    TeleLater(s.tele, Tele(mode), hi);
    if ok {
      match conn.phase {
        case ConnAck => SubscribeKeeps(s1, env.subscribed, mode.(clock := hi));
        case Subscribe => SubscribeKeeps(s1, env.subscribed, mode.(clock := hi));
        case SubAck => RetrieveKeeps(s1, env.retrieve, mode.(clock := hi));
        case Publish => PublishKeeps(s1, env, mode, hi);
        case _ =>
      }
    }
  }

  lemma WorkKeeps(s: State, env: WorkEnv, mode: Mode, hi: Tick)
    requires Inv(s, mode) && s.live && Allowed(DoWork(env), mode, hi)
    ensures Inv(Work(s, env), mode.(clock := hi))
  {
    hide Inv, DoTimeouts, DoReports, DoTransport, Allowed;
    TimeoutsKeep(s, env.timeoutClock, mode);
    ReportsKeep(DoTimeouts(s, env.timeoutClock), env.reports, mode);
    TransportKeeps(DoReports(DoTimeouts(s, env.timeoutClock), env.reports), env, mode, hi);
  }

  lemma AnsweredKeeps(s: State, twin: W.State, mode: Mode)
    requires Inv(s, mode) && s.live && W.Good(twin) && (twin.awaiting != [] ==> s.bound)
    ensures Inv(Answered(s, twin), mode)
  {
    hide L.Good, W.Good, Linked, W.CalledBack;
    CallbackKeeps(s.tele, Tele(mode));
  }

  /** Destroying the transport answers its twin queue; callbacks only add to the wait list. */
  lemma {:induction false} DrainTwinIs(s: State, mode: Mode)
    requires L.Good(s.tele, Tele(mode))
    ensures DrainTwin(s).twin == W.DrainAwaiting(s.twin)
    ensures L.Good(DrainTwin(s).tele, Tele(mode)) && DrainTwin(s).tele.inFlight == s.tele.inFlight
    ensures DrainTwin(s) == s.(tele := DrainTwin(s).tele, twin := DrainTwin(s).twin)
    decreases |s.twin.awaiting|
  {
    hide L.Good, W.CalledBack;
    if s.twin.awaiting != [] {
      var item := s.twin.awaiting[0];
      var popped := s.(twin := s.twin.(awaiting := s.twin.awaiting[1..]));
      CallbackKeeps(s.tele, Tele(mode));
      DrainTwinIs(Answered(popped, W.Complete(popped.twin, item.reportId, W.STATUS_CODE_TIMEOUT)), mode);
    }
  }

  lemma DisconnectedLinked(c: C.State, mode: Mode)
    requires Linked(c, mode)
    ensures Linked(C.Disconnected(c), mode)
  {
    hide C.Throttled, C.Trailing;
  }

  /** After the transport is gone, both layers' acknowledgement queues are empty. */
  lemma DestroyTransportKeeps(s: State, mode: Mode)
    requires Inv(s, mode) && s.live
    ensures
      var s' := DestroyTransport(s);
      && L.Good(s'.tele, Tele(mode)) && W.Good(s'.twin) && Linked(s'.conn, mode) && s'.live
      && s'.tele.inFlight == [] && s'.twin.awaiting == [] && s'.twin.acks == [] && s'.conn.phase != C.Publish
      && s'.twin == W.DrainAwaiting(s.twin)
  {
    hide L.Good, W.Good, Linked;
    DisconnectedLinked(s.conn, mode);
    W.DrainKeeps(s.twin);
    if s.bound {
      L.DrainFlightKeeps(s.tele, Tele(mode));
      DrainTwinIs(s.(conn := C.Disconnected(s.conn), tele := T.DrainFlight(s.tele)), mode);
    } else {
      assert s.tele.(inFlight := []) == s.tele && s.twin.(awaiting := []) == s.twin;
    }
  }

  lemma DropQueue(w: W.State)
    requires W.Good(w) && w.acks == [] && w.awaiting == []
    ensures W.Good(w.(queue := [], acks := [], dropped := w.dropped + w.queue + w.acks))
  {
    hide W.ReportIds;
    assert w.dropped + w.queue + w.acks == w.dropped + w.queue;
    assert w.(acks := []) == w;
  }

  lemma DestroyKeeps(s: State, mode: Mode)
    requires Inv(s, mode) && s.live
    ensures Inv(DestroyClient(s), mode)
  {
    hide L.Good, W.Good, Linked, DestroyTransport;
    DestroyTransportKeeps(s, mode);
    var s1 := DestroyTransport(s);
    L.DrainWaitingKeeps(s1.tele, Tele(mode));
    DropQueue(s1.twin);
  }

  lemma TopicsKeep(s: State, op: Op, mode: Mode)
    requires s.live && Linked(s.conn, mode) && (mode.masked ==> MaskSafe(s, op))
    ensures op.SubscribeMessages? ==> Linked(C.SubscribeMessages(s.conn, op.memory), mode)
    ensures op.SubscribeMethods? ==> Linked(C.SubscribeMethods(s.conn, op.memory), mode)
  {
    hide C.Throttled, C.Trailing;
  }

  lemma DropTopicKeeps(c: C.State, f: C.Topic, mode: Mode)
    requires Linked(c, mode)
    ensures Linked(C.DropTopic(c, f), mode)
  {
    hide C.Throttled, C.Trailing;
  }

  lemma EventsKeep(c: C.State, accepted: bool, mode: Mode)
    requires Linked(c, mode)
    ensures Linked(C.ConnAcked(c, accepted), mode) && Linked(c.(phase := C.SubAck), mode) && Linked(C.Failed(c), mode)
  {
    hide C.Throttled, C.Trailing;
  }

  lemma SubscribeTwinLinked(c: C.State, getMemory: bool, notifyMemory: bool, mode: Mode)
    requires Linked(c, mode)
    ensures Linked(C.SubscribeTwin(c, getMemory, notifyMemory), mode)
    ensures C.SubscribeTwin(c, getMemory, notifyMemory).phase == C.Publish ==> c.phase == C.Publish
  {
    hide C.Throttled, C.Trailing;
  }

  lemma ReportKeeps(s: State, notify: bool, memory: bool, getMemory: bool, notifyMemory: bool, mode: Mode)
    requires Inv(s, mode) && s.live
    ensures Inv(Report(s, notify, memory, getMemory, notifyMemory), mode)
  {
    hide L.Good, W.Good, Linked, C.SubscribeTwin;
    W.EnqueueKeeps(s.twin, notify, memory && C.TwinSubscribed(s.conn, getMemory, notifyMemory));
    SubscribeTwinLinked(s.conn, getMemory, notifyMemory, mode);
  }

  lemma SetTimeoutKeeps(t: T.State, v: Tick, mode: L.Mode)
    requires L.Good(t, mode)
    ensures L.Good(t.(timeout := v), mode)
  {
    var t' := t.(timeout := v);
    assert L.Conserved(t') && L.Identified(t') && L.Stamped(t');
    assert L.Ordered(t) ==> L.Ordered(t');
    assert L.Paced(t, mode.clock) ==> L.Paced(t', mode.clock);
  }

  lemma Later(s: State, mode: Mode, hi: Tick)
    requires Inv(s, mode) && mode.clock <= hi
    ensures Inv(s, mode.(clock := hi))
  {
    hide L.Good, W.Good, C.Throttled, C.Trailing;
    TeleLater(s.tele, Tele(mode), hi);
  }

  /** Every operation other than DoWork, at an unchanged clock. */
  lemma StepKeeps(s: State, op: Op, mode: Mode)
    requires Inv(s, mode) && s.live && (mode.masked ==> MaskSafe(s, op)) && !op.DoWork?
    ensures Inv(Apply(s, op), mode)
  {
    hide L.Good, W.Good, Linked, MaskSafe, Report, DestroyClient, Answered, C.SubscribeTwin, T.Submit, T.AckWalk,
        W.Respond;
    TopicsKeep(s, op, mode);
    L.TakeIdKeeps(s.tele, Tele(mode));
    match op {
      case SendEvent(r) => SubmitKeeps(s.tele, r, Tele(mode));
      case SetMessageTimeout(v) => SetTimeoutKeeps(s.tele, v, Tele(mode));
      case SendReport(notify, memory, g, n) => ReportKeeps(s, notify, memory, g, n, mode);
      case SubscribeTwin(g, n) => SubscribeTwinLinked(s.conn, g, n, mode);
      case UnsubscribeMessages => DropTopicKeeps(s.conn, C.Messages, mode);
      case UnsubscribeMethods => DropTopicKeeps(s.conn, C.DeviceMethods, mode);
      case UnsubscribeTwin =>
        DropTopicKeeps(s.conn, C.GetState, mode);
        DropTopicKeeps(C.DropTopic(s.conn, C.GetState), C.NotifyState, mode);
      case ConnAcked(accepted) => EventsKeep(s.conn, accepted, mode);
      case SubAcked => EventsKeep(s.conn, true, mode);
      case ConnectionFailed => EventsKeep(s.conn, true, mode);
      case PubAck(pid) => L.AckKeeps(s.tele, 0, pid, Tele(mode)); AckShrinks(s.tele, pid);
      case TwinResponse(rid, status) =>
        W.RespondKeeps(s.twin, rid, status);
        RespondShrinks(s.twin, rid, status);
        AnsweredKeeps(s, W.Respond(s.twin, rid, status), mode);
      case ChangeKeepAlive => DisconnectedLinked(s.conn, mode);
      case Disconnected => DisconnectedLinked(s.conn, mode);
      case Destroy => DestroyKeeps(s, mode);
      case _ =>
    }
  }

  lemma AckShrinks(t: T.State, pid: nat)
    ensures t.inFlight == [] ==> T.AckWalk(t, 0, pid).inFlight == []
  {
  }

  lemma RespondShrinks(w: W.State, requestId: nat, status: int)
    ensures w.awaiting == [] ==> W.Respond(w, requestId, status).awaiting == []
  {
  }

  lemma ApplyKeeps(s: State, op: Op, mode: Mode, hi: Tick)
    requires Inv(s, mode) && Allowed(op, mode, hi) && (mode.masked ==> MaskSafe(s, op))
    ensures Inv(Apply(s, op), mode.(clock := hi))
  {
    hide Inv, Work, MaskSafe;
    if s.live {
      if op.DoWork? {
        WorkKeeps(s, op.env, mode, hi);
      } else {
        StepKeeps(s, op, mode);
        Later(Apply(s, op), mode, hi);
      }
    } else {
      Later(s, mode, hi);
    }
  }

  // ---------------------------------------------------------------------------
  // Whole runs
  // ---------------------------------------------------------------------------

  /** Operation `k` takes place between the readings `clock[k]` and `clock[k + 1]`. */
  ghost predicate Permitted(ops: seq<Op>, clock: seq<Tick>, mode: Mode)
  {
    |clock| == |ops| + 1 &&
    forall k :: 0 <= k < |ops| ==> Allowed(ops[k], mode.(clock := clock[k]), clock[k + 1])
  }

  /** Every Subscribe of the run, from state `s` on, is safe for the mask. */
  ghost predicate MaskSafeRun(s: State, ops: seq<Op>)
  {
    forall k :: 0 <= k < |ops| ==> MaskSafe(Exec(s, ops[..k]), ops[k])
  }

  lemma MaskSafePrefix(s: State, ops: seq<Op>, n: nat)
    requires MaskSafeRun(s, ops) && n <= |ops|
    ensures MaskSafeRun(s, ops[..n])
  {
    hide MaskSafe, Exec;
    forall k | 0 <= k < n ensures MaskSafe(Exec(s, ops[..n][..k]), ops[..n][k]) {
      assert ops[..n][..k] == ops[..k];
    }
  }

  lemma StartInv(user: seq<seq<T.Request>>, uninitialised: Tick, mode: Mode)
    ensures Inv(Start(user, uninitialised), mode)
  {
    var s := Start(user, uninitialised);
    assert L.Messages([]) == [] && L.Finished([]) == [];
    assert W.Ids([]) == [] && W.Reports([]) == [] && W.Payloads([]) == [];
    assert L.Good(s.tele, Tele(mode));
    assert W.Good(s.twin);
  }

  lemma {:induction false} RunKeeps(user: seq<seq<T.Request>>, uninitialised: Tick, ops: seq<Op>, clock: seq<Tick>,
                                    mode: Mode)
    requires Permitted(ops, clock, mode) && (mode.masked ==> MaskSafeRun(Start(user, uninitialised), ops))
    ensures Inv(Exec(Start(user, uninitialised), ops), mode.(clock := clock[|ops|]))
    decreases |ops|
  {
    hide Inv, Allowed, Apply, Start, MaskSafe;
    if ops == [] {
      StartInv(user, uninitialised, mode.(clock := clock[0]));
    } else {
      var n := |ops| - 1;
      if mode.masked { MaskSafePrefix(Start(user, uninitialised), ops, n); }
      RunKeeps(user, uninitialised, ops[..n], clock[..n + 1], mode);
      ApplyKeeps(Exec(Start(user, uninitialised), ops[..n]), ops[n], mode.(clock := clock[n]), clock[n + 1]);
    }
  }

  /** Every run at all, without any assumption on memory or clock. */
  lemma AnyRunKeeps(user: seq<seq<T.Request>>, uninitialised: Tick, ops: seq<Op>)
    ensures Inv(Exec(Start(user, uninitialised), ops), Mode(false, false, false, 0))
  {
    hide Inv, Exec;
    RunKeeps(user, uninitialised, ops, seq(|ops| + 1, _ => 0), Mode(false, false, false, 0));
  }
}
