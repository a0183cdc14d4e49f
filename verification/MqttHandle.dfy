/**
 * The client handle and its MQTT transport handle as one mutable object.  Each method is
 * the program's loop or update, proved equal to the step of the state machine it takes.
 */
module MqttHandle {
  import opened Clock
  import opened Lists
  import C = Connection
  import M = MqttDevice
  import PacketIds
  import T = Telemetry
  import W = Twin

  class Device {
    // telemetry
    var waiting: seq<T.Message>
    var inFlight: seq<T.Entry>
    var timeout: Tick
    var ids: PacketIds.Counter
    // reported state
    var queue: seq<W.Report>
    var acks: seq<W.Report>
    var awaiting: seq<W.Item>
    var lastId: nat
    var drawn: nat
    // connection
    var phase: C.Phase
    var connected: bool
    var failCount: nat
    var connectTick: Tick
    var connectTime: Tick
    var getSent: bool
    var topics: set<C.Topic>
    var pending: set<C.Topic>
    var bound: bool
    var live: bool
    // what the application will submit from its callbacks
    var user: seq<seq<T.Request>>
    // what the application and the network have seen
    var accepted: seq<T.Message>
    var done: seq<T.Completion>
    var sends: seq<T.Publication>
    var submitted: seq<W.Report>
    var answered: seq<W.Answer>
    var dropped: seq<W.Report>
    var sent: seq<W.Sent>
    var handed: set<C.Topic>
    var attempts: seq<C.Attempt>

    function Tele(): (t: T.State)
      reads this`waiting, this`inFlight, this`timeout, this`ids, this`user, this`accepted, this`done, this`sends
    {
      T.State(waiting, inFlight, timeout, ids, user, accepted, done, sends)
    }

    function Reports(): (w: W.State)
      reads this`queue, this`acks, this`awaiting, this`lastId, this`drawn,
            this`submitted, this`answered, this`dropped, this`sent
    {
      W.State(queue, acks, awaiting, lastId, drawn, submitted, answered, dropped, sent)
    }

    function Conn(): (c: C.State)
      reads this`phase, this`connected, this`failCount, this`connectTick, this`connectTime, this`getSent,
            this`topics, this`pending, this`handed, this`attempts
    {
      C.State(phase, connected, failCount, connectTick, connectTime, getSent, topics, pending, handed, attempts)
    }

    function View(): (s: M.State)
      reads this
    {
      M.State(Tele(), Reports(), Conn(), bound, live)
    }

    constructor (script: seq<seq<T.Request>>, uninitialised: Tick)
      ensures View() == M.Start(script, uninitialised)
    {
      waiting, inFlight, timeout, ids, user := [], [], 0, PacketIds.FIRST_COUNTER, script;
      accepted, done, sends := [], [], [];
      queue, acks, awaiting, lastId, drawn, submitted, answered, dropped, sent := [], [], [], 1, 0, [], [], [], [];
      phase, connected, failCount, connectTick, connectTime, getSent := C.Connect, false, 0, 0, uninitialised, false;
      topics, pending, handed, attempts := {}, {}, {}, [];
      bound, live := false, true;
    }

    // -------------------------------------------------------------------------
    // Telemetry
    // -------------------------------------------------------------------------

    method SendEventAsync(r: T.Request) returns (ok: bool)
      modifies this`waiting, this`accepted
      ensures ok == T.Accepts(timeout, r)
      ensures Tele() == T.Submit(old(Tele()), r)
    {
      ok := false;
      if r.payload.None? || (!r.callback && r.context) { return; }
      if !r.memory { return; }
      var deadline: Tick := 0;
      if timeout != 0 {
        if r.clock.None? { return; }
        deadline := (r.clock.value + timeout) % U64;
      }
      var m := T.Message(|accepted|, r.payload.value, deadline, r.callback);
      waiting := waiting + [m];
      accepted := accepted + [m];
      ok := true;
    }

    /** The application's confirmation callback. */
    method Callback()
      modifies this`waiting, this`accepted, this`user
      ensures Tele() == T.Callback(old(Tele()))
    {
      if user == [] { return; }
      var rs := user[0];
      user := user[1..];
      var k := 0;
      while k < |rs|
        invariant k <= |rs|
        invariant T.SubmitAll(Tele(), rs[k..]) == T.Callback(old(Tele()))
      {
        var _ := SendEventAsync(rs[k]);
        k := k + 1;
      }
    }

    method Confirm(m: T.Message, result: T.Confirmation)
      modifies this`waiting, this`accepted, this`user, this`done
      ensures Tele() == T.Finish(old(Tele()), m, result)
      ensures |old(waiting)| <= |waiting| && |waiting| + T.Backlog(user) <= old(|waiting| + T.Backlog(user))
    {
      done := done + [T.Completion(m, result)];
      if m.notify { Callback(); }
    }

    /** DoTimeouts: walks the wait list while callbacks may append to it. */
    method DoTimeouts(now: Tick)
      modifies this`waiting, this`accepted, this`user, this`done
      ensures Tele() == T.TimeoutWalk(old(Tele()), 0, now)
    {
      hide T.Finish, T.Grows;
      var i := 0;
      while i < |waiting|
        invariant i <= |waiting|
        invariant T.TimeoutWalk(Tele(), i, now) == T.TimeoutWalk(old(Tele()), 0, now)
        decreases |waiting| - i + T.Backlog(user)
      {
        var m := waiting[i];
        if m.deadline != 0 && m.deadline < now {
          var last := i + 1 == |waiting|;
          waiting := RemoveAt(waiting, i);
          Confirm(m, T.MessageTimeout);
          if last { return; }
        } else {
          i := i + 1;
        }
      }
    }

    /** sendMsgComplete on the in-flight entry at `i`, which is unlinked first. */
    method ConfirmInFlight(i: nat, result: T.Confirmation)
      requires i < |inFlight|
      modifies this`waiting, this`inFlight, this`accepted, this`user, this`done
      ensures Tele() == T.Finish(T.Land(old(Tele()), i), old(inFlight[i].message), result)
      ensures |inFlight| == |old(inFlight)| - 1
    {
      var e := inFlight[i];
      inFlight := RemoveAt(inFlight, i);
      Confirm(e.message, result);
    }

    method Republish(i: nat, at: Tick)
      requires i < |inFlight|
      modifies this`inFlight, this`sends
      ensures Tele() == T.Republish(old(Tele()), i, at, connected)
      ensures |inFlight| == |old(inFlight)|
    {
      var e := inFlight[i];
      inFlight := inFlight[i := e.(publishedAt := at, retryCount := e.retryCount + 1)];
      sends := sends + [T.Publication(e.message.id, e.packetId, at, false, connected)];
    }

    /** The first publishing loop of the transport's DoWork. */
    method Resend(visit: nat -> T.Visit)
      modifies this`waiting, this`inFlight, this`accepted, this`user, this`done, this`sends
      ensures Tele() == T.ResendWalk(old(Tele()), 0, visit, Conn().connected)
    {
      hide T.Finish, T.Republish, T.Land, T.Grows;
      var i := 0;
      while i < |inFlight|
        invariant i <= |inFlight|
        invariant T.ResendWalk(Tele(), i, visit, connected) == T.ResendWalk(old(Tele()), 0, visit, connected)
        decreases |inFlight| - i
      {
        var e := inFlight[i];
        var v := visit(e.message.id);
        if Seconds(v.now, e.publishedAt) > T.RESEND_TIMEOUT_SECONDS {
          if e.retryCount >= T.MAX_SEND_COUNT {
            ConfirmInFlight(i, T.MessageTimeout);
          } else if e.message.payload == [] {
            i := i + 1;
          } else if v.outcome.Refused? {
            ConfirmInFlight(i, T.Error);
          } else {
            Republish(i, v.outcome.at);
            i := i + 1;
          }
        } else {
          i := i + 1;
        }
      }
    }

    method NextPacketId() returns (id: nat)
      modifies this`ids
      ensures id == ids.current && Tele() == T.TakeId(old(Tele()))
    {
      if ids.current + 1 >= PacketIds.USHRT_MAX {
        ids := PacketIds.Counter(1, ids.issued + 1);
      } else {
        ids := PacketIds.Counter(ids.current + 1, ids.issued + 1);
      }
      id := ids.current;
    }

    /** The first publication of the waiting message at `i`. */
    method PublishOne(i: nat, outcome: T.Outcome)
      requires i < |waiting|
      modifies this`waiting, this`inFlight, this`ids, this`accepted, this`user, this`done, this`sends
      ensures i <= |waiting| && |waiting| + T.Backlog(user) < old(|waiting| + T.Backlog(user))
      ensures Tele() == match outcome
                case Refused => T.Finish(T.Unqueue(T.TakeId(old(Tele())), i), old(waiting[i]), T.Error)
                case Published(at) => T.Launch(T.TakeId(old(Tele())), i, at, connected)
    {
      hide T.Finish;
      var m := waiting[i];
      var id := NextPacketId();
      waiting := RemoveAt(waiting, i);
      match outcome {
        case Refused => Confirm(m, T.Error);
        case Published(at) =>
          inFlight := inFlight + [T.Entry(m, id, ids.issued, at, 1)];
          sends := sends + [T.Publication(m.id, id, at, true, connected)];
      }
    }

    /** The second publishing loop: moves waiting messages in flight. */
    method PublishWaiting(first: nat -> T.FirstOutcome)
      modifies this`waiting, this`inFlight, this`ids, this`accepted, this`user, this`done, this`sends
      ensures Tele() == T.PublishWalk(old(Tele()), 0, first, Conn().connected)
    {
      hide T.Finish, T.Launch, T.TakeId;
      var i := 0;
      while i < |waiting|
        invariant i <= |waiting|
        invariant T.PublishWalk(Tele(), i, first, connected) == T.PublishWalk(old(Tele()), 0, first, connected)
        decreases |waiting| - i + T.Backlog(user)
      {
        var m := waiting[i];
        if m.payload == [] || first(m.id).NoMemory? {
          i := i + 1;
        } else {
          var last := i + 1 == |waiting|;
          PublishOne(i, first(m.id).outcome);
          if last && first(m.id).outcome.Refused? { return; }
        }
      }
    }

    /** MQTT_CLIENT_ON_PUBLISH_ACK and MQTT_CLIENT_ON_PUBLISH_COMP. */
    method PubAck(pid: nat)
      modifies this`waiting, this`inFlight, this`accepted, this`user, this`done
      ensures Tele() == T.AckWalk(old(Tele()), 0, pid)
    {
      var i := 0;
      while i < |inFlight|
        invariant i <= |inFlight|
        invariant T.AckWalk(Tele(), i, pid) == T.AckWalk(old(Tele()), 0, pid)
        decreases |inFlight| - i
      {
        var e := inFlight[i];
        if e.packetId == pid {
          ConfirmInFlight(i, T.Ok);
        } else {
          i := i + 1;
        }
      }
    }

    method DrainInFlight()
      modifies this`waiting, this`inFlight, this`accepted, this`user, this`done
      ensures Tele() == T.DrainFlight(old(Tele()))
    {
      while inFlight != []
        invariant T.DrainFlight(Tele()) == T.DrainFlight(old(Tele()))
        decreases |inFlight|
      {
        ConfirmInFlight(0, T.BecauseDestroy);
      }
    }

    method DrainWaiting()
      modifies this`waiting, this`accepted, this`user, this`done
      ensures Tele() == T.DrainWaiting(old(Tele()))
    {
      while waiting != []
        invariant T.DrainWaiting(Tele()) == T.DrainWaiting(old(Tele()))
        decreases |waiting| + T.Backlog(user)
      {
        var m := waiting[0];
        waiting := RemoveAt(waiting, 0);
        Confirm(m, T.BecauseDestroy);
      }
    }

    method GetSendStatus() returns (status: M.SendStatus)
      ensures status == M.GetSendStatus(View())
    {
      if waiting != [] || inFlight != [] { status := M.Busy; } else { status := M.Idle; }
    }

    // -------------------------------------------------------------------------
    // Reported state
    // -------------------------------------------------------------------------

    method SendReportedState(notify: bool, memory: bool, getMemory: bool, notifyMemory: bool) returns (ok: bool)
      modifies this`queue, this`lastId, this`drawn, this`submitted, this`phase, this`topics, this`pending
      ensures ok == (memory && C.TwinSubscribed(old(Conn()), getMemory, notifyMemory))
      ensures Reports() == W.Enqueue(old(Reports()), notify, ok)
      ensures Conn() == if memory then C.SubscribeTwin(old(Conn()), getMemory, notifyMemory) else old(Conn())
    {
      hide C.SubscribeTwin, C.TwinSubscribed, Conn;
      ok := false;
      if memory { ok := SubscribeTwin(getMemory, notifyMemory); }
      QueueReport(notify, ok);
    }

    /** get_next_item_id, and the report it is for, if that is accepted. */
    method QueueReport(notify: bool, accept: bool)
      modifies this`queue, this`lastId, this`drawn, this`submitted
      ensures Reports() == W.Enqueue(old(Reports()), notify, accept)
    {
      if lastId + 1 >= PacketIds.UINT32_MAX { lastId := 1; } else { lastId := lastId + 1; }
      drawn := drawn + 1;
      if accept {
        var r := W.Report(|submitted|, drawn, lastId, notify);
        queue := queue + [r];
        submitted := submitted + [r];
      }
    }

    method SubscribeTwin(getMemory: bool, notifyMemory: bool) returns (ok: bool)
      modifies this`phase, this`topics, this`pending
      ensures Conn() == C.SubscribeTwin(old(Conn()), getMemory, notifyMemory)
      ensures ok == C.TwinSubscribed(old(Conn()), getMemory, notifyMemory)
    {
      if C.GetState !in topics {
        if !getMemory { return false; }
        topics, pending := topics + {C.GetState}, pending + {C.GetState};
      }
      if C.NotifyState !in topics {
        if !notifyMemory { return false; }
        topics, pending := topics + {C.NotifyState}, pending + {C.NotifyState};
      }
      phase := C.Resubscribe(phase);
      ok := true;
    }

    /** ProcessItem on the head of the report queue, and the client's queue move. */
    method ProcessOne(o: W.Outcome)
      requires queue != []
      modifies this`queue, this`acks, this`awaiting, this`dropped, this`sent, this`ids
      ensures W.Stage(Reports(), ids) == W.ProcessOne(W.Stage(old(Reports()), old(ids)), o, connected)
      ensures queue == old(queue[1..])
    {
      var r := queue[0];
      queue := queue[1..];
      if o == W.NoMemory {
        dropped := dropped + [r];
      } else {
        var id := NextPacketId();
        if o == W.Refused {
          dropped := dropped + [r];
        } else {
          awaiting := awaiting + [W.Item(id, r.id, W.ReportedState)];
          acks := acks + [r];
          sent := sent + [W.Sent(r, id, connected)];
        }
      }
    }

    /** The queue loop of IoTHubClient_LL_DoWork. */
    method ProcessReports(outcome: nat -> W.Outcome)
      modifies this`queue, this`acks, this`awaiting, this`dropped, this`sent, this`ids
      ensures Tele() == old(Tele()).(ids := Tele().ids)
      ensures
        var before := W.Stage(old(Reports()), old(Tele().ids));
        W.Stage(Reports(), Tele().ids) ==
          (if Conn().phase == C.Publish then W.ProcessWalk(before, outcome, Conn().connected) else before)
    {
      hide W.ProcessOne;
      if phase != C.Publish { return; }
      while queue != []
        invariant W.ProcessWalk(W.Stage(Reports(), ids), outcome, connected)
               == W.ProcessWalk(W.Stage(old(Reports()), old(ids)), outcome, connected)
        decreases |queue|
      {
        ProcessOne(outcome(queue[0].serial));
      }
    }

    /** IoTHubClient_LL_ReportedStateComplete */
    method ReportedStateComplete(id: nat, status: int)
      modifies this`acks, this`answered, this`waiting, this`accepted, this`user
      ensures Reports() == W.Complete(old(Reports()), id, status)
      ensures Tele() == if W.CalledBack(old(Reports()), Reports()) then T.Callback(old(Tele())) else old(Tele())
    {
      hide T.Callback;
      var k := 0;
      while k < |acks| && acks[k].id != id
        invariant k <= |acks|
        invariant W.FindReport(acks, id, k) == W.FindReport(acks, id, 0)
      {
        k := k + 1;
      }
      if k < |acks| {
        var r := acks[k];
        acks := RemoveAt(acks, k);
        answered := answered + [W.Answer(r, status)];
        if r.notify { Callback(); }
      }
    }

    /** A message on the twin response topic. */
    method TwinResponse(requestId: nat, status: int)
      modifies this`acks, this`awaiting, this`answered, this`waiting, this`accepted, this`user
      ensures Reports() == W.Respond(old(Reports()), requestId, status)
      ensures Tele() == if W.CalledBack(old(Reports()), Reports()) then T.Callback(old(Tele())) else old(Tele())
    {
      hide T.Callback, W.Complete;
      var k := 0;
      while k < |awaiting| && awaiting[k].packetId != requestId
        invariant k <= |awaiting|
        invariant W.FindItem(awaiting, requestId, k) == W.FindItem(awaiting, requestId, 0)
      {
        k := k + 1;
      }
      if k < |awaiting| {
        var item := awaiting[k];
        awaiting := RemoveAt(awaiting, k);
        if item.kind == W.ReportedState { ReportedStateComplete(item.reportId, status); }
      }
    }

    method AnswerOldest()
      requires awaiting != []
      modifies this`acks, this`awaiting, this`answered, this`waiting, this`accepted, this`user
      ensures Reports() == W.Complete(old(Reports().(awaiting := awaiting[1..])), old(awaiting[0].reportId),
          W.STATUS_CODE_TIMEOUT)
      ensures |awaiting| < |old(awaiting)|
      ensures Tele() == if W.CalledBack(old(Reports()), Reports()) then T.Callback(old(Tele())) else old(Tele())
    {
      hide T.Callback, Tele;
      var item := awaiting[0];
      awaiting := awaiting[1..];
      ReportedStateComplete(item.reportId, W.STATUS_CODE_TIMEOUT);
    }

    method DrainAwaiting()
      modifies this`acks, this`awaiting, this`answered, this`waiting, this`accepted, this`user
      ensures View() == M.DrainTwin(old(View()))
    {
      hide T.Callback, W.Complete, Tele, Conn;
      while awaiting != []
        invariant M.DrainTwin(View()) == M.DrainTwin(old(View()))
        decreases |awaiting|
      {
        AnswerOldest();
      }
    }

    // -------------------------------------------------------------------------
    // Connection
    // -------------------------------------------------------------------------

    method InitializeConnection(env: C.ConnectEnv) returns (ok: bool)
      modifies this`phase, this`connected, this`failCount, this`connectTick, this`connectTime, this`getSent,
               this`pending, this`handed, this`attempts
      ensures (Conn(), ok) == C.Initialize(old(Conn()), env)
    {
      if !connected {
        if failCount > C.FAILED_CONN_BACKOFF && env.backoff.Some?
           && Seconds(env.backoff.value, connectTick) <= C.CONNECTION_INTERVAL_SECONDS
        {
          return false;
        }
        if env.stamp.None? {
          failCount := failCount + 1;
          return false;
        }
        connectTick := env.stamp.value;
        attempts := attempts + [C.Attempt(env.stamp.value, env.sent)];
        if !env.sent {
          failCount := failCount + 1;
          return false;
        }
        failCount, connected := 0, true;
        if env.connectedAt.Some? { connectTime := env.connectedAt.value; }
      }
      if env.refresh.None? {
        failCount := failCount + 1;
        return false;
      }
      if Seconds(env.refresh.value, connectTime) > C.REFRESH_SECONDS {
        connected, phase, getSent := false, C.Unknown, false;
        MarkAllTopics();
      }
      ok := true;
    }

    method MarkAllTopics()
      modifies this`pending, this`handed
      ensures Conn() == old(Conn()).(pending := old(pending) + topics, handed := {})
    {
      pending, handed := pending + topics, {};
    }

    method BuildFilters() returns (fs: seq<C.Topic>)
      ensures fs == C.Filters(Conn())
    {
      hide NoDuplicates;
      fs := [];
      if C.Messages in topics && C.Messages in pending { fs := fs + [C.Messages]; }
      if C.GetState in topics && C.GetState in pending { fs := fs + [C.GetState]; }
      if C.NotifyState in topics && C.NotifyState in pending { fs := fs + [C.NotifyState]; }
      if C.DeviceMethods in topics && C.DeviceMethods in pending { fs := fs + [C.DeviceMethods]; }
    }

    /** SubscribeToMqttProtocol */
    method Subscribe(ok: bool)
      modifies this`phase, this`pending, this`handed, this`ids
      ensures Conn() == C.SendSubscribe(old(Conn()), ok)
      ensures Tele() == if C.DrawsId(old(Conn())) then T.TakeId(old(Tele())) else old(Tele())
    {
      hide C.Filters, NoDuplicates;
      if pending == {} {
        phase := C.Publish;
        return;
      }
      var fs := BuildFilters();
      if fs != [] {
        var _ := NextPacketId();
        if ok {
          var named := set f | f in fs;
          assert fs[0] in named;
          pending, handed := pending - named, handed + named;
        }
      }
      phase := C.Subscribe;
    }

    method RetrieveTwin(o: W.Outcome)
      modifies this`phase, this`getSent, this`awaiting, this`ids
      ensures
        var c := old(Conn());
        var needed := (C.NotifyState in c.topics || C.GetState in c.topics) && !c.getSent;
        var before := W.Stage(old(Reports()), old(Tele().ids));
        && Tele() == old(Tele()).(ids := Tele().ids)
        && W.Stage(Reports(), Tele().ids) == (if needed then W.Retrieve(before, o) else before)
        && Conn() == c.(getSent := if needed then o == W.Accepted else c.getSent, phase := C.Publish)
    {
      hide W.Retrieve, Tele, Reports;
      if (C.NotifyState in topics || C.GetState in topics) && !getSent {
        getSent := SendRetrieve(o);
      }
      phase := C.Publish;
    }

    /** publish_device_twin_get_message */
    method SendRetrieve(o: W.Outcome) returns (ok: bool)
      modifies this`awaiting, this`ids
      ensures Tele() == old(Tele()).(ids := Tele().ids)
      ensures W.Stage(Reports(), Tele().ids) == W.Retrieve(W.Stage(old(Reports()), old(Tele().ids)), o)
      ensures ok == (o == W.Accepted)
    {
      if o == W.NoMemory { return false; }
      var id := NextPacketId();
      if o == W.Refused { return false; }
      awaiting := awaiting + [W.Item(id, 0, W.RetrieveProperties)];
      ok := true;
    }

    method PublishPass(env: M.WorkEnv)
      modifies this`waiting, this`inFlight, this`ids, this`accepted, this`user, this`done, this`sends
      ensures View() == M.DoPublish(old(View()), env)
    {
      hide T.ResendWalk, T.PublishWalk, Tele, Reports, Conn;
      Resend(env.visit);
      PublishWaiting(env.first);
    }

    method RunPhase(env: M.WorkEnv)
      modifies this
      ensures View() == M.DoPhase(old(View()), env)
    {
      hide M.DoPublish, T.TakeId, W.Retrieve, C.SendSubscribe, C.DrawsId;
      var p := phase;
      assert View().conn.phase == p;
      hide Tele, Reports, Conn;
      match p {
        case ConnAck => Subscribe(env.subscribed);
        case Subscribe => Subscribe(env.subscribed);
        case SubAck => RetrieveTwin(env.retrieve);
        case Publish => PublishPass(env);
        case _ =>
      }
    }

    /** IoTHubTransport_MQTT_Common_DoWork */
    method DoTransport(env: M.WorkEnv)
      modifies this
      ensures View() == M.DoTransport(old(View()), env)
    {
      hide C.Initialize, M.DoPhase, Tele, Reports, Conn;
      bound := true;
      var ok := InitializeConnection(env.connect);
      if ok { RunPhase(env); }
    }

    method DoWork(env: M.WorkEnv)
      modifies this
      ensures View() == M.Work(old(View()), env)
    {
      hide T.TimeoutWalk, W.ProcessWalk, M.DoTransport, Tele, Reports, Conn;
      if env.timeoutClock.Some? { DoTimeouts(env.timeoutClock.value); }
      assert View() == M.DoTimeouts(old(View()), env.timeoutClock);
      hide M.DoTimeouts;
      ProcessReports(env.reports);
      assert View() == M.DoReports(M.DoTimeouts(old(View()), env.timeoutClock), env.reports);
      hide M.DoReports;
      DoTransport(env);
    }

    method Disconnect()
      modifies this`connected, this`phase
      ensures Conn() == C.Disconnected(old(Conn()))
    {
      connected, phase := false, C.Disconnect;
    }

    /** IoTHubTransport_MQTT_Common_Destroy */
    method DestroyTransport()
      modifies this
      ensures View() == M.DestroyTransport(old(View()))
    {
      hide T.DrainFlight, M.DrainTwin, Reports, Tele, Conn;
      Disconnect();
      if bound {
        DrainInFlight();
        DrainAwaiting();
      } else {
        DiscardLists();
      }
    }

    /** Records freed without a callback, for want of a client handle. */
    method DiscardLists()
      modifies this`inFlight, this`awaiting
      ensures Tele() == old(Tele()).(inFlight := []) && Reports() == old(Reports()).(awaiting := [])
    {
      inFlight, awaiting := [], [];
    }

    method FreeReports()
      modifies this`queue, this`acks, this`dropped
      ensures
        var w := old(Reports());
        Reports() == w.(queue := [], acks := [], dropped := w.dropped + w.queue + w.acks)
    {
      dropped, queue, acks := dropped + queue + acks, [], [];
    }

    method Destroy()
      modifies this
      ensures View() == M.DestroyClient(old(View()))
    {
      hide T.DrainWaiting, M.DestroyTransport, Tele, Conn, Reports;
      DestroyTransport();
      DrainWaiting();
      FreeReports();
      live := false;
    }

    // -------------------------------------------------------------------------
    // Subscriptions and connection events
    // -------------------------------------------------------------------------

    method AddTopic(f: C.Topic)
      modifies this`topics, this`pending
      ensures Conn() == C.AddTopic(old(Conn()), f)
    {
      topics, pending := topics + {f}, pending + {f};
    }

    method DropTopic(f: C.Topic)
      modifies this`topics, this`pending, this`handed
      ensures Conn() == C.DropTopic(old(Conn()), f)
    {
      topics, pending, handed := topics - {f}, pending - {f}, handed - {f};
    }

    method SubscribeMessages(memory: bool)
      modifies this`phase, this`topics, this`pending
      ensures Conn() == C.SubscribeMessages(old(Conn()), memory)
    {
      topics := topics - {C.Messages};
      if memory {
        AddTopic(C.Messages);
        phase := C.Resubscribe(phase);
      }
    }

    method SubscribeMethods(memory: bool)
      modifies this`phase, this`topics, this`pending
      ensures Conn() == C.SubscribeMethods(old(Conn()), memory)
    {
      if C.DeviceMethods !in topics {
        if !memory { return; }
        AddTopic(C.DeviceMethods);
      }
      phase := C.Resubscribe(phase);
    }

    method UnsubscribeTwin()
      modifies this`topics, this`pending, this`handed
      ensures Conn() == C.DropTopic(C.DropTopic(old(Conn()), C.GetState), C.NotifyState)
    {
      DropTopic(C.GetState);
      DropTopic(C.NotifyState);
    }

    method UnsubscribeMethods()
      modifies this`topics, this`pending, this`handed, this`ids
      ensures
        var c := old(Conn());
        if C.DeviceMethods in c.topics then Conn() == C.DropTopic(c, C.DeviceMethods) && Tele() == T.TakeId(old(Tele()))
        else Conn() == c && Tele() == old(Tele())
    {
      if C.DeviceMethods in topics {
        DropTopic(C.DeviceMethods);
        var _ := NextPacketId();
      }
    }

    method ChangeKeepAlive()
      modifies this`connected, this`phase
      ensures Conn() == if old(Conn()).connected then C.Disconnected(old(Conn())) else old(Conn())
    {
      if connected { Disconnect(); }
    }

    method ConnAcked(accept: bool)
      modifies this`connected, this`phase
      ensures Conn() == C.ConnAcked(old(Conn()), accept)
    {
      if accept {
        phase := C.ConnAck;
      } else {
        connected, phase := false, C.PacketError;
      }
    }

    method SubAcked()
      modifies this`phase
      ensures Conn() == old(Conn()).(phase := C.SubAck)
    {
      phase := C.SubAck;
    }

    /** mqtt_error_callback */
    method ConnectionFailed()
      modifies this`connected, this`phase, this`getSent, this`pending, this`handed
      ensures Conn() == C.Failed(old(Conn()))
    {
      connected, phase, getSent := false, C.PacketError, false;
      MarkAllTopics();
    }

    method SetMessageTimeout(v: Tick)
      modifies this`timeout
      ensures Tele() == old(Tele()).(timeout := v)
    {
      timeout := v;
    }

    // -------------------------------------------------------------------------
    // Any sequence of calls is a run of the state machine
    // -------------------------------------------------------------------------

    /** The operations that touch only the connection. */
    method ConnectionStep(op: M.Op)
      requires || op.SubscribeMessages? || op.SubscribeTwin? || op.UnsubscribeTwin? || op.SubscribeMethods?
               || op.ChangeKeepAlive? || op.ConnAcked? || op.SubAcked? || op.Disconnected? || op.ConnectionFailed?
      requires live
      modifies this`phase, this`connected, this`getSent, this`topics, this`pending, this`handed
      ensures View() == M.Apply(old(View()), op)
    {
      hide Tele, Reports, Conn, C.SubscribeMessages, C.SubscribeTwin, C.DropTopic, C.SubscribeMethods, C.Disconnected,
          C.ConnAcked, C.Failed;
      match op {
        case SubscribeMessages(memory) => SubscribeMessages(memory);
        case SubscribeTwin(g, n) => var _ := SubscribeTwin(g, n);
        case UnsubscribeTwin => UnsubscribeTwin();
        case SubscribeMethods(memory) => SubscribeMethods(memory);
        case ChangeKeepAlive => ChangeKeepAlive();
        case ConnAcked(accept) => ConnAcked(accept);
        case SubAcked => SubAcked();
        case Disconnected => Disconnect();
        case ConnectionFailed => ConnectionFailed();
      }
    }

    method Step(op: M.Op)
      modifies this
      ensures View() == M.Apply(old(View()), op)
    {
      hide Tele, Reports, Conn, C.DropTopic, C.SubscribeTwin, C.TwinSubscribed, T.Submit, T.AckWalk, T.TakeId,
          T.Callback,
           W.Enqueue, W.Respond, W.CalledBack, M.Work, M.DestroyClient;
      if !live { return; }
      match op {
        case SendEvent(r) => var _ := SendEventAsync(r);
        case SetMessageTimeout(v) => SetMessageTimeout(v);
        case SendReport(notify, memory, g, n) => var _ := SendReportedState(notify, memory, g, n);
        case UnsubscribeMessages =>
          DropTopic(C.Messages);
          var _ := NextPacketId();
        case UnsubscribeMethods => UnsubscribeMethods();
        case DoWork(env) => DoWork(env);
        case PubAck(pid) => PubAck(pid);
        case TwinResponse(rid, status) => TwinResponse(rid, status);
        case MethodRequest => var _ := NextPacketId();
        case Destroy => Destroy();
        case _ => ConnectionStep(op);
      }
    }

    method Run(ops: seq<M.Op>)
      modifies this
      ensures View() == M.Exec(old(View()), ops)
    {
      hide View, M.Apply;
      var k := 0;
      while k < |ops|
        invariant k <= |ops|
        invariant View() == M.Exec(old(View()), ops[..k])
      {
        Step(ops[k]);
        k := k + 1;
        assert ops[..k][..k - 1] == ops[..k - 1];
      }
      assert ops[..k] == ops;
    }
  }
}
