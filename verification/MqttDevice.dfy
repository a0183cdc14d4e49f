/**
 * One device over MQTT: the low-level client and its transport as a single state machine.
 * Network, clock and allocator answers are part of each operation, so a run is a start
 * state and a sequence of operations.
 */
module MqttDevice {
  import opened Clock
  import opened Lists
  import C = Connection
  import PacketIds
  import T = Telemetry
  import W = Twin

  /** `bound` says that the transport knows the client handle, which only DoWork gives it. */
  datatype State = State(tele: T.State, twin: W.State, conn: C.State, bound: bool, live: bool)

  function Start(user: seq<seq<T.Request>>, uninitialised: Tick): (s: State)
  {
    State(T.Start(user), W.START, C.Start(uninitialised), false, true)
  }

  /** Everything the environment answers during one DoWork. */
  datatype WorkEnv = WorkEnv(
    timeoutClock: Option<Tick>,
    reports: nat -> W.Outcome,
    connect: C.ConnectEnv,
    subscribed: bool,
    retrieve: W.Outcome,
    visit: nat -> T.Visit,
    first: nat -> T.FirstOutcome)

  datatype Op =
    | SendEvent(request: T.Request)
    | SetMessageTimeout(timeout: Tick)
    | SendReport(notify: bool, memory: bool, getMemory: bool, notifyMemory: bool)
    | SubscribeMessages(memory: bool)
    | UnsubscribeMessages
    | SubscribeTwin(getMemory: bool, notifyMemory: bool)
    | UnsubscribeTwin
    | SubscribeMethods(memory: bool)
    | UnsubscribeMethods
    | ChangeKeepAlive
    | DoWork(env: WorkEnv)
    | PubAck(packetId: nat)
    | ConnAcked(accepted: bool)
    | SubAcked
    | Disconnected
    | ConnectionFailed
    | TwinResponse(requestId: nat, status: int)
    | MethodRequest
    | Destroy

  // ---------------------------------------------------------------------------
  // DoWork
  // ---------------------------------------------------------------------------

  function DoTimeouts(s: State, clock: Option<Tick>): (s': State)
  {
    if clock.None? then s else s.(tele := T.TimeoutWalk(s.tele, 0, clock.value))
  }

  /** ProcessItem answers NOT_CONNECTED, which ends the loop, unless the transport is publishing. */
  function DoReports(s: State, outcome: nat -> W.Outcome): (s': State)
  {
    if s.conn.phase != C.Publish then s
    else
      var stage := W.ProcessWalk(W.Stage(s.twin, s.tele.ids), outcome, s.conn.connected);
      s.(twin := stage.twin, tele := s.tele.(ids := stage.ids))
  }

  function DoSubscribe(s: State, ok: bool): (s': State)
  {
    s.(conn := C.SendSubscribe(s.conn, ok),
       tele := if C.DrawsId(s.conn) then T.TakeId(s.tele) else s.tele)
  }

  function DoRetrieve(s: State, o: W.Outcome): (s': State)
  {
    if (C.NotifyState in s.conn.topics || C.GetState in s.conn.topics) && !s.conn.getSent then
      var stage := W.Retrieve(W.Stage(s.twin, s.tele.ids), o);
      s.(twin := stage.twin, tele := s.tele.(ids := stage.ids),
         conn := s.conn.(getSent := o == W.Accepted, phase := C.Publish))
    else s.(conn := s.conn.(phase := C.Publish))
  }

  function DoPublish(s: State, env: WorkEnv): (s': State)
  {
    s.(tele := T.PublishWalk(T.ResendWalk(s.tele, 0, env.visit, s.conn.connected), 0, env.first, s.conn.connected))
  }

  function DoPhase(s: State, env: WorkEnv): (s': State)
  {
    match s.conn.phase
    case ConnAck => DoSubscribe(s, env.subscribed)
    case Subscribe => DoSubscribe(s, env.subscribed)
    case SubAck => DoRetrieve(s, env.retrieve)
    case Publish => DoPublish(s, env)
    case _ => s
  }

  /** IoTHubTransport_MQTT_Common_DoWork, up to the point where it lets the MQTT client work. */
  function DoTransport(s: State, env: WorkEnv): (s': State)
  {
    var (conn, ok) := C.Initialize(s.conn, env.connect);
    var s1 := s.(conn := conn, bound := true);
    if ok then DoPhase(s1, env) else s1
  }

  function Work(s: State, env: WorkEnv): (s': State)
  {
    DoTransport(DoReports(DoTimeouts(s, env.timeoutClock), env.reports), env)
  }

  // ---------------------------------------------------------------------------
  // The other operations
  // ---------------------------------------------------------------------------

  function Report(s: State, notify: bool, memory: bool, getMemory: bool, notifyMemory: bool): (s': State)
  {
    var accepted := memory && C.TwinSubscribed(s.conn, getMemory, notifyMemory);
    s.(twin := W.Enqueue(s.twin, notify, accepted),
       conn := if memory then C.SubscribeTwin(s.conn, getMemory, notifyMemory) else s.conn)
  }

  /** The application callback of an answered report may submit messages. */
  function Answered(s: State, twin: W.State): (s': State)
  {
    s.(twin := twin, tele := if W.CalledBack(s.twin, twin) then T.Callback(s.tele) else s.tele)
  }

  function DrainTwin(s: State): (s': State)
    decreases |s.twin.awaiting|
  {
    if s.twin.awaiting == [] then s
    else
      var item := s.twin.awaiting[0];
      var popped := s.(twin := s.twin.(awaiting := s.twin.awaiting[1..]));
      DrainTwin(Answered(popped, W.Complete(popped.twin, item.reportId, W.STATUS_CODE_TIMEOUT)))
  }

  /** IoTHubTransport_MQTT_Common_Destroy; without a client handle nothing can be confirmed. */
  function DestroyTransport(s: State): (s': State)
  {
    var s1 := s.(conn := C.Disconnected(s.conn));
    if s1.bound then DrainTwin(s1.(tele := T.DrainFlight(s1.tele)))
    else s1.(tele := s1.tele.(inFlight := []), twin := s1.twin.(awaiting := []))
  }

  /** IoTHubClient_LL_Destroy */
  function DestroyClient(s: State): (s': State)
  {
    var s1 := DestroyTransport(s);
    s1.(tele := T.DrainWaiting(s1.tele),
        twin := s1.twin.(queue := [], acks := [], dropped := s1.twin.dropped + s1.twin.queue + s1.twin.acks),
        live := false)
  }

  function Apply(s: State, op: Op): (s': State)
  {
    if !s.live then s
    else match op
      case SendEvent(r) => s.(tele := T.Submit(s.tele, r))
      case SetMessageTimeout(v) => s.(tele := s.tele.(timeout := v))
      case SendReport(notify, memory, g, n) => Report(s, notify, memory, g, n)
      case SubscribeMessages(memory) => s.(conn := C.SubscribeMessages(s.conn, memory))
      case UnsubscribeMessages => s.(conn := C.DropTopic(s.conn, C.Messages), tele := T.TakeId(s.tele))
      case SubscribeTwin(g, n) => s.(conn := C.SubscribeTwin(s.conn, g, n))
      case UnsubscribeTwin => s.(conn := C.DropTopic(C.DropTopic(s.conn, C.GetState), C.NotifyState))
      case SubscribeMethods(memory) => s.(conn := C.SubscribeMethods(s.conn, memory))
      case UnsubscribeMethods =>
        if C.DeviceMethods in s.conn.topics
        then s.(conn := C.DropTopic(s.conn, C.DeviceMethods), tele := T.TakeId(s.tele))
        else s
      case ChangeKeepAlive => if s.conn.connected then s.(conn := C.Disconnected(s.conn)) else s
      case DoWork(env) => Work(s, env)
      case PubAck(pid) => s.(tele := T.AckWalk(s.tele, 0, pid))
      case ConnAcked(accepted) => s.(conn := C.ConnAcked(s.conn, accepted))
      case SubAcked => s.(conn := s.conn.(phase := C.SubAck))
      case Disconnected => s.(conn := C.Disconnected(s.conn))
      case ConnectionFailed => s.(conn := C.Failed(s.conn))
      case TwinResponse(rid, status) => Answered(s, W.Respond(s.twin, rid, status))
      case MethodRequest => s.(tele := T.TakeId(s.tele))
      case Destroy => DestroyClient(s)
  }

  function Exec(s: State, ops: seq<Op>): (s': State)
  {
    if ops == [] then s else Apply(Exec(s, ops[..|ops| - 1]), ops[|ops| - 1])
  }

  datatype SendStatus = Idle | Busy

  /** IoTHubTransport_MQTT_Common_GetSendStatus */
  function GetSendStatus(s: State): (status: SendStatus)
  {
    if s.tele.waiting != [] || s.tele.inFlight != [] then Busy else Idle
  }
}
