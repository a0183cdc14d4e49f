/**
 * The AMQP transport with several devices, each with its client's wait list, its own
 * in-progress list and its authentication.
 */
module AmqpTransport {
  import opened Clock
  import opened Lists
  import A = AmqpAuth
  import T = Telemetry

  /**
   * A call of messagesender_send: the event, the clock reading of the status check, the refresh
   * option and the latest token at that time, and what CBS last answered to a put.
   */
  datatype Handoff = Handoff(message: T.Message, now: Option<A.Seconds>, refresh: A.Word, token: Option<A.Token>,
                             answer: Option<bool>)

  /**
   * `client` is the low-level client, whose wait list the transport shares (its in-flight
   * part is unused here); `sender` says that the message sender exists, `open` that its
   * last reported state is OPEN.  `answer` (what CBS last answered to a put) and `handed` are history.
   */
  datatype Device = Device(
    id: string, client: T.State, inProgress: seq<T.Message>, auth: A.State,
    sender: bool, open: bool, answer: Option<bool>, handed: seq<Handoff>)

  function NewDevice(id: string, credential: A.Credential, user: seq<seq<T.Request>>,
                     uninitialised: A.Word): (d: Device)
  {
    Device(id, T.Start(user), [], A.Start(credential, uninitialised), false, false, None, [])
  }

  // ---------------------------------------------------------------------------
  // One device
  // ---------------------------------------------------------------------------

  /** An event cannot be encoded, the sender refuses it, or it is on its way. */
  datatype Outcome = BadMessage | SendFailed | Sent

  datatype Pass = Pass(device: Device, ok: bool)

  function Offer(d: Device, m: T.Message, now: Option<A.Seconds>, opts: A.Options): (d': Device)
  {
    d.(handed := d.handed + [Handoff(m, now, opts.refresh, d.auth.token, d.answer)])
  }

  /** sendPendingEvents; the outcomes are keyed by message id, and `ok` is the result so far. */
  function SendPending(d: Device, send: nat -> Outcome, now: Option<A.Seconds>, opts: A.Options, ok: bool): (p: Pass)
    ensures p.device.id == d.id && p.device.auth == d.auth && p.device.sender == d.sender
    decreases |d.client.waiting| + T.Backlog(d.client.user)
  {
    if d.client.waiting == [] then Pass(d, ok)
    else
      var m := d.client.waiting[0];
      var rest := T.Unqueue(d.client, 0);
      match send(m.id)
      case BadMessage => SendPending(d.(client := T.Finish(rest, m, T.Error)), send, now, opts, false)
      case SendFailed => Pass(Offer(d, m, now, opts).(client := rest.(waiting := rest.waiting + [m])), false)
      case Sent =>
        SendPending(Offer(d, m, now, opts).(client := rest, inProgress := d.inProgress + [m]), send, now, opts, true)
  }

  datatype SenderOutcome = NotCreated | NotOpened | Created

  datatype DeviceEnv = DeviceEnv(clock: Option<A.Seconds>, auth: A.Env, receiver: bool, sender: SenderOutcome,
      send: nat -> Outcome)

  /** device_DoWork; `ok` is false for RESULT_CRITICAL_ERROR. */
  function WorkDevice(d: Device, opts: A.Options, env: DeviceEnv): (p: Pass)
    ensures p.device.id == d.id
  {
    var a := A.GetStatus(d.auth, opts, env.clock);
    match a.status
    case Idle => Pass(d.(auth := A.Authenticate(a, opts, env.auth).0), true)
    case RefreshRequired => Pass(d.(auth := A.Refresh(a, opts, env.auth).0), true)
    case InProgress => Pass(d.(auth := a), true)
    case Failure => Pass(d.(auth := a), false)
    case Timeout => Pass(d.(auth := a), false)
    case Ok =>
      if !d.sender && !env.sender.Created? then Pass(d.(auth := a, sender := env.sender.NotOpened?), false)
      else
        var ready := d.(auth := a, sender := true);
        if !d.open then Pass(ready, env.receiver)
        else
          var p := SendPending(ready, env.send, env.clock, opts, true);
          Pass(p.device, p.ok && env.receiver)
  }

  /** rollEventsBackToWaitList: the in-progress events go to the tail of the wait list, newest first. */
  function Rollback(d: Device): (d': Device)
  {
    d.(client := d.client.(waiting := d.client.waiting + Reverse(d.inProgress)), inProgress := [])
  }

  /** prepareDeviceForConnectionRetry, followed by the loss of the CBS instance. */
  function RetryDevice(d: Device, deleted: bool): (d': Device)
  {
    Rollback(d.(auth := A.CbsGone(A.Reset(d.auth, deleted).0), sender := false))
  }

  /** on_message_send_complete */
  function CompleteSend(d: Device, i: nat, ok: bool): (d': Device)
  {
    if i >= |d.inProgress| then d
    else d.(client := T.Finish(d.client, d.inProgress[i], if ok then T.Ok else T.Error),
            inProgress := RemoveAt(d.inProgress, i))
  }

  /** Unregister gives the in-progress events back; the client's Destroy then confirms what waits. */
  function CloseDevice(d: Device): (d': Device)
  {
    var back := Rollback(d.(sender := false));
    back.(client := T.DrainWaiting(back.client))
  }

  // ---------------------------------------------------------------------------
  // The transport
  // ---------------------------------------------------------------------------

  /** `vector` lists the registered devices by handle, that is by index into `devices`. */
  datatype State = State(
    devices: seq<Device>, vector: seq<nat>, preferred: Option<A.Credential>, opts: A.Options,
    connected: bool, faulty: bool)

  const DEFAULT_OPTIONS := A.Options(3600000, 1800000, 30000)

  const START := State([], [], None, DEFAULT_OPTIONS, false, false)

  datatype TransportEnv = TransportEnv(established: bool, device: nat -> DeviceEnv, deleted: nat -> bool)

  datatype Op =
    | Register(id: string, credential: A.Credential, user: seq<seq<T.Request>>, uninitialised: A.Word)
    | DestroyClient(handle: nat)
    | SendEvent(handle: nat, request: T.Request)
    | SetMessageTimeout(handle: nat, timeout: Tick)
    | DoTimeouts(handle: nat, now: Tick)
    | DoWork(env: TransportEnv)
    | SendComplete(handle: nat, index: nat, ok: bool)
    | SenderChanged(handle: nat, open: bool, error: bool)
    | PutDone(handle: nat, ok: bool)
    | DeleteDone(handle: nat, ok: bool)
    | ConnectionError
    | SetOptions(opts: A.Options)

  /** VECTOR_find_if by device id, from position `k` on. */
  function Find(s: State, id: string, k: nat): (j: nat)
    requires k <= |s.vector| && forall i :: 0 <= i < |s.vector| ==> s.vector[i] < |s.devices|
    ensures k <= j <= |s.vector|
    ensures j < |s.vector| ==> s.devices[s.vector[j]].id == id
    ensures forall i :: k <= i < j ==> s.devices[s.vector[i]].id != id
    decreases |s.vector| - k
  {
    if k == |s.vector| || s.devices[s.vector[k]].id == id then k else Find(s, id, k + 1)
  }

  /** Registered handles are valid, and no device id is registered twice. */
  ghost predicate Indexed(s: State)
  {
    && (forall k :: 0 <= k < |s.vector| ==> s.vector[k] < |s.devices|)
    && (forall j, k :: 0 <= j < k < |s.vector| ==> s.devices[s.vector[j]].id != s.devices[s.vector[k]].id)
  }

  predicate Compatible(s: State, credential: A.Credential)
  {
    s.preferred.Some? ==> (s.preferred.value.X509? <==> credential.X509?)
  }

  /** IoTHubTransportAMQP_Register */
  function RegisterDevice(s: State, d: Device): (s': State)
    requires Indexed(s)
  {
    if !Compatible(s, d.auth.credential) || Find(s, d.id, 0) < |s.vector| then s
    else s.(devices := s.devices + [d], vector := s.vector + [|s.devices|],
            preferred := if s.vector == [] then Some(d.auth.credential) else s.preferred)
  }

  /** Unregister erases the first vector element with the handle's device id. */
  function Unregister(s: State, handle: nat): (s': State)
    requires Indexed(s) && handle in s.vector
  {
    var k := Find(s, s.devices[handle].id, 0);
    if k == |s.vector| then s
    else s.(devices := s.devices[handle := CloseDevice(s.devices[handle])], vector := RemoveAt(s.vector, k))
  }

  function RetryAll(s: State, env: TransportEnv): (ds: seq<Device>)
    ensures |ds| == |s.devices|
    ensures forall i :: 0 <= i < |s.devices| ==>
              ds[i] == if i in s.vector then RetryDevice(s.devices[i], env.deleted(i)) else s.devices[i]
  {
    seq(|s.devices|, i requires 0 <= i < |s.devices| =>
          if i in s.vector then RetryDevice(s.devices[i], env.deleted(i)) else s.devices[i])
  }

  /** prepareForConnectionRetry */
  function Retry(s: State, env: TransportEnv): (s': State)
  {
    s.(devices := RetryAll(s, env), connected := false, faulty := false)
  }

  function WorkAll(s: State, env: TransportEnv): (ds: seq<Device>)
    ensures |ds| == |s.devices|
    ensures forall i :: 0 <= i < |s.devices| ==>
              ds[i] == if i in s.vector then WorkDevice(s.devices[i], s.opts, env.device(i)).device else s.devices[i]
  {
    seq(|s.devices|, i requires 0 <= i < |s.devices| =>
          if i in s.vector then WorkDevice(s.devices[i], s.opts, env.device(i)).device else s.devices[i])
  }

  predicate AnyCritical(s: State, env: TransportEnv)
  {
    exists i :: 0 <= i < |s.devices| && i in s.vector && !WorkDevice(s.devices[i], s.opts, env.device(i)).ok
  }

  /** IoTHubTransportAMQP_DoWork */
  function Work(s: State, env: TransportEnv): (s': State)
  {
    if s.vector == [] then s
    else if s.connected && s.faulty then Retry(s, env)
    else if !s.connected && !env.established then Retry(s, env)
    else
      var s1 := s.(devices := WorkAll(s, env), connected := true);
      if AnyCritical(s, env) then Retry(s1, env) else s1
  }

  function SetDevice(s: State, handle: nat, d: Device): (s': State)
    requires handle < |s.devices|
  {
    s.(devices := s.devices[handle := d])
  }

  /** What an operation on one registered device does to it. */
  function OnDevice(d: Device, op: Op): (d': Device)
  {
    match op
    case SendEvent(_, r) => d.(client := T.Submit(d.client, r))
    case SetMessageTimeout(_, v) => d.(client := d.client.(timeout := v))
    case DoTimeouts(_, now) => d.(client := T.TimeoutWalk(d.client, 0, now))
    case SendComplete(_, i, ok) => CompleteSend(d, i, ok)
    case SenderChanged(_, open, _) => d.(open := open)
    case PutDone(_, ok) =>
      d.(auth := A.PutDone(d.auth, ok), answer := if d.auth.puts > 0 then Some(ok) else d.answer)
    case DeleteDone(_, ok) => d.(auth := A.DeleteDone(d.auth, ok))
    case _ => d
  }

  function Apply(s: State, op: Op): (s': State)
    requires Indexed(s)
  {
    match op
    case Register(id, credential, user, u) => RegisterDevice(s, NewDevice(id, credential, user, u))
    case DestroyClient(h) => if h in s.vector then Unregister(s, h) else s
    case DoWork(env) => Work(s, env)
    case ConnectionError => s.(faulty := true)
    case SetOptions(opts) => s.(opts := opts)
    case SenderChanged(h, open, error) =>
      if h in s.vector then SetDevice(s, h, OnDevice(s.devices[h], op)).(faulty := s.faulty || error) else s
    case _ => if op.handle in s.vector then SetDevice(s, op.handle, OnDevice(s.devices[op.handle], op)) else s
  }

  lemma SameIds(s: State, s': State)
    requires Indexed(s) && s'.vector == s.vector && |s'.devices| == |s.devices|
    requires forall i :: 0 <= i < |s.devices| ==> s'.devices[i].id == s.devices[i].id
    ensures Indexed(s')
  {
  }

  lemma WorkAllIndexed(s: State, env: TransportEnv)
    requires Indexed(s)
    ensures Indexed(s.(connected := true)) && Indexed(s.(devices := WorkAll(s, env), connected := true))
    ensures WorkAll(s.(connected := true), env) == WorkAll(s, env)
    ensures AnyCritical(s.(connected := true), env) <==> AnyCritical(s, env)
  {
    hide WorkDevice;
    SameIds(s, s.(devices := WorkAll(s, env), connected := true));
  }

  lemma UnregisterIndexed(s: State, handle: nat)
    requires Indexed(s) && handle in s.vector
    ensures Indexed(Unregister(s, handle))
  {
    hide T.DrainWaiting;
    var k := Find(s, s.devices[handle].id, 0);
    var s' := Unregister(s, handle);
    forall i | 0 <= i < |s.devices| ensures s'.devices[i].id == s.devices[i].id {}
    assert forall j :: 0 <= j < |s'.vector| ==> s'.vector[j] == s.vector[if j < k then j else j + 1];
  }

  lemma RegisterIndexed(s: State, d: Device)
    requires Indexed(s)
    ensures Indexed(RegisterDevice(s, d))
  {
  }

  lemma WorkIndexed(s: State, env: TransportEnv)
    requires Indexed(s)
    ensures Indexed(Work(s, env))
  {
    hide WorkDevice;
    SameIds(s, Work(s, env));
  }

  lemma OnDeviceId(d: Device, op: Op)
    ensures OnDevice(d, op).id == d.id
  {
    hide T.TimeoutWalk, T.Submit, T.Finish;
  }

  /** Every operation keeps the vector well formed, so runs are defined. */
  lemma ApplyIndexed(s: State, op: Op)
    requires Indexed(s)
    ensures Indexed(Apply(s, op))
  {
    hide WorkDevice, Unregister, RegisterDevice;
    match op {
      case Register(id, c, user, u) => RegisterIndexed(s, NewDevice(id, c, user, u));
      case DestroyClient(h) => if h in s.vector { UnregisterIndexed(s, h); }
      case DoWork(env) => WorkIndexed(s, env);
      case ConnectionError =>
      case SetOptions(_) =>
      case _ =>
        hide Work;
        if op.handle in s.vector { OnDeviceId(s.devices[op.handle], op); }
        hide OnDevice;
        SameIds(s, Apply(s, op));
    }
  }

  // ---------------------------------------------------------------------------
  // The passes over the vector, one position at a time
  // ---------------------------------------------------------------------------

  /** A handle occurs in the vector once. */
  lemma VectorDistinct(s: State)
    requires Indexed(s)
    ensures NoDuplicates(s.vector) && forall k :: 0 <= k < |s.vector| ==> s.vector[k] < |s.devices|
  {
  }

  /** `ds` has the devices at the first `k` vector positions replaced by those of `next`, and no others. */
  ghost predicate PassAt(s: State, next: seq<Device>, k: nat, ds: seq<Device>)
  {
    && k <= |s.vector| && |ds| == |next| == |s.devices|
    && forall i :: 0 <= i < |ds| ==> ds[i] == if i in s.vector[..k] then next[i] else s.devices[i]
  }

  lemma PassStarts(s: State, next: seq<Device>)
    requires |next| == |s.devices|
    ensures PassAt(s, next, 0, s.devices)
  {
  }

  /** The device at position `k` still has its old value; replacing it moves the pass on. */
  lemma PassMoves(s: State, next: seq<Device>, k: nat, ds: seq<Device>)
    requires Indexed(s) && PassAt(s, next, k, ds) && k < |s.vector|
    ensures s.vector[k] < |ds| && ds[s.vector[k]] == s.devices[s.vector[k]]
    ensures PassAt(s, next, k + 1, ds[s.vector[k] := next[s.vector[k]]])
  {
    VectorDistinct(s);
    assert s.vector[..k + 1] == s.vector[..k] + [s.vector[k]];
  }

  lemma PassEnds(s: State, next: seq<Device>, ds: seq<Device>)
    requires PassAt(s, next, |s.vector|, ds)
    requires forall i :: 0 <= i < |s.devices| && i !in s.vector ==> next[i] == s.devices[i]
    ensures ds == next
  {
    assert s.vector[..|s.vector|] == s.vector;
  }

  /** No device at the first `k` vector positions runs into a critical error. */
  predicate FineUpTo(s: State, env: TransportEnv, k: nat)
    requires k <= |s.vector| && forall j :: 0 <= j < |s.vector| ==> s.vector[j] < |s.devices|
  {
    forall j :: 0 <= j < k ==> WorkDevice(s.devices[s.vector[j]], s.opts, env.device(s.vector[j])).ok
  }

  lemma FineMoves(s: State, env: TransportEnv, k: nat)
    requires Indexed(s) && k < |s.vector|
    ensures FineUpTo(s, env, k + 1) <==>
            FineUpTo(s, env, k) && WorkDevice(s.devices[s.vector[k]], s.opts, env.device(s.vector[k])).ok
  {
    hide WorkDevice;
  }

  lemma FineThroughout(s: State, env: TransportEnv)
    requires Indexed(s)
    ensures FineUpTo(s, env, 0)
    ensures FineUpTo(s, env, |s.vector|) <==> !AnyCritical(s, env)
  {
    hide WorkDevice;
    if FineUpTo(s, env, |s.vector|) {
      forall i | 0 <= i < |s.devices| && i in s.vector ensures WorkDevice(s.devices[i], s.opts, env.device(i)).ok {
        var j :| 0 <= j < |s.vector| && s.vector[j] == i;
      }
    } else {
      var j :| 0 <= j < |s.vector| && !WorkDevice(s.devices[s.vector[j]], s.opts, env.device(s.vector[j])).ok;
      assert s.vector[j] in s.vector;
    }
  }

  // ---------------------------------------------------------------------------
  // Runs
  // ---------------------------------------------------------------------------

  function Exec(s: State, ops: seq<Op>): (s': State)
    requires Indexed(s)
    ensures Indexed(s')
    decreases |ops|
  {
    if ops == [] then s
    else
      var before := Exec(s, ops[..|ops| - 1]);
      ApplyIndexed(before, ops[|ops| - 1]);
      Apply(before, ops[|ops| - 1])
  }

  datatype SendStatus = Idle | Busy

  /** IoTHubTransportAMQP_GetSendStatus */
  function GetSendStatus(d: Device): (status: SendStatus)
  {
    if d.client.waiting != [] || d.inProgress != [] then Busy else Idle
  }
}
