/**
 * The mutable objects of the AMQP transport: a device's authentication, the device with
 * its two event lists, and the transport with its vector of registered devices.
 */
module AmqpHandles {
  import opened Clock
  import opened Lists
  import A = AmqpAuth
  import M = AmqpTransport
  import PacketIds
  import T = Telemetry

  class Authentication {
    const credential: A.Credential
    var status: A.Status
    var createTime: A.Word
    var putTime: A.Word
    var puts: nat
    var deletes: nat
    var token: Option<A.Token>

    function View(): (a: A.State)
      reads this
    {
      A.State(credential, status, createTime, putTime, puts, deletes, token)
    }

    constructor (kind: A.Credential, uninitialised: A.Word)
      ensures View() == A.Start(kind, uninitialised)
    {
      credential := kind;
      status, puts, deletes, token := A.Idle, 0, 0, None;
      createTime := if kind.X509? then uninitialised else 0;
      putTime := uninitialised;
    }

    method HandToCbs(now: A.Seconds, ok: bool)
      modifies this
      ensures View() == A.Put(old(View()), now, ok)
    {
      if ok { status, putTime, puts := A.InProgress, now, puts + 1; }
    }

    method Authenticate(opts: A.Options, env: A.Env) returns (ok: bool)
      modifies this
      ensures (View(), ok) == A.Authenticate(old(View()), opts, env)
    {
      match credential {
        case X509 =>
          ok := status == A.Idle;
          if ok { status := A.Ok; }
        case DeviceKey =>
          if env.clock.None? || !env.memory || !env.signed { return false; }
          createTime, token := env.clock.value, Some(A.Token(env.clock.value, opts.lifetime));
          HandToCbs(env.clock.value, env.put);
          ok := env.put;
        case DeviceSasToken =>
          if env.clock.None? || !env.memory { return false; }
          HandToCbs(env.clock.value, env.put);
          ok := env.put;
      }
    }

    method GetStatus(opts: A.Options, clock: Option<A.Seconds>) returns (s: A.Status)
      modifies this
      ensures View() == A.GetStatus(old(View()), opts, clock) && s == status
    {
      match credential {
        case DeviceKey =>
          if status == A.InProgress {
            VerifyTimeout(opts, clock);
          } else if status == A.Ok && A.NeedsRefresh(View(), opts, clock) {
            status := A.RefreshRequired;
          }
        case DeviceSasToken =>
          if status == A.InProgress { VerifyTimeout(opts, clock); }
        case X509 =>
      }
      s := status;
    }

    method VerifyTimeout(opts: A.Options, clock: Option<A.Seconds>)
      requires status == A.InProgress && !credential.X509?
      modifies this
      ensures View() == A.GetStatus(old(View()), opts, clock)
    {
      if clock.None? {
        status := A.Failure;
      } else if A.TimedOut(View(), opts, clock.value) {
        status := A.Timeout;
      }
    }

    method Refresh(opts: A.Options, env: A.Env) returns (ok: bool)
      modifies this
      ensures (View(), ok) == A.Refresh(old(View()), opts, env)
    {
      if credential.X509? { ok := true; } else { ok := Authenticate(opts, env); }
    }

    method Reset(deleted: bool) returns (ok: bool)
      modifies this
      ensures (View(), ok) == A.Reset(old(View()), deleted)
    {
      if credential.X509? || status == A.Failure || status == A.RefreshRequired {
        status := A.Idle;
        return true;
      }
      if (status != A.Ok && status != A.InProgress) || !deleted { return false; }
      status, createTime, deletes := A.Idle, 0, deletes + 1;
      ok := true;
    }

    method OnPutComplete(result: bool)
      modifies this
      ensures View() == A.PutDone(old(View()), result)
    {
      if puts > 0 { puts, status := puts - 1, if result then A.Ok else A.Failure; }
    }

    method OnDeleteComplete(result: bool)
      modifies this
      ensures View() == A.DeleteDone(old(View()), result)
    {
      if deletes > 0 { deletes, status := deletes - 1, if result then A.Idle else A.Failure; }
    }

    method ForgetCbs()
      modifies this
      ensures View() == A.CbsGone(old(View()))
    {
      puts, deletes := 0, 0;
    }

    /** One operation or callback, as the token model takes it. */
    method Step(op: A.Op)
      modifies this
      ensures View() == A.Apply(old(View()), op)
    {
      hide A.Authenticate, A.GetStatus, A.Refresh, A.Reset, A.PutDone, A.DeleteDone;
      match op {
        case DoAuthenticate(opts, env) => var _ := Authenticate(opts, env);
        case DoGetStatus(opts, clock) => var _ := GetStatus(opts, clock);
        case DoRefresh(opts, env) => var _ := Refresh(opts, env);
        case DoReset(deleted) => var _ := Reset(deleted);
        case DoPutDone(ok) => OnPutComplete(ok);
        case DoDeleteDone(ok) => OnDeleteComplete(ok);
        case DoCbsGone => ForgetCbs();
      }
    }

    /** Any sequence of calls and callbacks is a run of the token model. */
    method Run(ops: seq<A.Op>)
      modifies this
      ensures View() == A.Exec(old(View()), ops)
    {
      hide A.Apply;
      var k := 0;
      while k < |ops|
        invariant 0 <= k <= |ops| && View() == A.Exec(old(View()), ops[..k])
      {
        Step(ops[k]);
        k := k + 1;
        assert ops[..k][..k - 1] == ops[..k - 1];
      }
      assert ops[..k] == ops;
    }
  }

  /** A registered device, with the event queue of its low-level client. */
  class Device {
    const id: string
    const auth: Authentication
    // the low-level client
    var waiting: seq<T.Message>
    var timeout: Tick
    var user: seq<seq<T.Request>>
    var accepted: seq<T.Message>
    var done: seq<T.Completion>
    // the transport's part
    var inProgress: seq<T.Message>
    var sender: bool
    var open: bool
    var answer: Option<bool>
    var handed: seq<M.Handoff>

    function Client(): (t: T.State)
      reads this`waiting, this`timeout, this`user, this`accepted, this`done
    {
      T.State(waiting, [], timeout, PacketIds.FIRST_COUNTER, user, accepted, done, [])
    }

    function View(): (d: M.Device)
      reads this, auth
    {
      M.Device(id, Client(), inProgress, auth.View(), sender, open, answer, handed)
    }

    constructor (name: string, credential: A.Credential, script: seq<seq<T.Request>>, uninitialised: A.Word)
      ensures View() == M.NewDevice(name, credential, script, uninitialised)
      ensures fresh(auth)
    {
      id := name;
      auth := new Authentication(credential, uninitialised);
      waiting, timeout, user, accepted, done := [], 0, script, [], [];
      inProgress, sender, open, answer, handed := [], false, false, None, [];
    }

    /** The confirmation callback of `m`; what the application submits from it lands in the wait list. */
    method Confirm(m: T.Message, result: T.Confirmation)
      modifies this`waiting, this`user, this`accepted, this`done
      ensures Client() == T.Finish(old(Client()), m, result)
      ensures |waiting| + T.Backlog(user) <= old(|waiting| + T.Backlog(user)) && |old(waiting)| <= |waiting|
    {
      done := done + [T.Completion(m, result)];
      if m.notify {
        var after := T.Callback(Client());
        waiting, user, accepted := after.waiting, after.user, after.accepted;
      }
    }

    /** sendPendingEvents */
    method SendPendingEvents(send: nat -> M.Outcome, now: Option<A.Seconds>, opts: A.Options) returns (ok: bool)
      modifies this
      ensures M.Pass(View(), ok) == M.SendPending(old(View()), send, now, opts, true)
    {
      hide T.Finish, T.Grows;
      ok := true;
      while waiting != []
        invariant M.SendPending(View(), send, now, opts, ok) == M.SendPending(old(View()), send, now, opts, true)
        decreases |waiting| + T.Backlog(user)
      {
        var m := waiting[0];
        waiting := RemoveAt(waiting, 0);
        match send(m.id) {
          case BadMessage =>
            ok := false;
            Confirm(m, T.Error);
          case SendFailed =>
            handed := handed + [M.Handoff(m, now, opts.refresh, auth.token, answer)];
            waiting := waiting + [m];
            return false;
          case Sent =>
            handed := handed + [M.Handoff(m, now, opts.refresh, auth.token, answer)];
            inProgress := inProgress + [m];
            ok := true;
        }
      }
    }

    /** on_message_send_complete: the callback runs before the event leaves the list. */
    method OnMessageSendComplete(i: nat, ok: bool)
      modifies this
      ensures View() == M.CompleteSend(old(View()), i, ok)
    {
      if i < |inProgress| {
        Confirm(inProgress[i], if ok then T.Ok else T.Error);
        inProgress := RemoveAt(inProgress, i);
      }
    }

    /** rollEventsBackToWaitList walks the in-progress list from its tail. */
    method RollEventsBack()
      modifies this`waiting, this`inProgress
      ensures waiting == old(waiting) + Reverse(old(inProgress)) && inProgress == []
    {
      while inProgress != []
        invariant waiting + Reverse(inProgress) == old(waiting) + Reverse(old(inProgress))
      {
        var m := inProgress[|inProgress| - 1];
        assert Reverse(inProgress) == [m] + Reverse(inProgress[..|inProgress| - 1]);
        inProgress := inProgress[..|inProgress| - 1];
        waiting := waiting + [m];
      }
    }

    /** prepareDeviceForConnectionRetry */
    method PrepareForRetry(deleted: bool)
      modifies this, auth
      ensures View() == M.RetryDevice(old(View()), deleted)
    {
      hide A.Reset;
      var _ := auth.Reset(deleted);
      sender := false;
      RollEventsBack();
      auth.ForgetCbs();
    }

    method CreateSender(outcome: M.SenderOutcome) returns (ok: bool)
      modifies this`sender
      ensures ok == outcome.Created? && sender == !outcome.NotCreated?
    {
      sender := !outcome.NotCreated?;
      ok := outcome.Created?;
    }

    /** device_DoWork; false stands for a critical error. */
    method DoWork(opts: A.Options, env: M.DeviceEnv) returns (ok: bool)
      modifies this, auth
      ensures M.Pass(View(), ok) == M.WorkDevice(old(View()), opts, env)
    {
      hide A.GetStatus, A.Authenticate, A.Refresh, M.SendPending;
      var s := auth.GetStatus(opts, env.clock);
      match s {
        case Idle =>
          var _ := auth.Authenticate(opts, env.auth);
          ok := true;
        case RefreshRequired =>
          var _ := auth.Refresh(opts, env.auth);
          ok := true;
        case InProgress => ok := true;
        case Failure => ok := false;
        case Timeout => ok := false;
        case Ok =>
          ok := env.receiver;
          var created := true;
          if !sender { created := CreateSender(env.sender); }
          if !created {
            ok := false;
          } else if open {
            var sent := SendPendingEvents(env.send, env.clock, opts);
            ok := ok && sent;
          }
      }
    }

    // -------------------------------------------------------------------------
    // The low-level client of the device
    // -------------------------------------------------------------------------

    method SendEventAsync(r: T.Request)
      modifies this`waiting, this`accepted
      ensures Client() == T.Submit(old(Client()), r)
    {
      if T.Accepts(timeout, r) {
        var m := T.Message(|accepted|, r.payload.value, T.Deadline(timeout, r), r.callback);
        waiting, accepted := waiting + [m], accepted + [m];
      }
    }

    method DoTimeouts(now: Tick)
      modifies this`waiting, this`user, this`accepted, this`done
      ensures Client() == T.TimeoutWalk(old(Client()), 0, now)
    {
      hide T.Finish, T.Grows;
      var i := 0;
      while i < |waiting|
        invariant 0 <= i <= |waiting|
        invariant T.TimeoutWalk(Client(), i, now) == T.TimeoutWalk(old(Client()), 0, now)
        decreases |waiting| - i + T.Backlog(user)
      {
        var m := waiting[i];
        if m.deadline != 0 && m.deadline < now {
          var last := i + 1 == |waiting|;
          waiting := RemoveAt(waiting, i);
          Confirm(m, T.MessageTimeout);
          if last { return; }
        } else {
          i := i + 1;
        }
      }
    }

    method DrainWaiting()
      modifies this`waiting, this`user, this`accepted, this`done
      ensures Client() == T.DrainWaiting(old(Client()))
    {
      while waiting != []
        invariant T.DrainWaiting(Client()) == T.DrainWaiting(old(Client()))
        decreases |waiting| + T.Backlog(user)
      {
        var m := waiting[0];
        waiting := RemoveAt(waiting, 0);
        Confirm(m, T.BecauseDestroy);
      }
    }

    /** The device's part of Unregister, and the drain of its client. */
    method Close()
      modifies this
      ensures View() == M.CloseDevice(old(View()))
    {
      hide T.DrainWaiting;
      sender := false;
      RollEventsBack();
      DrainWaiting();
    }

    /** An operation or callback that concerns this device alone. */
    method Handle(op: M.Op)
      modifies this, auth
      ensures View() == M.OnDevice(old(View()), op)
    {
      hide T.Submit, T.TimeoutWalk, M.CompleteSend, A.PutDone, A.DeleteDone;
      match op {
        case SendEvent(_, r) => SendEventAsync(r);
        case SetMessageTimeout(_, v) => timeout := v;
        case DoTimeouts(_, now) => DoTimeouts(now);
        case SendComplete(_, i, ok) => OnMessageSendComplete(i, ok);
        case SenderChanged(_, o, _) => open := o;
        case PutDone(_, ok) =>
          if auth.puts > 0 { answer := Some(ok); }
          auth.OnPutComplete(ok);
        case DeleteDone(_, ok) => auth.OnDeleteComplete(ok);
        case _ =>
      }
    }
  }

  /**
   * The transport: the device objects by handle, the vector of registered handles, and the
   * connection.  `values` are the values of the device objects.
   */
  class Transport {
    var devices: seq<Device>
    var vector: seq<nat>
    var preferred: Option<A.Credential>
    var opts: A.Options
    var connected: bool
    var faulty: bool
    ghost var values: seq<M.Device>
    ghost var Repr: set<object>

    ghost function View(): (s: M.State)
      reads this
    {
      M.State(values, vector, preferred, opts, connected, faulty)
    }

    /** The objects are the transport's own, no two handles share one, and `values` are their values. */
    ghost predicate Coherent()
      reads this, Repr
    {
      && this !in Repr && |values| == |devices|
      && (forall i :: 0 <= i < |devices| ==>
            devices[i] in Repr && devices[i].auth in Repr && devices[i].View() == values[i])
      && (forall i, j :: 0 <= i < j < |devices| ==> devices[i] != devices[j] && devices[i].auth != devices[j].auth)
    }

    ghost predicate Valid()
      reads this, Repr
    {
      Coherent() && M.Indexed(View())
    }

    constructor ()
      ensures Valid() && View() == M.START && fresh(Repr)
    {
      devices, vector, preferred, opts, connected, faulty := [], [], None, M.DEFAULT_OPTIONS, false, false;
      values, Repr := [], {};
    }

    method RetryDevice(h: nat, deleted: bool)
      requires Coherent() && h < |devices|
      modifies this`values, Repr
      ensures Coherent() && values == old(values)[h := M.RetryDevice(old(values[h]), deleted)]
    {
      hide M.RetryDevice;
      devices[h].PrepareForRetry(deleted);
      values := values[h := M.RetryDevice(values[h], deleted)];
    }

    /** One pass over the vector equals a retry of each registered device on its own. */
    method PrepareDevices(env: M.TransportEnv)
      requires Valid()
      modifies this`values, Repr
      ensures Coherent() && values == M.RetryAll(old(View()), env)
    {
      ghost var s := View();
      M.PassStarts(s, M.RetryAll(s, env));
      hide M.RetryDevice, M.Indexed, M.PassAt;
      var k := 0;
      while k < |vector|
        invariant 0 <= k <= |vector| && Coherent() && M.PassAt(s, M.RetryAll(s, env), k, values)
      {
        M.PassMoves(s, M.RetryAll(s, env), k, values);
        RetryDevice(vector[k], env.deleted(vector[k]));
        k := k + 1;
      }
      M.PassEnds(s, M.RetryAll(s, env), values);
    }

    /** prepareForConnectionRetry */
    method PrepareForConnectionRetry(env: M.TransportEnv)
      requires Valid()
      modifies this`values, this`connected, this`faulty, Repr
      ensures Coherent() && View() == M.Retry(old(View()), env)
    {
      hide M.Indexed, M.RetryAll;
      PrepareDevices(env);
      connected, faulty := false, false;
    }

    method WorkDevice(h: nat, env: M.DeviceEnv) returns (ok: bool)
      requires Coherent() && h < |devices|
      modifies this`values, Repr
      ensures Coherent() && values == old(values)[h := M.WorkDevice(old(values[h]), opts, env).device]
      ensures ok == M.WorkDevice(old(values[h]), opts, env).ok
    {
      hide M.WorkDevice;
      ok := devices[h].DoWork(opts, env);
      values := values[h := M.WorkDevice(values[h], opts, env).device];
    }

    /** The device at vector position `k` works, in a pass that began in state `s`. */
    method WorkAt(k: nat, env: M.TransportEnv, ghost s: M.State) returns (ok: bool)
      requires Coherent() && M.Indexed(s) && vector == s.vector && opts == s.opts && k < |vector|
      requires M.PassAt(s, M.WorkAll(s, env), k, values)
      modifies this`values, Repr
      ensures Coherent() && M.PassAt(s, M.WorkAll(s, env), k + 1, values)
      ensures forall j :: 0 <= j < |vector| ==> vector[j] < |s.devices|
      ensures M.FineUpTo(s, env, k + 1) == (M.FineUpTo(s, env, k) && ok)
    {
      hide M.WorkDevice, M.Indexed, M.PassAt, M.FineUpTo;
      M.PassMoves(s, M.WorkAll(s, env), k, values);
      M.FineMoves(s, env, k);
      M.VectorDistinct(s);
      assert vector[k] in s.vector;
      ok := WorkDevice(vector[k], env.device(vector[k]));
    }

    /** The device loop of DoWork: each device works on its own, and one critical error is remembered. */
    method WorkDevices(env: M.TransportEnv) returns (ok: bool)
      requires Valid()
      modifies this`values, Repr
      ensures Coherent() && values == M.WorkAll(old(View()), env)
      ensures ok == !M.AnyCritical(old(View()), env)
    {
      ghost var s := View();
      M.PassStarts(s, M.WorkAll(s, env));
      M.VectorDistinct(s);
      M.FineThroughout(s, env);
      hide M.WorkDevice, M.Indexed, M.PassAt, M.AnyCritical, M.FineUpTo;
      ok := true;
      var k := 0;
      while k < |vector|
        invariant 0 <= k <= |vector| && Coherent() && M.PassAt(s, M.WorkAll(s, env), k, values)
        invariant ok == M.FineUpTo(s, env, k)
      {
        var good := WorkAt(k, env, s);
        ok := ok && good;
        k := k + 1;
      }
      M.PassEnds(s, M.WorkAll(s, env), values);
    }

    /** IoTHubTransportAMQP_DoWork */
    method DoWork(env: M.TransportEnv)
      requires Valid()
      modifies this`values, this`connected, this`faulty, Repr
      ensures Coherent() && View() == M.Work(old(View()), env)
    {
      hide M.WorkAll, M.RetryAll, M.AnyCritical;
      if vector == [] { return; }
      var retry := if connected then faulty else !env.established;
      if !retry {
        M.WorkAllIndexed(View(), env);
        hide M.Indexed;
        connected := true;
        var ok := WorkDevices(env);
        retry := !ok;
      }
      if retry { PrepareForConnectionRetry(env); }
    }

    /** VECTOR_find_if by device id. */
    method FindById(id: string) returns (k: nat)
      requires Valid()
      ensures k == M.Find(View(), id, 0)
    {
      k := 0;
      while k < |vector| && devices[vector[k]].id != id
        invariant k <= |vector| && M.Find(View(), id, k) == M.Find(View(), id, 0)
      {
        k := k + 1;
      }
    }

    /** IoTHubTransportAMQP_Register */
    method Register(id: string, credential: A.Credential, user: seq<seq<T.Request>>, uninitialised: A.Word)
      requires Valid()
      modifies this
      ensures Coherent() && View() == M.RegisterDevice(old(View()), M.NewDevice(id, credential, user, uninitialised))
      ensures fresh(Repr - old(Repr))
    {
      var k := FindById(id);
      hide M.Find, M.Indexed, Coherent;
      if k == |vector| && (preferred.Some? ==> (preferred.value.X509? <==> credential.X509?)) {
        AddDevice(id, credential, user, uninitialised);
      }
    }

    method AddDevice(id: string, credential: A.Credential, user: seq<seq<T.Request>>, uninitialised: A.Word)
      requires Coherent()
      modifies this
      ensures Coherent() && fresh(Repr - old(Repr))
      ensures View() == old(View()).(devices := old(values) + [M.NewDevice(id, credential, user, uninitialised)],
                                     vector := old(vector) + [|old(values)|],
                                     preferred := if old(vector) == [] then Some(credential) else old(preferred))
    {
      hide M.NewDevice;
      var d := new Device(id, credential, user, uninitialised);
      if vector == [] { preferred := Some(credential); }
      vector := vector + [|devices|];
      devices, values, Repr := devices + [d], values + [d.View()], Repr + {d, d.auth};
    }

    /** IoTHubTransportAMQP_Unregister, and the drain of the client's wait list that follows it. */
    method Unregister(h: nat)
      requires Valid() && h in vector
      modifies this`vector, this`values, Repr
      ensures Coherent() && View() == M.Unregister(old(View()), h)
    {
      M.VectorDistinct(View());
      assert |values| == |devices| && values[h].id == devices[h].id;
      var k := FindById(devices[h].id);
      hide M.Find, M.Indexed, M.CloseDevice, Coherent;
      if k < |vector| { CloseDevice(h, k); }
    }

    method CloseDevice(h: nat, k: nat)
      requires Coherent() && h < |values| && k < |vector|
      modifies this`vector, this`values, Repr
      ensures Coherent() && vector == RemoveAt(old(vector), k)
      ensures values == old(values)[h := M.CloseDevice(old(values[h]))]
    {
      hide M.CloseDevice;
      devices[h].Close();
      values := values[h := M.CloseDevice(values[h])];
      vector := RemoveAt(vector, k);
    }

    /** An operation on one device, or a callback from its sender or from CBS. */
    method HandleOne(h: nat, op: M.Op)
      requires Coherent() && h < |values|
      modifies this`values, Repr
      ensures Coherent() && View() == M.SetDevice(old(View()), h, M.OnDevice(old(values[h]), op))
    {
      hide M.OnDevice;
      devices[h].Handle(op);
      values := values[h := M.OnDevice(values[h], op)];
    }

    method HandleRegistered(h: nat, op: M.Op)
      requires Coherent() && forall k :: 0 <= k < |vector| ==> vector[k] < |values|
      modifies this`values, Repr
      ensures Coherent()
      ensures View() == if h in vector then M.SetDevice(old(View()), h, M.OnDevice(old(values[h]), op)) else old(View())
    {
      hide M.OnDevice, Coherent;
      if h in vector { HandleOne(h, op); }
    }

    /** The transport options, and the error flag that on_connection_io_error and a failed sender raise. */
    method SetConnection(o: A.Options, error: bool)
      requires Coherent()
      modifies this`opts, this`faulty
      ensures Coherent() && View() == old(View()).(opts := o, faulty := error)
    {
      opts, faulty := o, error;
    }

    /** The step of the transport model. */
    method Step(op: M.Op)
      requires Valid()
      modifies this, Repr
      ensures Valid() && View() == M.Apply(old(View()), op) && fresh(Repr - old(Repr))
    {
      M.ApplyIndexed(View(), op);
      M.VectorDistinct(View());
      hide M.Indexed, M.RegisterDevice, M.Unregister, M.Work, M.OnDevice, M.SetDevice, NoDuplicates, Coherent;
      match op {
        case Register(id, credential, user, u) => Register(id, credential, user, u);
        case DestroyClient(h) => if h in vector { Unregister(h); }
        case DoWork(env) => DoWork(env);
        case ConnectionError => SetConnection(opts, true);
        case SetOptions(o) => SetConnection(o, faulty);
        case SenderChanged(h, _, error) =>
          HandleRegistered(h, op);
          if h in vector { SetConnection(opts, faulty || error); }
        case _ => HandleRegistered(op.handle, op);
      }
    }

    /** Any sequence of calls and callbacks is a run of the transport model. */
    method Run(ops: seq<M.Op>)
      requires Valid()
      modifies this, Repr
      ensures Valid() && View() == M.Exec(old(View()), ops) && fresh(Repr - old(Repr))
    {
      hide M.Apply, M.Indexed, Coherent;
      var k := 0;
      while k < |ops|
        invariant 0 <= k <= |ops| && Valid() && fresh(Repr - old(Repr))
        invariant View() == M.Exec(old(View()), ops[..k])
      {
        Step(ops[k]);
        k := k + 1;
        assert ops[..k][..k - 1] == ops[..k - 1];
      }
      assert ops[..k] == ops;
    }
  }
}
