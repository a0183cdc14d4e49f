/** What single operations do, in every run of the AMQP transport. */
module AmqpSteps {
  import opened Clock
  import opened Lists
  import opened AmqpTransport
  import opened AmqpLaws
  import A = AmqpAuth
  import L = TelemetryLaws
  import R = Results
  import T = Telemetry

  lemma ExecOne(ops: seq<Op>, op: Op)
    ensures Exec(START, ops + [op]) == Apply(Exec(START, ops), op)
  {
    hide Apply;
    assert (ops + [op])[..|ops|] == ops;
  }

  // ---------------------------------------------------------------------------
  // Confirmations
  // ---------------------------------------------------------------------------

  /** The results with which an operation may confirm events of device `i`. */
  function ResultsOf(op: Op, i: nat): (results: set<T.Confirmation>)
  {
    match op
    case DoWork(_) => {T.Error}
    case DoTimeouts(h, _) => if h == i then {T.MessageTimeout} else {}
    case SendComplete(h, _, ok) => if h != i then {} else if ok then {T.Ok} else {T.Error}
    case DestroyClient(h) => if h == i then {T.BecauseDestroy} else {}
    case _ => {}
  }

  lemma {:induction false} SendPendingAdds(d: Device, send: nat -> Outcome, now: Option<A.Seconds>, opts: A.Options,
                                           ok: bool)
    ensures R.Adds(d.client.done, SendPending(d, send, now, opts, ok).device.client.done, {T.Error})
    decreases |d.client.waiting| + T.Backlog(d.client.user)
  {
    hide R.Adds;
    R.AddsNothing(d.client.done, {T.Error});
    if d.client.waiting != [] {
      var m, rest := d.client.waiting[0], T.Unqueue(d.client, 0);
      match send(m.id) {
        case BadMessage =>
          var d' := d.(client := T.Finish(rest, m, T.Error));
          R.FinishAdds(rest, m, T.Error, {T.Error});
          SendPendingAdds(d', send, now, opts, false);
          var p := SendPending(d', send, now, opts, false);
          R.AddsMore(d.client.done, d'.client.done, p.device.client.done, {T.Error});
        case SendFailed =>
        case Sent =>
          var d' := Offer(d, m, now, opts).(client := rest, inProgress := d.inProgress + [m]);
          SendPendingAdds(d', send, now, opts, true);
      }
    }
  }

  lemma WorkDeviceAdds(d: Device, opts: A.Options, env: DeviceEnv)
    ensures R.Adds(d.client.done, WorkDevice(d, opts, env).device.client.done, {T.Error})
  {
    hide R.Adds, SendPending, A.Authenticate, A.Refresh;
    R.AddsNothing(d.client.done, {T.Error});
    var a := A.GetStatus(d.auth, opts, env.clock);
    SendPendingAdds(d.(auth := a, sender := true), env.send, env.clock, opts, true);
  }

  lemma OnDeviceAdds(d: Device, op: Op, i: nat)
    requires op.DoTimeouts? || op.SendComplete? ==> op.handle == i
    ensures R.Adds(d.client.done, OnDevice(d, op).client.done, ResultsOf(op, i))
  {
    hide R.Adds, T.TimeoutWalk, T.Finish;
    R.AddsNothing(d.client.done, ResultsOf(op, i));
    if op.DoTimeouts? { R.TimeoutAdds(d.client, 0, op.now); }
    if op.SendComplete? && op.index < |d.inProgress| {
      var r := if op.ok then T.Ok else T.Error;
      R.FinishAdds(d.client, d.inProgress[op.index], r, {r});
    }
  }

  lemma CloseAdds(d: Device)
    ensures R.Adds(d.client.done, CloseDevice(d).client.done, {T.BecauseDestroy})
  {
    R.DrainWaitingAdds(Rollback(d.(sender := false)).client);
    hide R.Adds, T.DrainWaiting;
  }

  lemma WorkAdds(s: State, env: TransportEnv, i: nat)
    requires i < |s.devices|
    ensures R.Adds(s.devices[i].client.done, Work(s, env).devices[i].client.done, {T.Error})
  {
    hide R.Adds, WorkDevice;
    var d := s.devices[i];
    R.AddsNothing(d.client.done, {T.Error});
    WorkDeviceAdds(d, s.opts, env.device(i));
  }

  lemma StepAdds(s: State, op: Op, i: nat)
    requires Indexed(s) && i < |s.devices|
    ensures i < |Apply(s, op).devices|
    ensures R.Adds(s.devices[i].client.done, Apply(s, op).devices[i].client.done, ResultsOf(op, i))
  {
    hide R.Adds, Work, OnDevice, CloseDevice;
    R.AddsNothing(s.devices[i].client.done, ResultsOf(op, i));
    match op {
      case Register(_, _, _, _) =>
      case DestroyClient(h) => if h in s.vector { CloseAdds(s.devices[h]); }
      case DoWork(env) => WorkAdds(s, env, i); WorkSize(s, env);
      case ConnectionError =>
      case SetOptions(_) =>
      case _ => if op.handle in s.vector { OnDeviceAdds(s.devices[op.handle], op, op.handle); }
    }
  }

  lemma WorkSize(s: State, env: TransportEnv)
    ensures |Work(s, env).devices| == |s.devices|
  {
    hide WorkDevice;
  }

  /**
   * A send callback confirms its event with the result it carries and takes it off the in-progress
   * list; the other events in progress, what waits and the other devices are untouched.
   */
  lemma CompletesAs(ops: seq<Op>, h: nat, i: nat, ok: bool)
    requires h in Exec(START, ops).vector && h < |Exec(START, ops).devices|
    requires i < |Exec(START, ops).devices[h].inProgress|
    ensures
      var s, s' := Exec(START, ops), Exec(START, ops + [SendComplete(h, i, ok)]);
      && |s'.devices| == |s.devices| && s'.vector == s.vector
      && (var d, d' := s.devices[h], s'.devices[h];
          && d'.client.done == d.client.done + [T.Completion(d.inProgress[i], if ok then T.Ok else T.Error)]
          && d'.inProgress == d.inProgress[..i] + d.inProgress[i + 1..]
          && d.client.waiting <= d'.client.waiting)
      && forall k :: 0 <= k < |s.devices| && k != h ==> s'.devices[k] == s.devices[k]
  {
    ExecOne(ops, SendComplete(h, i, ok));
    CompleteShape(Exec(START, ops).devices[h], h, i, ok);
    OneDeviceOnly(Exec(START, ops), SendComplete(h, i, ok));
    hide Exec, OnDevice, Apply;
  }

  /** An operation on one device leaves the others and the vector alone. */
  lemma OneDeviceOnly(s: State, op: Op)
    requires Indexed(s) && op.SendComplete? && op.handle in s.vector
    ensures
      var s' := Apply(s, op);
      && |s'.devices| == |s.devices| && s'.vector == s.vector
      && s'.devices[op.handle] == OnDevice(s.devices[op.handle], op)
      && forall k :: 0 <= k < |s.devices| && k != op.handle ==> s'.devices[k] == s.devices[k]
  {
    hide OnDevice;
  }

  lemma CompleteShape(d: Device, h: nat, i: nat, ok: bool)
    requires i < |d.inProgress|
    ensures
      var d' := OnDevice(d, SendComplete(h, i, ok));
      && d'.client.done == d.client.done + [T.Completion(d.inProgress[i], if ok then T.Ok else T.Error)]
      && d'.inProgress == d.inProgress[..i] + d.inProgress[i + 1..]
      && d.client.waiting <= d'.client.waiting
  {
    FinishShape(d.client, d.inProgress[i], if ok then T.Ok else T.Error);
    hide T.Finish;
  }

  /** Destroying a client confirms as destroyed everything of it that was not confirmed yet. */
  lemma DestroyTells(ops: seq<Op>, h: nat)
    requires h in Exec(START, ops).vector && h < |Exec(START, ops).devices|
    ensures
      var s, s' := Exec(START, ops), Exec(START, ops + [DestroyClient(h)]);
      && |s'.devices| == |s.devices| && h !in s'.vector
      && (var done, done' := s.devices[h].client.done, s'.devices[h].client.done;
          && done <= done' && (forall j :: |done| <= j < |done'| ==> done'[j].result == T.BecauseDestroy)
          && multiset(L.Finished(done')) == multiset(s'.devices[h].client.accepted))
  {
    ExecOne(ops, DestroyClient(h));
    StepAdds(Exec(START, ops), DestroyClient(h), h);
    Erased(Exec(START, ops), h);
    DestroyedConfirmsAll(ops + [DestroyClient(h)], h);
    hide Exec, CloseDevice;
  }

  lemma Erased(s: State, h: nat)
    requires Indexed(s) && h in s.vector
    ensures |Unregister(s, h).devices| == |s.devices| && h !in Unregister(s, h).vector
  {
    hide CloseDevice;
    FindsItself(s, h);
    VectorDistinct(s);
    RemoveAtMember(s.vector, Find(s, s.devices[h].id, 0));
  }

  /** Confirmation `j` of device `i` was made by an operation that may give it such a result. */
  lemma {:induction false} ConfirmedBecause(ops: seq<Op>, i: nat, j: nat) returns (k: nat)
    requires i < |Exec(START, ops).devices| && j < |Exec(START, ops).devices[i].client.done|
    ensures k < |ops| && Exec(START, ops).devices[i].client.done[j].result in ResultsOf(ops[k], i)
    decreases |ops|
  {
    var n := |ops| - 1;
    var front, op := ops[..n], ops[n];
    assert ops == front + [op];
    ExecOne(front, op);
    var s := Exec(START, front);
    hide Exec, ResultsOf, R.Adds;
    k := n;
    if i < |s.devices| {
      StepAdds(s, op, i);
      AddsAt(s.devices[i].client.done, Apply(s, op).devices[i].client.done, ResultsOf(op, i), j);
      if j < |s.devices[i].client.done| { k := ConfirmedBecause(front, i, j); }
    } else {
      BornEmpty(s, op, i);
    }
  }

  lemma AddsAt(a: seq<T.Completion>, b: seq<T.Completion>, results: set<T.Confirmation>, j: nat)
    requires R.Adds(a, b, results) && j < |b|
    ensures |a| <= |b| && (if j < |a| then a[j] == b[j] else b[j].result in results)
  {
  }

  lemma BornEmpty(s: State, op: Op, i: nat)
    requires Indexed(s) && |s.devices| <= i < |Apply(s, op).devices|
    ensures Apply(s, op).devices[i].client.done == []
  {
    hide WorkDevice, OnDevice, CloseDevice;
  }

  /** An event is confirmed as delivered only by a send callback that reports success. */
  lemma OkOnlyBySendComplete(ops: seq<Op>, i: nat, j: nat) returns (k: nat)
    requires i < |Exec(START, ops).devices| && j < |Exec(START, ops).devices[i].client.done|
    requires Exec(START, ops).devices[i].client.done[j].result == T.Ok
    ensures k < |ops| && ops[k].SendComplete? && ops[k].handle == i && ops[k].ok
  {
    k := ConfirmedBecause(ops, i, j);
    hide Exec;
  }

  /** A client's DoTimeouts confirms a waiting event as timed out exactly when it is expired. */
  lemma TimeoutsConfirm(ops: seq<Op>, h: nat, now: Tick, m: T.Message)
    requires h in Exec(START, ops).vector && h < |Exec(START, ops).devices|
    requires m in Exec(START, ops).devices[h].client.waiting
    ensures
      var s' := Exec(START, ops + [DoTimeouts(h, now)]);
      && |s'.devices| == |Exec(START, ops).devices|
      && (T.Expired(m, now) ==> T.Completion(m, T.MessageTimeout) in s'.devices[h].client.done)
      && (!T.Expired(m, now) ==> m in s'.devices[h].client.waiting)
  {
    ExecOne(ops, DoTimeouts(h, now));
    var t := Exec(START, ops).devices[h].client;
    var k :| 0 <= k < |t.waiting| && t.waiting[k] == m;
    L.TimeoutDecides(t, 0, now, k);
    hide Exec, T.TimeoutWalk;
  }

  // ---------------------------------------------------------------------------
  // DoWork
  // ---------------------------------------------------------------------------

  /** After the `n` oldest handoffs of `d'` there is one of `m`, as things stand with `d` at the clock reading `now`. */
  ghost predicate Offered(d': Device, n: nat, d: Device, m: T.Message, now: Option<A.Seconds>, opts: A.Options)
  {
    var h := Handoff(m, now, opts.refresh, d.auth.token, d.answer);
    exists j :: n <= j < |d'.handed| && d'.handed[j] == h
  }

  lemma {:induction false} SendPendingHands(d: Device, send: nat -> Outcome, now: Option<A.Seconds>, opts: A.Options,
                                            ok: bool)
    ensures d.handed <= SendPending(d, send, now, opts, ok).device.handed
    decreases |d.client.waiting| + T.Backlog(d.client.user)
  {
    hide T.Finish, T.Grows;
    if d.client.waiting != [] {
      var m, rest := d.client.waiting[0], T.Unqueue(d.client, 0);
      match send(m.id) {
        case BadMessage => SendPendingHands(d.(client := T.Finish(rest, m, T.Error)), send, now, opts, false);
        case SendFailed =>
        case Sent =>
          SendPendingHands(Offer(d, m, now, opts).(client := rest, inProgress := d.inProgress + [m]), send, now, opts,
                           true);
      }
    }
  }

  lemma HeadOffered(d: Device, send: nat -> Outcome, now: Option<A.Seconds>, opts: A.Options, ok: bool)
    requires d.client.waiting != [] && !send(d.client.waiting[0].id).BadMessage?
    ensures Offered(SendPending(d, send, now, opts, ok).device, |d.handed|, d, d.client.waiting[0], now, opts)
  {
    hide SendPending;
    var m, rest := d.client.waiting[0], T.Unqueue(d.client, 0);
    SendPendingStep(d, send, now, opts, ok);
    assert Offer(d, m, now, opts).handed[|d.handed|] == Handoff(m, now, opts.refresh, d.auth.token, d.answer);
    if send(m.id) == Sent {
      var d' := Offer(d, m, now, opts).(client := rest, inProgress := d.inProgress + [m]);
      SendPendingHands(d', send, now, opts, true);
    }
  }

  /** Every event that waits when a pass begins, up to the first refusal, is offered to the sender unless it is bad. */
  lemma {:induction false} SendPendingOffers(d: Device, send: nat -> Outcome, now: Option<A.Seconds>, opts: A.Options,
                                             ok: bool, k: nat)
    requires k < |d.client.waiting| && !send(d.client.waiting[k].id).BadMessage?
    requires forall j :: 0 <= j < k ==> !send(d.client.waiting[j].id).SendFailed?
    ensures Offered(SendPending(d, send, now, opts, ok).device, |d.handed|, d, d.client.waiting[k], now, opts)
    decreases |d.client.waiting| + T.Backlog(d.client.user)
  {
    hide SendPending;
    var m, rest := d.client.waiting[0], T.Unqueue(d.client, 0);
    if k == 0 {
      HeadOffered(d, send, now, opts, ok);
    } else {
      SendPendingStep(d, send, now, opts, ok);
      if send(m.id) == BadMessage {
        var d' := d.(client := T.Finish(rest, m, T.Error));
        FinishShape(rest, m, T.Error);
        hide T.Finish;
        assert forall j :: 0 <= j < |rest.waiting| ==> d'.client.waiting[j] == d.client.waiting[j + 1];
        SendPendingOffers(d', send, now, opts, false, k - 1);
      } else {
        SendPendingOffers(Offer(d, m, now, opts).(client := rest, inProgress := d.inProgress + [m]), send, now, opts,
                          true, k - 1);
      }
    }
  }

  /** A pass in which every event is taken succeeds: all of them are in progress, in order, and nothing is confirmed. */
  lemma {:induction false} SendPendingSucceeds(d: Device, send: nat -> Outcome, now: Option<A.Seconds>, opts: A.Options,
                                               ok: bool)
    requires forall j :: 0 <= j < |d.client.waiting| ==> send(d.client.waiting[j].id) == Sent
    ensures
      var p := SendPending(d, send, now, opts, ok);
      && p.ok == (ok || d.client.waiting != []) && p.device.client == d.client.(waiting := [])
      && p.device.inProgress == d.inProgress + d.client.waiting
    decreases |d.client.waiting|
  {
    if d.client.waiting != [] {
      hide SendPending;
      var m, rest := d.client.waiting[0], T.Unqueue(d.client, 0);
      SendPendingStep(d, send, now, opts, ok);
      var d' := Offer(d, m, now, opts).(client := rest, inProgress := d.inProgress + [m]);
      assert forall j :: 0 <= j < |rest.waiting| ==> rest.waiting[j] == d.client.waiting[j + 1];
      SendPendingSucceeds(d', send, now, opts, true);
      assert [m] + rest.waiting == d.client.waiting;
      Associative(d.inProgress, [m], rest.waiting);
    }
  }

  /** The device may send: its status check says OK, and it has a sender, or gets one, that is open. */
  predicate MaySend(d: Device, opts: A.Options, env: DeviceEnv)
  {
    A.GetStatus(d.auth, opts, env.clock).status == A.Ok && (d.sender || env.sender.Created?) && d.open
  }

  /** Only a device that may send touches its events; otherwise it can only change its authentication and its sender. */
  lemma WorkWithoutSending(d: Device, opts: A.Options, env: DeviceEnv)
    requires !MaySend(d, opts, env)
    ensures
      var d' := WorkDevice(d, opts, env).device;
      d'.client == d.client && d'.inProgress == d.inProgress && d'.handed == d.handed
  {
  }

  /** A device that may send offers every waiting event up to the first refusal, unless it is bad. */
  lemma WorkOffers(d: Device, opts: A.Options, env: DeviceEnv, k: nat)
    requires MaySend(d, opts, env) && k < |d.client.waiting| && !env.send(d.client.waiting[k].id).BadMessage?
    requires forall j :: 0 <= j < k ==> !env.send(d.client.waiting[j].id).SendFailed?
    ensures Offered(WorkDevice(d, opts, env).device, |d.handed|, d, d.client.waiting[k], env.clock, opts)
  {
    hide SendPending;
    var ready := d.(auth := A.GetStatus(d.auth, opts, env.clock), sender := true);
    SendPendingOffers(ready, env.send, env.clock, opts, true, k);
  }

  /**
   * What device_DoWork makes of each status: IDLE and REFRESH_REQUIRED authenticate, IN_PROGRESS waits,
   * FAILURE and TIMEOUT are critical, and OK is critical only if the receiver, the sender or an event fails.
   */
  lemma WorkByStatus(d: Device, opts: A.Options, env: DeviceEnv)
    ensures
      var a, p := A.GetStatus(d.auth, opts, env.clock), WorkDevice(d, opts, env);
      && (a.status == A.Idle || (a.status == A.RefreshRequired && !a.credential.X509?) ==>
            p.device.auth == A.Authenticate(a, opts, env.auth).0 && p.ok)
      && (a.status == A.InProgress ==> p.device.auth == a && p.ok)
      && (a.status == A.Failure || a.status == A.Timeout ==> p.device.auth == a && !p.ok)
      && (a.status == A.Ok ==>
            && (!env.receiver || (!d.sender && !env.sender.Created?) ==> !p.ok)
            && (d.sender || env.sender.Created? ==> p.device.sender)
            && (!d.open && env.receiver && (d.sender || env.sender.Created?) ==> p.ok))
  {
    hide SendPending, A.Authenticate;
  }

  /** The connection stands or is made, so the devices get to work. */
  predicate GetsToWork(s: State, env: TransportEnv)
  {
    if s.connected then !s.faulty else env.established
  }

  /**
   * A DoWork that leaves the transport connected has worked every registered device, none critically,
   * and left the others alone; one that gets to work but meets a critical error retries them all.
   */
  lemma DoWorkWorks(ops: seq<Op>, env: TransportEnv, i: nat)
    requires Exec(START, ops).vector != [] && i < |Exec(START, ops).devices|
    ensures
      var s, s' := Exec(START, ops), Exec(START, ops + [DoWork(env)]);
      var p := WorkDevice(s.devices[i], s.opts, env.device(i));
      && |s'.devices| == |s.devices| && s'.vector == s.vector
      && (s'.connected ==> GetsToWork(s, env) && (i in s.vector ==> p.ok))
      && (i !in s.vector ==> s'.devices[i] == s.devices[i])
      && (i in s.vector && GetsToWork(s, env) ==>
            s'.devices[i] == if s'.connected then p.device else RetryDevice(p.device, env.deleted(i)))
      && (GetsToWork(s, env) && !s'.connected ==> AnyCritical(s, env))
  {
    ExecOne(ops, DoWork(env));
    hide Exec, WorkDevice, RetryDevice;
  }

  /** Events offered in a DoWork are on record whether or not it ends in a retry. */
  lemma EventsOffered(ops: seq<Op>, env: TransportEnv, i: nat, k: nat)
    requires i < |Exec(START, ops).devices| && i in Exec(START, ops).vector && GetsToWork(Exec(START, ops), env)
    requires
      var s := Exec(START, ops);
      var d, e := s.devices[i], env.device(i);
      && MaySend(d, s.opts, e) && k < |d.client.waiting| && !e.send(d.client.waiting[k].id).BadMessage?
      && forall j :: 0 <= j < k ==> !e.send(d.client.waiting[j].id).SendFailed?
    ensures
      var s, s' := Exec(START, ops), Exec(START, ops + [DoWork(env)]);
      && |s'.devices| == |s.devices|
      && (var d := s.devices[i];
          Offered(s'.devices[i], |d.handed|, d, d.client.waiting[k], env.device(i).clock, s.opts))
  {
    hide Exec, WorkDevice, MaySend, Offered;
    var s := Exec(START, ops);
    DoWorkWorks(ops, env, i);
    WorkOffers(s.devices[i], s.opts, env.device(i), k);
    var d := s.devices[i];
    RetryKeepsHandoffs(WorkDevice(d, s.opts, env.device(i)).device, env.deleted(i), |d.handed|, d,
                       d.client.waiting[k], env.device(i).clock, s.opts);
    hide RetryDevice;
  }

  lemma RetryKeepsHandoffs(d': Device, deleted: bool, n: nat, d: Device, m: T.Message, now: Option<A.Seconds>,
                           opts: A.Options)
    requires Offered(d', n, d, m, now, opts)
    ensures Offered(RetryDevice(d', deleted), n, d, m, now, opts)
  {
  }

  /**
   * A retry resets the authentication: it reaches IDLE exactly if the status is not TIMEOUT and a delete that is
   * needed goes through; no callback is awaited any more, and a timed-out device stays timed out.
   */
  lemma RetryResets(d: Device, deleted: bool)
    ensures
      var a, a' := d.auth, RetryDevice(d, deleted).auth;
      && a'.puts == 0 && a'.deletes == 0 && a'.token == a.token
      && (a'.status == A.Idle <==>
            || a.credential.X509? || a.status == A.Idle || a.status == A.Failure || a.status == A.RefreshRequired
            || (deleted && (a.status == A.Ok || a.status == A.InProgress)))
      && (a.status == A.Timeout && !a.credential.X509? ==> a'.status == A.Timeout)
  {
    A.ResetReachesIdle(d.auth, deleted);
  }

  // ---------------------------------------------------------------------------
  // The other operations
  // ---------------------------------------------------------------------------

  /** A device is registered exactly if its id is not registered yet and its credential fits; it starts idle. */
  lemma RegisterAdds(ops: seq<Op>, id: string, credential: A.Credential, user: seq<seq<T.Request>>, u: A.Word)
    ensures
      var s, s' := Exec(START, ops), Exec(START, ops + [Register(id, credential, user, u)]);
      var taken := exists k :: 0 <= k < |s.vector| && s.devices[s.vector[k]].id == id;
      var fits := s.preferred.Some? ==> (s.preferred.value.X509? <==> credential.X509?);
      if !taken && fits then
        && |s'.devices| == |s.devices| + 1 && s'.devices[..|s.devices|] == s.devices
        && s'.vector == s.vector + [|s.devices|]
        && s'.devices[|s.devices|].id == id && s'.devices[|s.devices|].auth.credential == credential
        && s'.devices[|s.devices|].auth.status == A.Idle && s'.devices[|s.devices|].client.accepted == []
      else s' == s
  {
    ExecOne(ops, Register(id, credential, user, u));
    hide Exec;
    var s := Exec(START, ops);
    var k := Find(s, id, 0);
    assert k < |s.vector| ==> s.devices[s.vector[k]].id == id;
  }

  /** An error of the connection or of a sender makes the next DoWork retry every device. */
  lemma ErrorsRetry(ops: seq<Op>, op: Op, env: TransportEnv)
    requires op.ConnectionError? || (op.SenderChanged? && op.error && op.handle in Exec(START, ops).vector)
    requires Exec(START, ops).connected && Exec(START, ops).vector != []
    ensures
      var s := Exec(START, ops + [op]);
      Exec(START, ops + [op] + [DoWork(env)]) == Retry(s, env) && !Retry(s, env).connected
  {
    ExecOne(ops, op);
    ExecOne(ops + [op], DoWork(env));
    hide Exec;
    FlagRaised(Exec(START, ops), op);
    hide RetryAll, WorkAll, OnDevice, AnyCritical, RegisterDevice, Unregister;
  }

  lemma FlagRaised(s: State, op: Op)
    requires Indexed(s) && (op.ConnectionError? || (op.SenderChanged? && op.error && op.handle in s.vector))
    ensures
      var s' := Apply(s, op);
      s'.faulty && s'.connected == s.connected && s'.vector == s.vector
  {
    hide OnDevice;
  }

  /** The sender's last reported state is remembered. */
  lemma SenderRemembered(ops: seq<Op>, h: nat, open: bool, error: bool)
    requires h in Exec(START, ops).vector && h < |Exec(START, ops).devices|
    ensures
      var s, s' := Exec(START, ops), Exec(START, ops + [SenderChanged(h, open, error)]);
      && |s'.devices| == |s.devices| && s'.devices[h] == s.devices[h].(open := open)
      && s'.faulty == (s.faulty || error)
  {
    ExecOne(ops, SenderChanged(h, open, error));
    hide Exec;
  }

  /** The options are the ones last set, so they are the ones the next token and the next refresh test use. */
  lemma OptionsSet(ops: seq<Op>, opts: A.Options)
    ensures Exec(START, ops + [SetOptions(opts)]) == Exec(START, ops).(opts := opts)
  {
    ExecOne(ops, SetOptions(opts));
    hide Exec;
  }

  /** An accepted event is appended to its device's wait list with the request's payload and callback. */
  lemma EventQueued(ops: seq<Op>, h: nat, r: T.Request)
    requires h in Exec(START, ops).vector && h < |Exec(START, ops).devices|
    ensures |Exec(START, ops + [SendEvent(h, r)]).devices| == |Exec(START, ops).devices|
    ensures
      var t, t' := Exec(START, ops).devices[h].client, Exec(START, ops + [SendEvent(h, r)]).devices[h].client;
      if T.Accepts(t.timeout, r) then
        && |t'.accepted| == |t.accepted| + 1 && t'.waiting == t.waiting + [t'.accepted[|t.accepted|]]
        && t'.accepted[|t.accepted|].payload == r.payload.value && t'.accepted[|t.accepted|].notify == r.callback
      else t' == t
  {
    ExecOne(ops, SendEvent(h, r));
    hide Exec;
  }
}
