/** What holds of every device in every run of the AMQP transport. */
module AmqpLaws {
  import opened Clock
  import opened Lists
  import opened AmqpTransport
  import A = AmqpAuth
  import L = TelemetryLaws
  import T = Telemetry

  // ---------------------------------------------------------------------------
  // The invariants of one device
  // ---------------------------------------------------------------------------

  /** Waiting, in progress and confirmed together are what was accepted, and records are distinct. */
  ghost predicate Balanced(t: T.State, inProgress: seq<T.Message>)
  {
    && multiset(t.waiting) + multiset(inProgress) + multiset(L.Finished(t.done)) == multiset(t.accepted)
    && forall k :: 0 <= k < |t.accepted| ==> t.accepted[k].id == k
  }

  /**
   * Under a device key the event had a token; if the refresh time does not exceed the
   * token's lifetime, the token had not expired.
   */
  ghost predicate Fresh(h: Handoff)
  {
    && h.token.Some? && h.now.Some?
    && (h.refresh <= h.token.value.lifetime ==> !A.Expired(h.token.value, h.now.value))
  }

  /** With a CBS credential the status is OK only while CBS last answered that a put succeeded. */
  ghost predicate Accepted(d: Device)
  {
    !d.auth.credential.X509? && d.auth.status == A.Ok ==> d.answer == Some(true)
  }

  /** With a CBS credential nothing was handed over except under such an answer. */
  ghost predicate AllAccepted(d: Device)
  {
    !d.auth.credential.X509? ==> forall k :: 0 <= k < |d.handed| ==> d.handed[k].answer == Some(true)
  }

  ghost predicate AllFresh(d: Device)
  {
    d.auth.credential.DeviceKey? ==> forall k :: 0 <= k < |d.handed| ==> Fresh(d.handed[k])
  }

  /** An event in progress always has a sender that still owes it a callback. */
  ghost predicate Owed(d: Device)
  {
    d.inProgress != [] ==> d.sender
  }

  ghost predicate DeviceGood(d: Device)
  {
    && Balanced(d.client, d.inProgress) && Owed(d)
    && A.Tracked(d.auth) && AllFresh(d) && Accepted(d) && AllAccepted(d)
  }

  // ---------------------------------------------------------------------------
  // Balance
  // ---------------------------------------------------------------------------

  lemma GrowBalanced(t: T.State, t': T.State, inProgress: seq<T.Message>)
    requires Balanced(t, inProgress) && T.Grows(t, t')
    ensures Balanced(t', inProgress)
  {
    assert t'.accepted == t.accepted + t'.accepted[|t.accepted|..];
  }

  /** Confirming the waiting message at `i`. */
  lemma UnqueueBalanced(t: T.State, i: nat, r: T.Confirmation, inProgress: seq<T.Message>)
    requires Balanced(t, inProgress) && i < |t.waiting|
    ensures Balanced(T.Finish(T.Unqueue(t, i), t.waiting[i], r), inProgress)
  {
    RemoveAtMultiset(t.waiting, i);
    var t1 := T.Log(T.Unqueue(t, i), t.waiting[i], r);
    assert L.Finished(t1.done) == L.Finished(t.done) + [t.waiting[i]];
    GrowBalanced(t1, T.Finish(T.Unqueue(t, i), t.waiting[i], r), inProgress);
  }

  lemma {:induction false} TimeoutBalanced(t: T.State, i: nat, now: Tick, inProgress: seq<T.Message>)
    requires Balanced(t, inProgress) && i <= |t.waiting|
    ensures Balanced(T.TimeoutWalk(t, i, now), inProgress)
    decreases |t.waiting| - i + T.Backlog(t.user)
  {
    hide Balanced;
    if i < |t.waiting| {
      if !T.Expired(t.waiting[i], now) {
        TimeoutBalanced(t, i + 1, now, inProgress);
      } else {
        UnqueueBalanced(t, i, T.MessageTimeout, inProgress);
        if i + 1 < |t.waiting| {
          TimeoutBalanced(T.Finish(T.Unqueue(t, i), t.waiting[i], T.MessageTimeout), i, now, inProgress);
        }
      }
    }
  }

  lemma {:induction false} DrainBalanced(t: T.State, inProgress: seq<T.Message>)
    requires Balanced(t, inProgress)
    ensures Balanced(T.DrainWaiting(t), inProgress) && T.DrainWaiting(t).waiting == []
    decreases |t.waiting| + T.Backlog(t.user)
  {
    hide Balanced;
    if t.waiting != [] {
      UnqueueBalanced(t, 0, T.BecauseDestroy, inProgress);
      DrainBalanced(T.Finish(T.Unqueue(t, 0), t.waiting[0], T.BecauseDestroy), inProgress);
    }
  }

  lemma CompleteBalanced(t: T.State, inProgress: seq<T.Message>, i: nat, r: T.Confirmation)
    requires Balanced(t, inProgress) && i < |inProgress|
    ensures Balanced(T.Finish(t, inProgress[i], r), RemoveAt(inProgress, i))
  {
    RemoveAtMultiset(inProgress, i);
    var t1 := T.Log(t, inProgress[i], r);
    assert L.Finished(t1.done) == L.Finished(t.done) + [inProgress[i]];
    GrowBalanced(t1, T.Finish(t, inProgress[i], r), RemoveAt(inProgress, i));
  }

  lemma MoveBalanced(t: T.State, inProgress: seq<T.Message>)
    requires Balanced(t, inProgress) && t.waiting != []
    ensures Balanced(T.Unqueue(t, 0), inProgress + [t.waiting[0]])
    ensures Balanced(t.(waiting := T.Unqueue(t, 0).waiting + [t.waiting[0]]), inProgress)
  {
    RemoveAtMultiset(t.waiting, 0);
  }

  lemma RollbackBalanced(d: Device)
    requires Balanced(d.client, d.inProgress)
    ensures Balanced(Rollback(d).client, [])
  {
    ReverseMultiset(d.inProgress);
  }

  // ---------------------------------------------------------------------------
  // Each operation on one device
  // ---------------------------------------------------------------------------

  /** The status check has passed at `now`, so whatever is offered next is fresh. */
  ghost predicate Cleared(d: Device, now: Option<A.Seconds>, opts: A.Options)
  {
    && (d.auth.credential.DeviceKey? ==> forall m :: Fresh(Handoff(m, now, opts.refresh, d.auth.token, d.answer)))
    && (!d.auth.credential.X509? ==> d.answer == Some(true))
  }

  lemma CheckClears(d: Device, opts: A.Options, clock: Option<A.Seconds>)
    requires A.Tracked(d.auth) && Accepted(d) && A.GetStatus(d.auth, opts, clock).status == A.Ok
    ensures Cleared(d.(auth := A.GetStatus(d.auth, opts, clock)), clock, opts)
  {
    if d.auth.credential.DeviceKey? {
      A.PassesCheck(d.auth, opts, clock);
      var t := d.auth.token.value;
      if opts.refresh <= t.lifetime {
        A.FreshWhenOk(d.auth, opts, clock);
      }
    }
  }

  lemma BadMessageKeeps(d: Device, now: Option<A.Seconds>, opts: A.Options)
    requires DeviceGood(d) && d.client.waiting != [] && Cleared(d, now, opts)
    ensures
      var d' := d.(client := T.Finish(T.Unqueue(d.client, 0), d.client.waiting[0], T.Error));
      DeviceGood(d') && Cleared(d', now, opts)
  {
    hide Balanced, Fresh, A.Tracked;
    UnqueueBalanced(d.client, 0, T.Error, d.inProgress);
  }

  lemma OfferedKeeps(d: Device, now: Option<A.Seconds>, opts: A.Options)
    requires DeviceGood(d) && d.sender && d.client.waiting != [] && Cleared(d, now, opts)
    ensures
      var m, rest := d.client.waiting[0], T.Unqueue(d.client, 0);
      var failed := Offer(d, m, now, opts).(client := rest.(waiting := rest.waiting + [m]));
      var sent := Offer(d, m, now, opts).(client := rest, inProgress := d.inProgress + [m]);
      DeviceGood(failed) && DeviceGood(sent) && Cleared(sent, now, opts)
  {
    hide Balanced, Fresh, A.Tracked;
    MoveBalanced(d.client, d.inProgress);
  }

  lemma {:induction false} SendPendingKeeps(d: Device, send: nat -> Outcome, now: Option<A.Seconds>, opts: A.Options,
                                            ok: bool)
    requires DeviceGood(d) && d.sender && Cleared(d, now, opts)
    ensures DeviceGood(SendPending(d, send, now, opts, ok).device)
    decreases |d.client.waiting| + T.Backlog(d.client.user)
  {
    hide DeviceGood, Cleared;
    if d.client.waiting != [] {
      var m := d.client.waiting[0];
      var rest := T.Unqueue(d.client, 0);
      match send(m.id) {
        case BadMessage =>
          BadMessageKeeps(d, now, opts);
          SendPendingKeeps(d.(client := T.Finish(rest, m, T.Error)), send, now, opts, false);
        case SendFailed => OfferedKeeps(d, now, opts);
        case Sent =>
          OfferedKeeps(d, now, opts);
          SendPendingKeeps(Offer(d, m, now, opts).(client := rest, inProgress := d.inProgress + [m]), send, now, opts,
              true);
      }
    }
  }

  /** How an event that a sending pass reached has ended up. */
  ghost predicate Decided(m: T.Message, o: Outcome, p: Pass)
  {
    var waiting := p.device.client.waiting;
    match o
    case BadMessage => T.Completion(m, T.Error) in p.device.client.done
    case Sent => m in p.device.inProgress
    case SendFailed => !p.ok && waiting != [] && waiting[|waiting| - 1] == m
  }

  /**
   * What a sending pass does with each event that waits when it begins, up to the first
   * refusal: a bad one is confirmed as failed, a sent one joins the in-progress list, and
   * the refused one ends the pass at the tail of the wait list.
   */
  lemma {:induction false} SendPendingDecides(d: Device, send: nat -> Outcome, now: Option<A.Seconds>, opts: A.Options,
                                              ok: bool, k: nat)
    requires k < |d.client.waiting| && forall j :: 0 <= j < k ==> !send(d.client.waiting[j].id).SendFailed?
    ensures Decided(d.client.waiting[k], send(d.client.waiting[k].id), SendPending(d, send, now, opts, ok))
    decreases |d.client.waiting| + T.Backlog(d.client.user)
  {
    hide SendPending, Decided, Offer;
    var m := d.client.waiting[0];
    var rest := T.Unqueue(d.client, 0);
    if k == 0 {
      HeadDecided(d, send, now, opts, ok);
    } else if send(m.id) == BadMessage {
      var d' := d.(client := T.Finish(rest, m, T.Error));
      SendPendingStep(d, send, now, opts, ok);
      FinishShape(rest, m, T.Error);
      hide T.Finish;
      assert forall j :: 0 <= j < |rest.waiting| ==> d'.client.waiting[j] == d.client.waiting[j + 1];
      SendPendingDecides(d', send, now, opts, false, k - 1);
    } else {
      var d' := Offer(d, m, now, opts).(client := rest, inProgress := d.inProgress + [m]);
      SendPendingStep(d, send, now, opts, ok);
      SendPendingDecides(d', send, now, opts, true, k - 1);
    }
  }

  lemma SendPendingStep(d: Device, send: nat -> Outcome, now: Option<A.Seconds>, opts: A.Options, ok: bool)
    requires d.client.waiting != []
    ensures
      var m, rest := d.client.waiting[0], T.Unqueue(d.client, 0);
      SendPending(d, send, now, opts, ok) ==
      match send(m.id)
      case BadMessage => SendPending(d.(client := T.Finish(rest, m, T.Error)), send, now, opts, false)
      case SendFailed => Pass(Offer(d, m, now, opts).(client := rest.(waiting := rest.waiting + [m])), false)
      case Sent => SendPending(Offer(d, m, now, opts).(client := rest, inProgress := d.inProgress + [m]), send, now,
          opts, true)
  {
    hide T.Finish, Offer;
  }

  lemma HeadDecided(d: Device, send: nat -> Outcome, now: Option<A.Seconds>, opts: A.Options, ok: bool)
    requires d.client.waiting != []
    ensures Decided(d.client.waiting[0], send(d.client.waiting[0].id), SendPending(d, send, now, opts, ok))
  {
    hide SendPending, T.Finish;
    var m := d.client.waiting[0];
    var rest := T.Unqueue(d.client, 0);
    SendPendingStep(d, send, now, opts, ok);
    if send(m.id) == BadMessage {
      var d' := d.(client := T.Finish(rest, m, T.Error));
      FinishShape(rest, m, T.Error);
      SendPendingGrows(d', send, now, opts, false);
      assert d'.client.done[|d.client.done|] == T.Completion(m, T.Error);
    } else if send(m.id) == Sent {
      var d' := Offer(d, m, now, opts).(client := rest, inProgress := d.inProgress + [m]);
      SendPendingGrows(d', send, now, opts, true);
      assert d'.inProgress[|d.inProgress|] == m;
    }
  }

  lemma FinishShape(t: T.State, m: T.Message, r: T.Confirmation)
    ensures T.Finish(t, m, r).done == t.done + [T.Completion(m, r)]
    ensures t.waiting <= T.Finish(t, m, r).waiting
  {
  }

  /** A pass only adds to the in-progress list and to the confirmations; if it succeeds nothing waits any more. */
  lemma {:induction false} SendPendingGrows(d: Device, send: nat -> Outcome, now: Option<A.Seconds>, opts: A.Options,
                                            ok: bool)
    ensures
      var p := SendPending(d, send, now, opts, ok);
      && d.inProgress <= p.device.inProgress && d.client.done <= p.device.client.done
      && (p.ok ==> p.device.client.waiting == [])
    decreases |d.client.waiting| + T.Backlog(d.client.user)
  {
    hide T.Finish, T.Grows;
    if d.client.waiting != [] {
      var m := d.client.waiting[0];
      var rest := T.Unqueue(d.client, 0);
      match send(m.id) {
        case BadMessage =>
          FinishShape(rest, m, T.Error);
          SendPendingGrows(d.(client := T.Finish(rest, m, T.Error)), send, now, opts, false);
        case SendFailed =>
        case Sent =>
          SendPendingGrows(Offer(d, m, now, opts).(client := rest, inProgress := d.inProgress + [m]), send, now, opts,
              true);
      }
    }
  }

  lemma WorkKeeps(d: Device, opts: A.Options, env: DeviceEnv)
    requires DeviceGood(d)
    ensures DeviceGood(WorkDevice(d, opts, env).device)
  {
    hide Balanced, Fresh, SendPending, Cleared;
    var a := A.GetStatus(d.auth, opts, env.clock);
    assert A.Tracked(a);
    if a.status == A.Ok {
      CheckClears(d, opts, env.clock);
      var ready := d.(auth := a, sender := true);
      StillClear(d.(auth := a), ready, env.clock, opts);
      SendPendingKeeps(ready, env.send, env.clock, opts, true);
    }
  }

  lemma StillClear(d: Device, d': Device, now: Option<A.Seconds>, opts: A.Options)
    requires Cleared(d, now, opts) && d'.auth == d.auth && d'.answer == d.answer
    ensures Cleared(d', now, opts)
  {
  }

  lemma RetryKeeps(d: Device, deleted: bool)
    requires DeviceGood(d)
    ensures DeviceGood(RetryDevice(d, deleted))
    ensures RetryDevice(d, deleted).inProgress == []
    ensures RetryDevice(d, deleted).client == d.client.(waiting := d.client.waiting + Reverse(d.inProgress))
  {
    hide Balanced, Fresh;
    RollbackBalanced(d);
  }

  lemma CloseKeeps(d: Device)
    requires DeviceGood(d)
    ensures DeviceGood(CloseDevice(d))
    ensures CloseDevice(d).client.waiting == [] && CloseDevice(d).inProgress == []
  {
    hide Balanced, Fresh;
    RollbackBalanced(d);
    DrainBalanced(Rollback(d).client, []);
  }

  lemma CompleteKeeps(d: Device, i: nat, ok: bool)
    requires DeviceGood(d)
    ensures DeviceGood(CompleteSend(d, i, ok))
  {
    hide Balanced, Fresh;
    if i < |d.inProgress| {
      CompleteBalanced(d.client, d.inProgress, i, if ok then T.Ok else T.Error);
    }
  }

  lemma OnDeviceKeeps(d: Device, op: Op)
    requires DeviceGood(d)
    ensures DeviceGood(OnDevice(d, op))
  {
    hide Balanced, Fresh, CompleteSend, T.TimeoutWalk, T.Submit;
    match op {
      case SendEvent(_, r) => SubmitBalanced(d.client, r, d.inProgress);
      case SetMessageTimeout(_, v) => SetTimeoutBalanced(d.client, v, d.inProgress);
      case DoTimeouts(_, now) => TimeoutBalanced(d.client, 0, now, d.inProgress);
      case SendComplete(_, i, ok) => CompleteKeeps(d, i, ok);
      case _ =>
    }
  }

  lemma SubmitBalanced(t: T.State, r: T.Request, inProgress: seq<T.Message>)
    requires Balanced(t, inProgress)
    ensures Balanced(T.Submit(t, r), inProgress)
  {
    hide Balanced;
    GrowBalanced(t, T.Submit(t, r), inProgress);
  }

  lemma SetTimeoutBalanced(t: T.State, v: Tick, inProgress: seq<T.Message>)
    requires Balanced(t, inProgress)
    ensures Balanced(t.(timeout := v), inProgress)
  {
  }

  // ---------------------------------------------------------------------------
  // Whole runs
  // ---------------------------------------------------------------------------

  /** Every device is in order, and one that is no longer registered has nothing left to confirm. */
  ghost predicate Inv(s: State)
  {
    && Indexed(s)
    && (forall i :: 0 <= i < |s.devices| ==> DeviceGood(s.devices[i]))
    && (forall i :: 0 <= i < |s.devices| && i !in s.vector ==>
          s.devices[i].client.waiting == [] && s.devices[i].inProgress == [])
  }

  lemma RegisterKeeps(s: State, id: string, credential: A.Credential, user: seq<seq<T.Request>>, u: A.Word)
    requires Inv(s)
    ensures Inv(RegisterDevice(s, NewDevice(id, credential, user, u)))
  {
    hide DeviceGood;
    RegisterIndexed(s, NewDevice(id, credential, user, u));
    NewDeviceGood(id, credential, user, u);
  }

  lemma NewDeviceGood(id: string, credential: A.Credential, user: seq<seq<T.Request>>, u: A.Word)
    ensures DeviceGood(NewDevice(id, credential, user, u))
  {
    assert L.Finished([]) == [];
  }

  /** Unregister erases the very device it was given, although it looks it up by id. */
  lemma FindsItself(s: State, handle: nat)
    requires Indexed(s) && handle in s.vector
    ensures Find(s, s.devices[handle].id, 0) < |s.vector|
    ensures s.vector[Find(s, s.devices[handle].id, 0)] == handle
    ensures forall i :: i in s.vector && i != handle ==> i in RemoveAt(s.vector, Find(s, s.devices[handle].id, 0))
  {
    var j :| 0 <= j < |s.vector| && s.vector[j] == handle;
    var k := Find(s, s.devices[handle].id, 0);
    forall i | i in s.vector && i != handle ensures i in RemoveAt(s.vector, k) {
      var n :| 0 <= n < |s.vector| && s.vector[n] == i;
      assert RemoveAt(s.vector, k)[if n < k then n else n - 1] == i;
    }
  }

  lemma DestroyKeeps(s: State, handle: nat)
    requires Inv(s) && handle in s.vector
    ensures Inv(Unregister(s, handle))
    ensures Unregister(s, handle).devices[handle].client.waiting == []
    ensures Unregister(s, handle).devices[handle].inProgress == []
  {
    hide DeviceGood, CloseDevice;
    FindsItself(s, handle);
    UnregisterIndexed(s, handle);
    CloseKeeps(s.devices[handle]);
  }

  lemma RetryAllKeeps(s: State, env: TransportEnv)
    requires Inv(s)
    ensures Inv(Retry(s, env))
    ensures forall i :: 0 <= i < |s.devices| ==> Retry(s, env).devices[i].inProgress == []
  {
    hide DeviceGood, RetryDevice;
    forall i | 0 <= i < |s.devices|
      ensures DeviceGood(RetryDevice(s.devices[i], env.deleted(i)))
              && RetryDevice(s.devices[i], env.deleted(i)).inProgress == []
              && RetryDevice(s.devices[i], env.deleted(i)).id == s.devices[i].id
    {
      RetryKeeps(s.devices[i], env.deleted(i));
      RetryId(s.devices[i], env.deleted(i));
    }
    SameIds(s, Retry(s, env));
  }

  lemma RetryId(d: Device, deleted: bool)
    ensures RetryDevice(d, deleted).id == d.id
  {
  }

  lemma WorkAllKeeps(s: State, env: TransportEnv)
    requires Inv(s)
    ensures Inv(s.(devices := WorkAll(s, env), connected := true))
  {
    hide DeviceGood, WorkDevice;
    forall i | 0 <= i < |s.devices| ensures DeviceGood(WorkDevice(s.devices[i], s.opts, env.device(i)).device) {
      WorkKeeps(s.devices[i], s.opts, env.device(i));
    }
    SameIds(s, s.(devices := WorkAll(s, env), connected := true));
  }

  lemma ApplyKeeps(s: State, op: Op)
    requires Inv(s)
    ensures Inv(Apply(s, op))
  {
    hide DeviceGood, WorkAll, Retry, AnyCritical, OnDevice, RegisterDevice, Unregister;
    ApplyIndexed(s, op);
    match op {
      case Register(id, c, user, u) => RegisterKeeps(s, id, c, user, u);
      case DestroyClient(h) => if h in s.vector { DestroyKeeps(s, h); }
      case DoWork(env) =>
        RetryAllKeeps(s, env);
        WorkAllKeeps(s, env);
        RetryAllKeeps(s.(devices := WorkAll(s, env), connected := true), env);
      case ConnectionError =>
      case SetOptions(_) =>
      case _ => if op.handle in s.vector { OnDeviceKeeps(s.devices[op.handle], op); }
    }
  }

  lemma {:induction false} RunKeeps(ops: seq<Op>)
    ensures Inv(Exec(START, ops))
    decreases |ops|
  {
    hide Inv, Apply;
    if ops == [] {
      StartInv();
    } else {
      RunKeeps(ops[..|ops| - 1]);
      ApplyKeeps(Exec(START, ops[..|ops| - 1]), ops[|ops| - 1]);
    }
  }

  lemma StartInv()
    ensures Inv(START)
  {
  }

  // ---------------------------------------------------------------------------
  // Main results
  // ---------------------------------------------------------------------------

  /** In every run each accepted event of each device is waiting, in progress or confirmed, one of these and once. */
  lemma EventInOnePlace(ops: seq<Op>, i: nat, k: nat)
    requires i < |Exec(START, ops).devices| && k < |Exec(START, ops).devices[i].client.accepted|
    ensures
      var d := Exec(START, ops).devices[i];
      var m := d.client.accepted[k];
      multiset(d.client.waiting)[m] + multiset(d.inProgress)[m] + multiset(L.Finished(d.client.done))[m] == 1
  {
    hide Exec;
    RunKeeps(ops);
    var d := Exec(START, ops).devices[i];
    assert DeviceGood(d);
    DistinctCount(d.client.accepted, k);
    var m := d.client.accepted[k];
    assert (multiset(d.client.waiting) + multiset(d.inProgress) + multiset(L.Finished(d.client.done)))[m] == 1;
  }

  /** Once its client is destroyed, everything a device accepted has been confirmed exactly once. */
  lemma DestroyedConfirmsAll(ops: seq<Op>, i: nat)
    requires i < |Exec(START, ops).devices| && i !in Exec(START, ops).vector
    ensures
      var t := Exec(START, ops).devices[i].client;
      multiset(L.Finished(t.done)) == multiset(t.accepted)
  {
    hide Exec;
    RunKeeps(ops);
    var d := Exec(START, ops).devices[i];
    assert DeviceGood(d);
  }

  /** GetSendStatus says IDLE exactly when every accepted event is confirmed. */
  lemma IdleWhenAllConfirmed(ops: seq<Op>, i: nat)
    requires i < |Exec(START, ops).devices|
    ensures
      var d := Exec(START, ops).devices[i];
      GetSendStatus(d) == Idle <==> multiset(L.Finished(d.client.done)) == multiset(d.client.accepted)
  {
    hide Exec;
    RunKeeps(ops);
    var d := Exec(START, ops).devices[i];
    assert DeviceGood(d);
    assert |multiset(d.client.waiting) + multiset(d.inProgress) + multiset(L.Finished(d.client.done))|
        == |d.client.waiting| + |d.inProgress| + |d.client.done|;
    assert |multiset(L.Finished(d.client.done))| == |d.client.done|;
  }

  /**
   * A connection retry empties every registered device's in-progress list; its wait list
   * becomes the old one followed by the in-progress events in reverse.
   */
  lemma RetryRollsBack(ops: seq<Op>, env: TransportEnv, i: nat)
    requires i in Exec(START, ops).vector && i < |Exec(START, ops).devices|
    ensures
      var s := Exec(START, ops);
      var d, d' := s.devices[i], Retry(s, env).devices[i];
      && d'.inProgress == [] && d'.client.waiting == d.client.waiting + Reverse(d.inProgress)
      && d'.client.done == d.client.done && !d'.sender
      && ((if s.connected then s.faulty else !env.established) ==> Apply(s, DoWork(env)) == Retry(s, env))
      && (!Apply(s, DoWork(env)).connected ==>
            forall j :: 0 <= j < |s.devices| ==> Apply(s, DoWork(env)).devices[j].inProgress == [])
  {
    hide Exec, DeviceGood, WorkAll, AnyCritical;
    RunKeeps(ops);
    var s := Exec(START, ops);
    RetryAllKeeps(s, env);
    WorkAllKeeps(s, env);
    RetryAllKeeps(s.(devices := WorkAll(s, env), connected := true), env);
  }

  /**
   * In every run with a device key, each event handed to the sender had a token, and it
   * was unexpired at the status check if the refresh time was at most the token's lifetime.
   */
  lemma EventsTravelFresh(ops: seq<Op>, i: nat, k: nat)
    requires i < |Exec(START, ops).devices| && k < |Exec(START, ops).devices[i].handed|
    requires Exec(START, ops).devices[i].auth.credential == A.DeviceKey
    ensures
      var h := Exec(START, ops).devices[i].handed[k];
      && h.token.Some? && h.now.Some?
      && (h.refresh <= h.token.value.lifetime ==>
            h.now.value < h.token.value.created + h.token.value.lifetime / 1000)
  {
    hide Exec;
    RunKeeps(ops);
    assert DeviceGood(Exec(START, ops).devices[i]);
    assert Fresh(Exec(START, ops).devices[i].handed[k]);
    A.ExpiryFits(Exec(START, ops).devices[i].handed[k].token.value);
  }

  /** In every run with a CBS credential, each event was handed over while CBS's last answer to a put was success. */
  lemma EventsTravelAccepted(ops: seq<Op>, i: nat, k: nat)
    requires i < |Exec(START, ops).devices| && k < |Exec(START, ops).devices[i].handed|
    requires !Exec(START, ops).devices[i].auth.credential.X509?
    ensures Exec(START, ops).devices[i].handed[k].answer == Some(true)
  {
    hide Exec;
    RunKeeps(ops);
    assert DeviceGood(Exec(START, ops).devices[i]);
  }

  /** An event in progress always belongs to a registered device whose sender still exists. */
  lemma NoEventStranded(ops: seq<Op>, i: nat)
    requires i < |Exec(START, ops).devices| && Exec(START, ops).devices[i].inProgress != []
    ensures i in Exec(START, ops).vector && Exec(START, ops).devices[i].sender
  {
    hide Exec;
    RunKeeps(ops);
    assert DeviceGood(Exec(START, ops).devices[i]);
  }
}
