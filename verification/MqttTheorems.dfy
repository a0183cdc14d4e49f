/** The main results about every run of a device over MQTT. */
module MqttTheorems {
  import opened Clock
  import opened Lists
  import opened MqttDevice
  import opened MqttRuns
  import C = Connection
  import L = TelemetryLaws
  import PacketIds
  import T = Telemetry
  import W = Twin

  // ---------------------------------------------------------------------------
  // Telemetry
  // ---------------------------------------------------------------------------

  lemma {:induction false} LiveUntilDestroy(s: State, ops: seq<Op>)
    requires s.live
    ensures Exec(s, ops).live <==> Destroy !in ops
    decreases |ops|
  {
    if ops != [] {
      var n := |ops| - 1;
      LiveUntilDestroy(s, ops[..n]);
      assert ops == ops[..n] + [ops[n]];
      OnlyDestroyEnds(Exec(s, ops[..n]), ops[n]);
    }
  }

  lemma OnlyDestroyEnds(s: State, op: Op)
    ensures Apply(s, op).live <==> s.live && !op.Destroy?
  {
    hide T.TimeoutWalk, T.PublishWalk, T.ResendWalk, T.AckWalk, T.Submit, W.ProcessWalk, W.Respond, W.Retrieve,
        C.Initialize;
  }

  /**
   * In every run each accepted message is in exactly one of waiting, in flight or
   * confirmed, exactly once; so it is confirmed at most once.
   */
  lemma MessageInOnePlace(user: seq<seq<T.Request>>, uninitialised: Tick, ops: seq<Op>, k: nat)
    requires k < |Exec(Start(user, uninitialised), ops).tele.accepted|
    ensures
      var t := Exec(Start(user, uninitialised), ops).tele;
      var m := t.accepted[k];
      multiset(t.waiting)[m] + multiset(L.Messages(t.inFlight))[m] + multiset(L.Finished(t.done))[m] == 1
  {
    AnyRunKeeps(user, uninitialised, ops);
    L.ExactlyOnePlace(Exec(Start(user, uninitialised), ops).tele, k);
  }

  /** By the time Destroy returns every accepted message has been confirmed, exactly once. */
  lemma DestroyConfirmsAll(user: seq<seq<T.Request>>, uninitialised: Tick, ops: seq<Op>)
    requires Destroy in ops
    ensures
      var t := Exec(Start(user, uninitialised), ops).tele;
      && multiset(L.Finished(t.done)) == multiset(t.accepted)
      && forall k :: 0 <= k < |t.accepted| ==> multiset(L.Finished(t.done))[t.accepted[k]] == 1
  {
    hide Exec;
    AnyRunKeeps(user, uninitialised, ops);
    LiveUntilDestroy(Start(user, uninitialised), ops);
    var t := Exec(Start(user, uninitialised), ops).tele;
    L.AllConfirmed(t);
    forall k | 0 <= k < |t.accepted| ensures multiset(L.Finished(t.done))[t.accepted[k]] == 1 {
      DistinctCount(t.accepted, k);
    }
  }

  /** GetSendStatus says IDLE exactly when no accepted message is outstanding. */
  lemma IdleWhenNoneOutstanding(user: seq<seq<T.Request>>, uninitialised: Tick, ops: seq<Op>)
    ensures
      var s := Exec(Start(user, uninitialised), ops);
      GetSendStatus(s) == Idle <==> multiset(L.Finished(s.tele.done)) == multiset(s.tele.accepted)
  {
    hide Exec;
    AnyRunKeeps(user, uninitialised, ops);
    var t := Exec(Start(user, uninitialised), ops).tele;
    assert |multiset(t.waiting) + multiset(L.Messages(t.inFlight)) + multiset(L.Finished(t.done))|
        == |t.waiting| + |t.inFlight| + |t.done|;
    assert |multiset(L.Finished(t.done))| == |t.done|;
    if GetSendStatus(Exec(Start(user, uninitialised), ops)) == Idle { L.AllConfirmed(t); }
  }

  /**
   * Without allocation failure, in flight followed by waiting-with-payload is in acceptance
   * order, and first publications happen in that order.
   */
  lemma FirstPublicationsInOrder(user: seq<seq<T.Request>>, uninitialised: Tick, ops: seq<Op>)
    requires forall k :: 0 <= k < |ops| && ops[k].DoWork? ==> L.NeverOutOfMemory(ops[k].env.first)
    ensures
      var t := Exec(Start(user, uninitialised), ops).tele;
      && L.Ordered(t)
      && forall i, j :: 0 <= i < j < |t.sends| && t.sends[i].first && t.sends[j].first ==> t.sends[i].id < t.sends[j].id
  {
    hide Exec;
    RunKeeps(user, uninitialised, ops, seq(|ops| + 1, _ => 0), Mode(true, false, false, 0));
  }

  /** No telemetry and no twin report is ever published while disconnected. */
  lemma PublishesOnlyConnected(user: seq<seq<T.Request>>, uninitialised: Tick, ops: seq<Op>)
    ensures
      var s := Exec(Start(user, uninitialised), ops);
      && (s.conn.phase == C.Publish ==> s.conn.connected)
      && (forall k :: 0 <= k < |s.tele.sends| ==> s.tele.sends[k].connected)
      && (forall k :: 0 <= k < |s.twin.sent| ==> s.twin.sent[k].connected)
  {
    hide Exec;
    AnyRunKeeps(user, uninitialised, ops);
  }

  /**
   * With a working monotone clock a message is published at most twice, at least 61 s
   * apart, and an in-flight entry has been published once or twice.
   */
  lemma PublishedAtMostTwice(user: seq<seq<T.Request>>, uninitialised: Tick, ops: seq<Op>, clock: seq<Tick>, id: nat)
    requires Permitted(ops, clock, Mode(false, true, false, 0))
    ensures
      var t := Exec(Start(user, uninitialised), ops).tele;
      var ts := L.Times(t.sends, id);
      && |ts| <= 2 && (|ts| == 2 ==> ts[1] as int - ts[0] as int >= 61000)
      && (forall k :: 0 <= k < |t.inFlight| ==>
            && 1 <= t.inFlight[k].retryCount <= 2
            && |L.Times(t.sends, t.inFlight[k].message.id)| == t.inFlight[k].retryCount)
  {
    hide Exec, L.Times;
    RunKeeps(user, uninitialised, ops, clock, Mode(false, true, false, 0));
  }

  /** The entry was published twice, and a pass finds the second publication more than 60 whole seconds old. */
  predicate Late(e: T.Entry, v: T.Visit)
  {
    e.retryCount >= 2 && Seconds(v.now, e.publishedAt) > 60
  }

  /** This DoWork gets as far as publishing. */
  predicate Publishes(s: State, env: WorkEnv)
  {
    C.Initialize(s.conn, env.connect).1 && C.Initialize(s.conn, env.connect).0.phase == C.Publish
  }

  lemma {:induction false} SurvivorMember(es: seq<T.Entry>, visit: nat -> T.Visit, k: nat)
    requires k < |es| && !L.FateOf(es[k], visit(es[k].message.id)).Dropped?
    ensures es[k].message in L.Messages(L.Survivors(es, visit))
  {
    hide L.Survivors;
    L.HeadFate(es, visit);
    var head := L.Kept(es[0], L.FateOf(es[0], visit(es[0].message.id)));
    var rest := L.Survivors(es[1..], visit);
    assert L.Messages(head + rest) == L.Messages(head) + L.Messages(rest);
    if k == 0 {
      assert L.Messages(head)[0] == es[0].message;
    } else {
      SurvivorMember(es[1..], visit, k - 1);
    }
  }

  lemma WorkTele(s: State, env: WorkEnv)
    requires s.live && Publishes(s, env)
    ensures
      var t := DoReports(DoTimeouts(s, env.timeoutClock), env.reports).tele;
      var connected := C.Initialize(s.conn, env.connect).0.connected;
      Apply(s, DoWork(env)).tele == T.PublishWalk(T.ResendWalk(t, 0, env.visit, connected), 0, env.first, connected)
  {
    hide T.TimeoutWalk, T.ResendWalk, T.PublishWalk, W.ProcessWalk, C.Initialize;
  }

  /** A dropped entry is confirmed with the result of its fate; the message of any other one stays in flight. */
  ghost predicate Settled(m: T.Message, f: L.Fate, t: T.State)
  {
    if f.Dropped? then T.Completion(m, f.result) in t.done
    else exists j :: 0 <= j < |t.inFlight| && t.inFlight[j].message == m
  }

  lemma ResendSettles(t: T.State, visit: nat -> T.Visit, connected: bool, k: nat)
    requires k < |t.inFlight|
    ensures
      var e := t.inFlight[k];
      Settled(e.message, L.FateOf(e, visit(e.message.id)), T.ResendWalk(t, 0, visit, connected))
  {
    hide T.ResendWalk, L.FateOf, L.Survivors, L.Casualties;
    var e := t.inFlight[k];
    var f := L.FateOf(e, visit(e.message.id));
    var resent := T.ResendWalk(t, 0, visit, connected);
    L.ResendDecides(t, 0, visit, connected);
    assert t.inFlight[0..] == t.inFlight;
    if f.Dropped? {
      CasualtyExactly(t.inFlight, visit, e.message, f.result);
    } else {
      SurvivorMember(t.inFlight, visit, k);
      assert resent.inFlight == L.Survivors(t.inFlight, visit);
    }
  }

  lemma PublishSettles(t: T.State, first: nat -> T.FirstOutcome, connected: bool, m: T.Message, f: L.Fate)
    requires Settled(m, f, t)
    ensures Settled(m, f, T.PublishWalk(t, 0, first, connected))
  {
    hide T.PublishWalk;
    L.PublishGrows(t, 0, first, connected);
    if !f.Dropped? {
      var j :| 0 <= j < |t.inFlight| && t.inFlight[j].message == m;
      assert T.PublishWalk(t, 0, first, connected).inFlight[j] == t.inFlight[j];
    }
  }

  /** What such a DoWork does to an in-flight entry, whether or not it was late. */
  lemma WorkSettles(s: State, env: WorkEnv, mode: Mode, k: nat)
    requires Inv(s, mode) && s.live && Publishes(s, env) && k < |s.tele.inFlight|
    ensures
      var e := s.tele.inFlight[k];
      Settled(e.message, L.FateOf(e, env.visit(e.message.id)), Apply(s, DoWork(env)).tele)
  {
    hide Inv, T.ResendWalk, T.PublishWalk, DoTimeouts, DoReports, C.Initialize, L.FateOf, Apply, Settled, Publishes;
    var t := DoReports(DoTimeouts(s, env.timeoutClock), env.reports).tele;
    var connected := C.Initialize(s.conn, env.connect).0.connected;
    var e := s.tele.inFlight[k];
    WorkTele(s, env);
    BeforePublishing(s, env, mode);
    ResendSettles(t, env.visit, connected, k);
    PublishSettles(T.ResendWalk(t, 0, env.visit, connected), env.first, connected, e.message,
                   L.FateOf(e, env.visit(e.message.id)));
  }

  /** Neither the timeouts nor the reports touch the in-flight list. */
  lemma BeforePublishing(s: State, env: WorkEnv, mode: Mode)
    requires Inv(s, mode) && s.live
    ensures DoReports(DoTimeouts(s, env.timeoutClock), env.reports).tele.inFlight == s.tele.inFlight
  {
    hide L.Good, W.Good, Linked, Bound, W.ProcessWalk, T.TimeoutWalk;
    if env.timeoutClock.Some? { L.TimeoutKeeps(s.tele, 0, env.timeoutClock.value, Tele(mode)); }
  }

  /** Two confirmations of one message would make two entries of it. */
  lemma ConfirmedOnce(t: T.State, m: T.Message, a: T.Confirmation, b: T.Confirmation)
    requires L.Conserved(t) && L.Identified(t) && T.Completion(m, a) in t.done
    ensures m !in t.waiting && forall k :: 0 <= k < |t.inFlight| ==> t.inFlight[k].message != m
    ensures T.Completion(m, b) in t.done ==> a == b
  {
    var finished := L.Finished(t.done);
    var i :| 0 <= i < |t.done| && t.done[i] == T.Completion(m, a);
    assert finished[i] == m && m in multiset(finished);
    assert m in multiset(t.accepted) by {
      assert m in multiset(t.waiting) + multiset(L.Messages(t.inFlight)) + multiset(finished);
    }
    var k :| 0 <= k < |t.accepted| && t.accepted[k] == m;
    L.ExactlyOnePlace(t, k);
    assert m in multiset(t.waiting) ==> multiset(t.waiting)[m] >= 1;
    assert m in multiset(L.Messages(t.inFlight)) ==> multiset(L.Messages(t.inFlight))[m] >= 1;
    assert forall j :: 0 <= j < |t.inFlight| ==> L.Messages(t.inFlight)[j] in multiset(L.Messages(t.inFlight));
    if j :| 0 <= j < |t.done| && t.done[j] == T.Completion(m, b) {
      if i < j { CountsTwice(finished, m, i, j); }
      if j < i { CountsTwice(finished, m, j, i); }
    }
  }

  lemma CountsTwice<A>(s: seq<A>, x: A, i: nat, j: nat)
    requires i < j < |s| && s[i] == x && s[j] == x
    ensures multiset(s)[x] >= 2
  {
    RemoveAtMultiset(s, i);
    assert RemoveAt(s, i)[j - 1] == x;
    assert x in multiset(RemoveAt(s, i));
  }

  /**
   * In every run, a DoWork that publishes confirms an in-flight entry as timed out exactly
   * when it was published twice and is found more than 60 whole seconds old; so the first
   * such DoWork does.
   */
  lemma TimedOutExactly(user: seq<seq<T.Request>>, uninitialised: Tick, ops: seq<Op>, env: WorkEnv, k: nat)
    requires Destroy !in ops && Publishes(Exec(Start(user, uninitialised), ops), env)
    requires k < |Exec(Start(user, uninitialised), ops).tele.inFlight|
    ensures
      var e := Exec(Start(user, uninitialised), ops).tele.inFlight[k];
      var t' := Exec(Start(user, uninitialised), ops + [DoWork(env)]).tele;
      Late(e, env.visit(e.message.id)) <==> T.Completion(e.message, T.MessageTimeout) in t'.done
  {
    hide Exec, Apply, Publishes;
    var mode := Mode(false, false, false, 0);
    AnyRunKeeps(user, uninitialised, ops);
    AnyRunKeeps(user, uninitialised, ops + [DoWork(env)]);
    LiveUntilDestroy(Start(user, uninitialised), ops);
    ExecOne(Start(user, uninitialised), ops, DoWork(env));
    var s := Exec(Start(user, uninitialised), ops);
    var e, t' := s.tele.inFlight[k], Exec(Start(user, uninitialised), ops + [DoWork(env)]).tele;
    WorkSettles(s, env, mode, k);
    hide Inv;
    if T.Completion(e.message, T.MessageTimeout) in t'.done {
      var f := L.FateOf(e, env.visit(e.message.id));
      TeleOf(Exec(Start(user, uninitialised), ops + [DoWork(env)]), mode);
      ConfirmedOnce(t', e.message, T.MessageTimeout, if f.Dropped? then f.result else T.Ok);
    }
  }

  lemma TeleOf(s: State, mode: Mode)
    requires Inv(s, mode)
    ensures L.Conserved(s.tele) && L.Identified(s.tele)
  {
  }

  lemma {:induction false} CasualtyExactly(es: seq<T.Entry>, visit: nat -> T.Visit, m: T.Message, r: T.Confirmation)
    ensures T.Completion(m, r) in L.Casualties(es, visit) <==>
            exists k :: 0 <= k < |es| && es[k].message == m && L.FateOf(es[k], visit(m.id)) == L.Dropped(r)
  {
    hide L.FateOf;
    if es != [] {
      CasualtyExactly(es[1..], visit, m, r);
      if k :| 0 <= k < |es| && es[k].message == m && L.FateOf(es[k], visit(m.id)) == L.Dropped(r) {
        assert k > 0 ==> es[1..][k - 1] == es[k];
      }
    }
  }

  lemma ExecOne(s: State, ops: seq<Op>, op: Op)
    ensures Exec(s, ops + [op]) == Apply(Exec(s, ops), op)
  {
    hide Apply;
    assert (ops + [op])[..|ops|] == ops;
  }

  /**
   * While no in-flight message has outlived 65533 later allocations, a PUBACK confirms the
   * message published under its packet id and no other; an unknown id changes nothing.
   */
  lemma PubAckConfirmsOne(user: seq<seq<T.Request>>, uninitialised: Tick, ops: seq<Op>, pid: nat)
    requires
      var t := Exec(Start(user, uninitialised), ops).tele;
      Destroy !in ops && forall k :: 0 <= k < |t.inFlight| ==> t.ids.issued - t.inFlight[k].serial <= 65533
    ensures
      var t := Exec(Start(user, uninitialised), ops).tele;
      var t' := Exec(Start(user, uninitialised), ops + [PubAck(pid)]).tele;
      && (forall k :: 0 <= k < |t.inFlight| && t.inFlight[k].packetId == pid ==>
            t'.done == t.done + [T.Completion(t.inFlight[k].message, T.Ok)])
      && ((forall k :: 0 <= k < |t.inFlight| ==> t.inFlight[k].packetId != pid) ==> t'.done == t.done)
  {
    hide T.AckWalk, Exec;
    AnyRunKeeps(user, uninitialised, ops);
    LiveUntilDestroy(Start(user, uninitialised), ops);
    ExecOne(Start(user, uninitialised), ops, PubAck(pid));
    L.AckConfirmsOne(Exec(Start(user, uninitialised), ops).tele, pid);
  }

  /** In every run the packet ids are in 1..65534, and an in-flight entry carries the id of its own allocation. */
  lemma PacketIdsInRange(user: seq<seq<T.Request>>, uninitialised: Tick, ops: seq<Op>)
    ensures
      var t := Exec(Start(user, uninitialised), ops).tele;
      && 1 <= t.ids.current <= 65534 && t.ids.current == PacketIds.IdOf(t.ids.issued)
      && (forall k :: 0 <= k < |t.inFlight| ==>
            t.inFlight[k].packetId == PacketIds.IdOf(t.inFlight[k].serial) && t.inFlight[k].serial <= t.ids.issued)
  {
    hide Exec;
    AnyRunKeeps(user, uninitialised, ops);
  }

  // ---------------------------------------------------------------------------
  // Twin reports
  // ---------------------------------------------------------------------------

  /** Between steps both layers agree on the multiset of unanswered report ids. */
  lemma LayersAgree(user: seq<seq<T.Request>>, uninitialised: Tick, ops: seq<Op>)
    ensures
      var w := Exec(Start(user, uninitialised), ops).twin;
      multiset(W.ReportIds(w.awaiting)) == multiset(W.Ids(w.acks))
  {
    hide Exec, W.ReportIds;
    AnyRunKeeps(user, uninitialised, ops);
  }

  /** A submitted report is queued, awaiting its answer, answered or dropped, exactly one of these and once. */
  lemma ReportInOnePlace(user: seq<seq<T.Request>>, uninitialised: Tick, ops: seq<Op>, k: nat)
    requires k < |Exec(Start(user, uninitialised), ops).twin.submitted|
    ensures
      var w := Exec(Start(user, uninitialised), ops).twin;
      var r := w.submitted[k];
      && multiset(w.queue)[r] + multiset(w.acks)[r] + multiset(W.Reports(w.answered))[r] + multiset(w.dropped)[r] == 1
      && multiset(W.Payloads(w.sent))[r] == multiset(w.acks)[r] + multiset(W.Reports(w.answered))[r]
  {
    hide Exec, W.Matched;
    AnyRunKeeps(user, uninitialised, ops);
    var w := Exec(Start(user, uninitialised), ops).twin;
    DistinctCount(w.submitted, k);
    var r := w.submitted[k];
    assert (multiset(w.queue) + multiset(w.acks) + multiset(W.Reports(w.answered)) + multiset(w.dropped))[r] == 1;
  }

  lemma {:induction false} DrainTimesOut(w: W.State)
    ensures w.answered <= W.DrainAwaiting(w).answered
    ensures forall k :: |w.answered| <= k < |W.DrainAwaiting(w).answered| ==>
              W.DrainAwaiting(w).answered[k].status == W.STATUS_CODE_TIMEOUT
    decreases |w.awaiting|
  {
    if w.awaiting != [] {
      DrainTimesOut(W.Complete(w.(awaiting := w.awaiting[1..]), w.awaiting[0].reportId, W.STATUS_CODE_TIMEOUT));
    }
  }

  lemma DestroyAnswers(s: State, mode: Mode)
    requires Inv(s, mode) && s.live
    ensures
      var s' := DestroyClient(s);
      && DestroyTransport(s).twin.acks == []
      && s.twin.answered <= s'.twin.answered
      && (forall k :: |s.twin.answered| <= k < |s'.twin.answered| ==> s'.twin.answered[k].status == 408)
      && multiset(W.Reports(s'.twin.answered)) == multiset(W.Payloads(s'.twin.sent))
      && s'.twin.sent == s.twin.sent
  {
    hide W.DrainAwaiting, DestroyTransport, L.Good, Linked, Bound, T.DrainWaiting, W.Matched, W.Conserved, W.Shaped;
    DestroyTransportKeeps(s, mode);
    DrainTimesOut(s.twin);
    DrainSends(s.twin);
  }

  /**
   * Destroy answers every published and unanswered report with 408, so that the final
   * drain of the acknowledgement queue finds it empty; afterwards the answered reports
   * are exactly the published ones.
   */
  lemma DestroyAnswersAll(user: seq<seq<T.Request>>, uninitialised: Tick, ops: seq<Op>)
    requires Destroy !in ops
    ensures
      var s := Exec(Start(user, uninitialised), ops);
      var s' := Exec(Start(user, uninitialised), ops + [Destroy]);
      && DestroyTransport(s).twin.acks == []
      && s.twin.answered <= s'.twin.answered
      && (forall k :: |s.twin.answered| <= k < |s'.twin.answered| ==> s'.twin.answered[k].status == 408)
      && multiset(W.Reports(s'.twin.answered)) == multiset(W.Payloads(s'.twin.sent))
      && s'.twin.sent == s.twin.sent
  {
    hide Exec, Inv, DestroyClient, DestroyTransport;
    AnyRunKeeps(user, uninitialised, ops);
    LiveUntilDestroy(Start(user, uninitialised), ops);
    ExecOne(Start(user, uninitialised), ops, Destroy);
    DestroyAnswers(Exec(Start(user, uninitialised), ops), Mode(false, false, false, 0));
  }

  lemma {:induction false} DrainSends(w: W.State)
    ensures W.DrainAwaiting(w).sent == w.sent
    decreases |w.awaiting|
  {
    if w.awaiting != [] {
      DrainSends(W.Complete(w.(awaiting := w.awaiting[1..]), w.awaiting[0].reportId, W.STATUS_CODE_TIMEOUT));
    }
  }

  // ---------------------------------------------------------------------------
  // Connection
  // ---------------------------------------------------------------------------

  /**
   * As long as no Subscribe fails to rebuild a topic that is still pending, a pending bit
   * always has its topic, and a non-zero mask sends one to four filters and is cleared.
   */
  lemma MaskBacked(user: seq<seq<T.Request>>, uninitialised: Tick, ops: seq<Op>)
    requires MaskSafeRun(Start(user, uninitialised), ops)
    ensures
      var c := Exec(Start(user, uninitialised), ops).conn;
      && c.pending <= c.topics <= c.pending + c.handed
      && (c.pending != {} ==> 1 <= |C.Filters(c)| <= 4 && C.SendSubscribe(c, true).pending == {})
  {
    hide Exec, MaskSafeRun;
    RunKeeps(user, uninitialised, ops, seq(|ops| + 1, _ => 0), Mode(false, false, true, 0));
    var c := Exec(Start(user, uninitialised), ops).conn;
    if c.pending != {} { C.SubscribeClears(c, true); }
  }

  /** The mask is backed at every point of the run. */
  ghost predicate BackedThroughout(s: State, ops: seq<Op>)
  {
    forall k :: 0 <= k <= |ops| ==> C.Backed(Exec(s, ops[..k]).conn)
  }

  /** And that condition is exact: without it some point of the run has a bit without a topic. */
  lemma MaskBackedExactly(user: seq<seq<T.Request>>, uninitialised: Tick, ops: seq<Op>)
    ensures BackedThroughout(Start(user, uninitialised), ops) <==> MaskSafeRun(Start(user, uninitialised), ops)
  {
    var s := Start(user, uninitialised);
    hide Exec, C.Backed, C.SubscribeMessages;
    if MaskSafeRun(s, ops) {
      forall k | 0 <= k <= |ops| ensures C.Backed(Exec(s, ops[..k]).conn) {
        MaskSafePrefix(s, ops, k);
        MaskBacked(user, uninitialised, ops[..k]);
        BackedBySubset(Exec(s, ops[..k]).conn);
      }
    }
    if BackedThroughout(s, ops) {
      forall k | 0 <= k < |ops| ensures MaskSafe(Exec(s, ops[..k]), ops[k]) {
        var before := Exec(s, ops[..k]);
        assert ops[..k + 1] == ops[..k] + [ops[k]];
        ExecOne(s, ops[..k], ops[k]);
        assert C.Backed(before.conn) && C.Backed(Exec(s, ops[..k + 1]).conn);
        if ops[k].SubscribeMessages? { C.SubscribeMessagesBacked(before.conn, ops[k].memory); }
      }
    }
  }

  lemma BackedBySubset(c: C.State)
    requires c.pending <= c.topics
    ensures C.Backed(c)
  {
  }

  /**
   * With a working monotone clock, from an attempt that follows more than five failures
   * until one succeeds, a window of `w` ms holds at most w/31000 + 1 connect attempts.
   */
  lemma AttemptsThrottled(user: seq<seq<T.Request>>, uninitialised: Tick, ops: seq<Op>, clock: seq<Tick>, i: nat,
                          j: nat, w: nat)
    requires Permitted(ops, clock, Mode(false, true, false, 0))
    requires i <= j < |Exec(Start(user, uninitialised), ops).conn.attempts|
    requires
      var log := Exec(Start(user, uninitialised), ops).conn.attempts;
      && C.Trailing(log[..i + 1]) > 5
      && (forall k :: i <= k < j ==> !log[k].ok)
      && log[j].at as int - log[i].at as int <= w
    ensures
      var log := Exec(Start(user, uninitialised), ops).conn.attempts;
      && C.Throttled(log)
      && log[j].at as int - log[i].at as int >= 31000 * (j - i)
      && j - i + 1 <= w / 31000 + 1
  {
    hide Exec;
    RunKeeps(user, uninitialised, ops, clock, Mode(false, true, false, 0));
    C.ThrottledStretch(Exec(Start(user, uninitialised), ops).conn.attempts, i, j);
    C.WindowBound(Exec(Start(user, uninitialised), ops).conn.attempts, i, j, w);
  }
}
