/** What each walk over the queues tells the application: the results of the confirmations it adds. */
module Results {
  import opened Clock
  import opened Lists
  import opened Telemetry

  /** `after` is `before` with further confirmations, all of them with one of `results`. */
  ghost predicate Adds(before: seq<Completion>, after: seq<Completion>, results: set<Confirmation>)
  {
    before <= after && forall k :: |before| <= k < |after| ==> after[k].result in results
  }

  lemma AddsMore(a: seq<Completion>, b: seq<Completion>, c: seq<Completion>, results: set<Confirmation>)
    requires Adds(a, b, results) && Adds(b, c, results)
    ensures Adds(a, c, results)
  {
    assert forall k :: |a| <= k < |b| ==> c[k] == b[k];
  }

  lemma AddsWider(a: seq<Completion>, b: seq<Completion>, few: set<Confirmation>, many: set<Confirmation>)
    requires Adds(a, b, few) && few <= many
    ensures Adds(a, b, many)
  {
  }

  lemma FinishAdds(t: State, m: Message, r: Confirmation, results: set<Confirmation>)
    requires r in results
    ensures Adds(t.done, Finish(t, m, r).done, results)
  {
    assert Finish(t, m, r).done == t.done + [Completion(m, r)];
  }

  lemma {:induction false} TimeoutAdds(t: State, i: nat, now: Tick)
    requires i <= |t.waiting|
    ensures Adds(t.done, TimeoutWalk(t, i, now).done, {MessageTimeout})
    decreases |t.waiting| - i + Backlog(t.user)
  {
    hide Adds;
    if i == |t.waiting| {
      AddsNothing(t.done, {MessageTimeout});
    } else if !Expired(t.waiting[i], now) {
      TimeoutAdds(t, i + 1, now);
    } else {
      var t' := Finish(Unqueue(t, i), t.waiting[i], MessageTimeout);
      FinishAdds(Unqueue(t, i), t.waiting[i], MessageTimeout, {MessageTimeout});
      if i + 1 < |t.waiting| {
        TimeoutAdds(t', i, now);
        AddsMore(t.done, t'.done, TimeoutWalk(t', i, now).done, {MessageTimeout});
      }
    }
  }

  lemma AddsNothing(done: seq<Completion>, results: set<Confirmation>)
    ensures Adds(done, done, results)
  {
  }

  lemma {:induction false} ResendAdds(t: State, i: nat, visit: nat -> Visit, connected: bool)
    requires i <= |t.inFlight|
    ensures Adds(t.done, ResendWalk(t, i, visit, connected).done, {MessageTimeout, Error})
    decreases |t.inFlight| - i
  {
    hide Adds;
    var results := {MessageTimeout, Error};
    if i == |t.inFlight| {
      AddsNothing(t.done, results);
    } else {
      var e := t.inFlight[i];
      var v := visit(e.message.id);
      if !Overdue(v.now, e.publishedAt) {
        ResendAdds(t, i + 1, visit, connected);
      } else if e.retryCount >= MAX_SEND_COUNT || (e.message.payload != [] && v.outcome.Refused?) {
        var r := if e.retryCount >= MAX_SEND_COUNT then MessageTimeout else Error;
        var t' := Finish(Land(t, i), e.message, r);
        FinishAdds(Land(t, i), e.message, r, results);
        ResendAdds(t', i, visit, connected);
        AddsMore(t.done, t'.done, ResendWalk(t', i, visit, connected).done, results);
      } else if e.message.payload == [] {
        ResendAdds(t, i + 1, visit, connected);
      } else {
        ResendAdds(Republish(t, i, v.outcome.at, connected), i + 1, visit, connected);
      }
    }
  }

  lemma {:induction false} PublishAdds(t: State, i: nat, first: nat -> FirstOutcome, connected: bool)
    requires i <= |t.waiting|
    ensures Adds(t.done, PublishWalk(t, i, first, connected).done, {Error})
    decreases |t.waiting| - i + Backlog(t.user)
  {
    hide Adds;
    if i == |t.waiting| {
      AddsNothing(t.done, {Error});
    } else {
      var m := t.waiting[i];
      if m.payload == [] || first(m.id).NoMemory? {
        PublishAdds(t, i + 1, first, connected);
      } else if first(m.id).outcome.Refused? {
        var t' := Finish(Unqueue(TakeId(t), i), m, Error);
        FinishAdds(Unqueue(TakeId(t), i), m, Error, {Error});
        if i + 1 < |t.waiting| {
          PublishAdds(t', i, first, connected);
          AddsMore(t.done, t'.done, PublishWalk(t', i, first, connected).done, {Error});
        }
      } else {
        PublishAdds(Launch(TakeId(t), i, first(m.id).outcome.at, connected), i, first, connected);
      }
    }
  }

  lemma {:induction false} AckAdds(t: State, i: nat, pid: nat)
    requires i <= |t.inFlight|
    ensures Adds(t.done, AckWalk(t, i, pid).done, {Ok})
    decreases |t.inFlight| - i
  {
    hide Adds;
    if i == |t.inFlight| {
      AddsNothing(t.done, {Ok});
    } else if t.inFlight[i].packetId != pid {
      AckAdds(t, i + 1, pid);
    } else {
      var t' := Finish(Land(t, i), t.inFlight[i].message, Ok);
      FinishAdds(Land(t, i), t.inFlight[i].message, Ok, {Ok});
      AckAdds(t', i, pid);
      AddsMore(t.done, t'.done, AckWalk(t', i, pid).done, {Ok});
    }
  }

  lemma {:induction false} DrainFlightAdds(t: State)
    ensures Adds(t.done, DrainFlight(t).done, {BecauseDestroy})
    decreases |t.inFlight|
  {
    hide Adds;
    if t.inFlight == [] {
      AddsNothing(t.done, {BecauseDestroy});
    } else {
      var t' := Finish(Land(t, 0), t.inFlight[0].message, BecauseDestroy);
      FinishAdds(Land(t, 0), t.inFlight[0].message, BecauseDestroy, {BecauseDestroy});
      DrainFlightAdds(t');
      AddsMore(t.done, t'.done, DrainFlight(t').done, {BecauseDestroy});
    }
  }

  lemma {:induction false} DrainWaitingAdds(t: State)
    ensures Adds(t.done, DrainWaiting(t).done, {BecauseDestroy})
    decreases |t.waiting| + Backlog(t.user)
  {
    hide Adds;
    if t.waiting == [] {
      AddsNothing(t.done, {BecauseDestroy});
    } else {
      var t' := Finish(Unqueue(t, 0), t.waiting[0], BecauseDestroy);
      FinishAdds(Unqueue(t, 0), t.waiting[0], BecauseDestroy, {BecauseDestroy});
      DrainWaitingAdds(t');
      AddsMore(t.done, t'.done, DrainWaiting(t').done, {BecauseDestroy});
    }
  }
}
