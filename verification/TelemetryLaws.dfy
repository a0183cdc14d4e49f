/** What every telemetry operation keeps: conservation, identity, order and pacing. */
module TelemetryLaws {
  import opened Clock
  import opened Lists
  import opened Telemetry
  import PacketIds

  // ---------------------------------------------------------------------------
  // The invariants
  // ---------------------------------------------------------------------------

  function Messages(es: seq<Entry>): (ms: seq<Message>)
    ensures |ms| == |es|
    ensures forall i :: 0 <= i < |es| ==> ms[i] == es[i].message
  {
    seq(|es|, i requires 0 <= i < |es| => es[i].message)
  }

  function Finished(cs: seq<Completion>): (ms: seq<Message>)
    ensures |ms| == |cs|
    ensures forall i :: 0 <= i < |cs| ==> ms[i] == cs[i].message
  {
    seq(|cs|, i requires 0 <= i < |cs| => cs[i].message)
  }

  function Confirmed(es: seq<Entry>, r: Confirmation): (cs: seq<Completion>)
    ensures |cs| == |es|
    ensures forall i :: 0 <= i < |es| ==> cs[i] == Completion(es[i].message, r)
  {
    seq(|es|, i requires 0 <= i < |es| => Completion(es[i].message, r))
  }

  /** Nothing is lost or duplicated: waiting, in flight and confirmed together are what was accepted. */
  ghost predicate Conserved(t: State)
  {
    multiset(t.waiting) + multiset(Messages(t.inFlight)) + multiset(Finished(t.done)) == multiset(t.accepted)
  }

  /** Each queued record is the accepted one, and no record is queued twice. */
  ghost predicate Identified(t: State)
  {
    && (forall k :: 0 <= k < |t.accepted| ==> t.accepted[k].id == k)
    && (forall k :: 0 <= k < |t.waiting| ==> t.waiting[k].id < |t.accepted|)
    && (forall k :: 0 <= k < |t.inFlight| ==> t.inFlight[k].message.id < |t.accepted|)
    && (forall j, k :: 0 <= j < k < |t.waiting| ==> t.waiting[j].id < t.waiting[k].id)
    && (forall j, k :: 0 <= j < k < |t.inFlight| ==> t.inFlight[j].message.id != t.inFlight[k].message.id)
    && (forall j, k :: 0 <= j < |t.inFlight| && 0 <= k < |t.waiting| ==> t.inFlight[j].message.id != t.waiting[k].id)
    && (forall k :: 0 <= k < |t.sends| ==> t.sends[k].id < |t.accepted|)
  }

  /** In-flight entries carry a payload, a retry count of one or two, and the packet id of their allocation. */
  ghost predicate Stamped(t: State)
  {
    && PacketIds.Consistent(t.ids)
    && (forall k :: 0 <= k < |t.inFlight| ==>
          && t.inFlight[k].message.payload != []
          && 1 <= t.inFlight[k].retryCount <= MAX_SEND_COUNT
          && t.inFlight[k].packetId == PacketIds.IdOf(t.inFlight[k].serial)
          && t.inFlight[k].serial <= t.ids.issued)
    && (forall j, k :: 0 <= j < k < |t.inFlight| ==> t.inFlight[j].serial < t.inFlight[k].serial)
    && (forall k :: 0 <= k < |t.sends| ==> t.sends[k].connected)
  }

  /** Acceptance order, from the oldest in-flight entry to the newest waiting message with a payload. */
  ghost predicate Ordered(t: State)
  {
    && (forall j, k :: 0 <= j < k < |t.inFlight| ==> t.inFlight[j].message.id < t.inFlight[k].message.id)
    && (forall j, k :: 0 <= j < |t.inFlight| && 0 <= k < |t.waiting| && t.waiting[k].payload != [] ==>
          t.inFlight[j].message.id < t.waiting[k].id)
    && (forall j, k :: 0 <= j < k < |t.sends| && t.sends[j].first && t.sends[k].first ==>
          t.sends[j].id < t.sends[k].id)
    && (forall j, k :: 0 <= j < |t.sends| && t.sends[j].first && 0 <= k < |t.waiting| && t.waiting[k].payload != [] ==>
          t.sends[j].id < t.waiting[k].id)
  }

  /** When message `id` was published, oldest first. */
  function Times(sends: seq<Publication>, id: nat): (ts: seq<Tick>)
  {
    if sends == [] then []
    else
      var last := sends[|sends| - 1];
      Times(sends[..|sends| - 1], id) + (if last.id == id then [last.at] else [])
  }

  /** At most two publications, the second at least 61 s after the first. */
  ghost predicate Spaced(ts: seq<Tick>)
  {
    |ts| <= 2 && (|ts| == 2 ==> ts[1] as int - ts[0] as int >= 61000)
  }

  ghost predicate FlightTimed(t: State, clock: Tick)
  {
    forall k :: 0 <= k < |t.inFlight| ==>
      var ts := Times(t.sends, t.inFlight[k].message.id);
      |ts| == t.inFlight[k].retryCount && |ts| > 0 && ts[|ts| - 1] == t.inFlight[k].publishedAt <= clock
  }

  ghost predicate Unsent(t: State)
  {
    && (forall k :: 0 <= k < |t.waiting| ==> Times(t.sends, t.waiting[k].id) == [])
    && (forall id :: |t.accepted| <= id ==> Times(t.sends, id) == [])
  }

  /** The entry's fields agree with the publication log, and every message is spaced out. */
  ghost predicate Paced(t: State, clock: Tick)
  {
    FlightTimed(t, clock) && Unsent(t) && forall id: nat :: Spaced(Times(t.sends, id))
  }

  /** Which of the conditional invariants a run is known to keep. */
  datatype Mode = Mode(ordered: bool, timed: bool, clock: Tick)

  ghost predicate Good(t: State, mode: Mode)
  {
    && Conserved(t) && Identified(t) && Stamped(t)
    && (mode.ordered ==> Ordered(t))
    && (mode.timed ==> Paced(t, mode.clock))
  }

  // ---------------------------------------------------------------------------
  // Each elementary change keeps them
  // ---------------------------------------------------------------------------

  lemma TimesAppend(sends: seq<Publication>, p: Publication, id: nat)
    ensures Times(sends + [p], id) == Times(sends, id) + (if p.id == id then [p.at] else [])
  {
    assert (sends + [p])[..|sends|] == sends;
  }

  lemma GrowShape(t: State, t': State, k: nat)
    requires Grows(t, t') && k < |t'.waiting|
    ensures k < |t.waiting| ==> t'.waiting[k] == t.waiting[k]
    ensures k >= |t.waiting| ==> t'.waiting[k].id == |t.accepted| + (k - |t.waiting|) < |t'.accepted|
  {
  }

  lemma GrowConserved(t: State, t': State)
    requires Conserved(t) && Grows(t, t')
    ensures Conserved(t')
  {
    assert t'.accepted == t.accepted + t'.accepted[|t.accepted|..];
  }

  lemma GrowIdentified(t: State, t': State)
    requires Identified(t) && Grows(t, t')
    ensures Identified(t')
  {
    forall k | 0 <= k < |t'.waiting|
      ensures k < |t.waiting| ==> t'.waiting[k] == t.waiting[k]
      ensures k >= |t.waiting| ==> t'.waiting[k].id == |t.accepted| + (k - |t.waiting|) < |t'.accepted|
    {
      GrowShape(t, t', k);
    }
    assert t'.inFlight == t.inFlight;
  }

  lemma GrowOrdered(t: State, t': State)
    requires Identified(t) && Ordered(t) && Grows(t, t')
    requires forall j :: 0 <= j < |t.sends| ==> t.sends[j].id < |t.accepted|
    ensures Ordered(t')
  {
    forall k | 0 <= k < |t'.waiting|
      ensures k < |t.waiting| ==> t'.waiting[k] == t.waiting[k]
      ensures k >= |t.waiting| ==> t'.waiting[k].id >= |t.accepted|
    {
      GrowShape(t, t', k);
    }
    assert t'.inFlight == t.inFlight && t'.sends == t.sends;
  }

  lemma GrowPaced(t: State, t': State, clock: Tick)
    requires Paced(t, clock) && Grows(t, t')
    ensures Paced(t', clock)
  {
    forall k | 0 <= k < |t'.waiting|
      ensures k < |t.waiting| ==> t'.waiting[k] == t.waiting[k]
      ensures k >= |t.waiting| ==> t'.waiting[k].id >= |t.accepted|
    {
      GrowShape(t, t', k);
    }
    assert t'.inFlight == t.inFlight && t'.sends == t.sends;
  }

  lemma GrowKeeps(t: State, t': State, mode: Mode)
    requires Good(t, mode) && Grows(t, t')
    ensures Good(t', mode)
  {
    GrowConserved(t, t');
    GrowIdentified(t, t');
    if mode.ordered { GrowOrdered(t, t'); }
    if mode.timed { GrowPaced(t, t', mode.clock); }
  }

  lemma LandConserved(t: State, i: nat, r: Confirmation)
    requires Conserved(t) && i < |t.inFlight|
    ensures Conserved(Log(Land(t, i), t.inFlight[i].message, r))
  {
    var m := t.inFlight[i].message;
    assert Messages(Land(t, i).inFlight) == RemoveAt(Messages(t.inFlight), i);
    RemoveAtMultiset(Messages(t.inFlight), i);
    assert Finished(Log(Land(t, i), m, r).done) == Finished(t.done) + [m];
  }

  lemma UnqueueConserved(t: State, i: nat, r: Confirmation)
    requires Conserved(t) && i < |t.waiting|
    ensures Conserved(Log(Unqueue(t, i), t.waiting[i], r))
  {
    RemoveAtMultiset(t.waiting, i);
    assert Finished(Log(Unqueue(t, i), t.waiting[i], r).done) == Finished(t.done) + [t.waiting[i]];
  }

  lemma LandOrdered(t: State, i: nat, r: Confirmation)
    requires Ordered(t) && i < |t.inFlight|
    ensures Ordered(Log(Land(t, i), t.inFlight[i].message, r))
  {
  }

  lemma LandPaced(t: State, i: nat, r: Confirmation, clock: Tick)
    requires Paced(t, clock) && i < |t.inFlight|
    ensures Paced(Log(Land(t, i), t.inFlight[i].message, r), clock)
  {
  }

  lemma LandIdentified(t: State, i: nat, r: Confirmation)
    requires Identified(t) && Stamped(t) && i < |t.inFlight|
    ensures Identified(Log(Land(t, i), t.inFlight[i].message, r))
    ensures Stamped(Log(Land(t, i), t.inFlight[i].message, r))
  {
  }

  lemma LandKeeps(t: State, i: nat, r: Confirmation, mode: Mode)
    requires Good(t, mode) && i < |t.inFlight|
    ensures Good(Finish(Land(t, i), t.inFlight[i].message, r), mode)
  {
    LandConserved(t, i, r);
    LandIdentified(t, i, r);
    if mode.ordered { LandOrdered(t, i, r); }
    if mode.timed { LandPaced(t, i, r, mode.clock); }
    GrowKeeps(Log(Land(t, i), t.inFlight[i].message, r), Finish(Land(t, i), t.inFlight[i].message, r), mode);
  }

  lemma UnqueueOrdered(t: State, i: nat, r: Confirmation)
    requires Ordered(t) && i < |t.waiting|
    ensures Ordered(Log(Unqueue(t, i), t.waiting[i], r))
  {
  }

  lemma UnqueuePaced(t: State, i: nat, r: Confirmation, clock: Tick)
    requires Paced(t, clock) && i < |t.waiting|
    ensures Paced(Log(Unqueue(t, i), t.waiting[i], r), clock)
  {
  }

  lemma UnqueueIdentified(t: State, i: nat, r: Confirmation)
    requires Identified(t) && Stamped(t) && i < |t.waiting|
    ensures Identified(Log(Unqueue(t, i), t.waiting[i], r))
    ensures Stamped(Log(Unqueue(t, i), t.waiting[i], r))
  {
  }

  lemma UnqueueKeeps(t: State, i: nat, r: Confirmation, mode: Mode)
    requires Good(t, mode) && i < |t.waiting|
    ensures Good(Finish(Unqueue(t, i), t.waiting[i], r), mode)
  {
    UnqueueConserved(t, i, r);
    UnqueueIdentified(t, i, r);
    if mode.ordered { UnqueueOrdered(t, i, r); }
    if mode.timed { UnqueuePaced(t, i, r, mode.clock); }
    GrowKeeps(Log(Unqueue(t, i), t.waiting[i], r), Finish(Unqueue(t, i), t.waiting[i], r), mode);
  }

  lemma TakeIdKeeps(t: State, mode: Mode)
    requires Good(t, mode)
    ensures Good(TakeId(t), mode)
    ensures forall k :: 0 <= k < |t.inFlight| ==> t.inFlight[k].serial < TakeId(t).ids.issued
  {
    PacketIds.NextConsistent(t.ids);
  }

  lemma LaunchConserved(t: State, i: nat, at: Tick)
    requires Conserved(t) && i < |t.waiting|
    ensures Conserved(Launch(t, i, at, true))
  {
    RemoveAtMultiset(t.waiting, i);
    assert Messages(Launch(t, i, at, true).inFlight) == Messages(t.inFlight) + [t.waiting[i]];
  }

  lemma LaunchIdentified(t: State, i: nat, at: Tick)
    requires Identified(t) && i < |t.waiting|
    ensures Identified(Launch(t, i, at, true))
  {
  }

  lemma LaunchStamped(t: State, i: nat, at: Tick)
    requires Stamped(t) && i < |t.waiting| && t.waiting[i].payload != []
    requires forall k :: 0 <= k < |t.inFlight| ==> t.inFlight[k].serial < t.ids.issued
    ensures Stamped(Launch(t, i, at, true))
  {
  }

  lemma LaunchOrdered(t: State, i: nat, at: Tick)
    requires Identified(t) && Ordered(t) && i < |t.waiting| && t.waiting[i].payload != []
    requires forall k :: 0 <= k < i ==> t.waiting[k].payload == []
    ensures Ordered(Launch(t, i, at, true))
  {
  }

  /** The launched message gets its first publication; no other message gets one. */
  lemma LaunchTimes(t: State, i: nat, at: Tick, id: nat)
    requires Unsent(t) && i < |t.waiting|
    ensures Times(Launch(t, i, at, true).sends, id) == if id == t.waiting[i].id then [at] else Times(t.sends, id)
  {
    TimesAppend(t.sends, Launch(t, i, at, true).sends[|t.sends|], id);
  }

  lemma LaunchFlightTimed(t: State, i: nat, at: Tick, clock: Tick)
    requires Identified(t) && Unsent(t) && FlightTimed(t, clock) && i < |t.waiting| && at <= clock
    ensures FlightTimed(Launch(t, i, at, true), clock)
  {
    var t' := Launch(t, i, at, true);
    forall k | 0 <= k < |t'.inFlight|
      ensures Times(t'.sends, t'.inFlight[k].message.id) ==
              if k == |t.inFlight| then [at] else Times(t.sends, t.inFlight[k].message.id)
    {
      LaunchTimes(t, i, at, t'.inFlight[k].message.id);
    }
    hide Times, Identified, Unsent;
    assert forall k :: 0 <= k < |t.inFlight| ==> t'.inFlight[k] == t.inFlight[k];
  }

  lemma LaunchUnsent(t: State, i: nat, at: Tick)
    requires Identified(t) && Unsent(t) && i < |t.waiting|
    ensures Unsent(Launch(t, i, at, true))
  {
    var t' := Launch(t, i, at, true);
    forall k | 0 <= k < |t'.waiting| ensures Times(t'.sends, t'.waiting[k].id) == [] {
      assert t'.waiting[k] == if k < i then t.waiting[k] else t.waiting[k + 1];
      LaunchTimes(t, i, at, t'.waiting[k].id);
    }
    forall id: nat | |t'.accepted| <= id ensures Times(t'.sends, id) == [] {
      LaunchTimes(t, i, at, id);
    }
  }

  lemma LaunchPaced(t: State, i: nat, at: Tick, clock: Tick)
    requires Identified(t) && Paced(t, clock) && i < |t.waiting| && at <= clock
    ensures Paced(Launch(t, i, at, true), clock)
  {
    LaunchFlightTimed(t, i, at, clock);
    LaunchUnsent(t, i, at);
    forall id: nat ensures Spaced(Times(Launch(t, i, at, true).sends, id)) {
      LaunchTimes(t, i, at, id);
    }
    hide FlightTimed, Unsent, Launch;
  }

  /** A first publication, right after its packet id was allocated. */
  lemma LaunchKeeps(t: State, i: nat, at: Tick, mode: Mode)
    requires Good(t, mode) && i < |t.waiting| && t.waiting[i].payload != []
    requires mode.ordered ==> forall k :: 0 <= k < i ==> t.waiting[k].payload == []
    requires mode.timed ==> at <= mode.clock
    ensures Good(Launch(TakeId(t), i, at, true), mode)
  {
    TakeIdKeeps(t, mode);
    var u := TakeId(t);
    LaunchConserved(u, i, at);
    LaunchIdentified(u, i, at);
    LaunchStamped(u, i, at);
    if mode.ordered { LaunchOrdered(u, i, at); }
    if mode.timed { LaunchPaced(u, i, at, mode.clock); }
  }

  lemma RepublishPaced(t: State, i: nat, now: Tick, at: Tick, clock: Tick)
    requires Identified(t) && Paced(t, clock) && i < |t.inFlight|
    requires Overdue(now, t.inFlight[i].publishedAt) && t.inFlight[i].retryCount < MAX_SEND_COUNT
    requires t.inFlight[i].publishedAt <= now <= at <= clock
    ensures Paced(Republish(t, i, at, true), clock)
  {
    var t' := Republish(t, i, at, true);
    var p := t'.sends[|t.sends|];
    assert at as int - t.inFlight[i].publishedAt as int >= 61000;
    forall id: nat ensures Times(t'.sends, id) == Times(t.sends, id) + (if p.id == id then [p.at] else []) {
      TimesAppend(t.sends, p, id);
    }
  }

  lemma RepublishOrdered(t: State, i: nat, at: Tick)
    requires Ordered(t) && i < |t.inFlight|
    ensures Ordered(Republish(t, i, at, true))
  {
  }

  /** A resend of an overdue entry that was published once. */
  lemma RepublishKeeps(t: State, i: nat, now: Tick, at: Tick, mode: Mode)
    requires Good(t, mode) && i < |t.inFlight|
    requires Overdue(now, t.inFlight[i].publishedAt) && t.inFlight[i].retryCount < MAX_SEND_COUNT
    requires mode.timed ==> t.inFlight[i].publishedAt <= now <= at <= mode.clock
    ensures Good(Republish(t, i, at, true), mode)
  {
    var t' := Republish(t, i, at, true);
    assert Messages(t'.inFlight) == Messages(t.inFlight);
    if mode.ordered { RepublishOrdered(t, i, at); }
    if mode.timed { RepublishPaced(t, i, now, at, mode.clock); }
  }

  // ---------------------------------------------------------------------------
  // Whole walks keep them
  // ---------------------------------------------------------------------------

  lemma {:induction false} TimeoutKeeps(t: State, i: nat, now: Tick, mode: Mode)
    requires Good(t, mode) && i <= |t.waiting|
    ensures Good(TimeoutWalk(t, i, now), mode)
    ensures TimeoutWalk(t, i, now).inFlight == t.inFlight
    decreases |t.waiting| - i + Backlog(t.user)
  {
    hide Good;
    if i == |t.waiting| {
    } else if !Expired(t.waiting[i], now) {
      TimeoutKeeps(t, i + 1, now, mode);
    } else {
      UnqueueKeeps(t, i, MessageTimeout, mode);
      if i + 1 < |t.waiting| {
        TimeoutKeeps(Finish(Unqueue(t, i), t.waiting[i], MessageTimeout), i, now, mode);
      }
    }
  }

  /** Readings of a monotone clock that stood at `lo` when the loop began and at `hi` when it ended. */
  ghost predicate VisitsWithin(visit: nat -> Visit, lo: Tick, hi: Tick)
  {
    forall id: nat ::
      && lo <= visit(id).now <= hi
      && (visit(id).outcome.Published? ==> visit(id).now <= visit(id).outcome.at <= hi)
  }

  lemma {:induction false} ResendKeeps(t: State, i: nat, visit: nat -> Visit, lo: Tick, mode: Mode)
    requires Good(t, mode) && i <= |t.inFlight|
    requires mode.timed ==> VisitsWithin(visit, lo, mode.clock)
    requires mode.timed ==> forall k :: i <= k < |t.inFlight| ==> t.inFlight[k].publishedAt <= lo
    ensures Good(ResendWalk(t, i, visit, true), mode)
    decreases |t.inFlight| - i
  {
    hide Good;
    if i < |t.inFlight| {
      var e := t.inFlight[i];
      var v := visit(e.message.id);
      if !Overdue(v.now, e.publishedAt) {
        ResendKeeps(t, i + 1, visit, lo, mode);
      } else if e.retryCount >= MAX_SEND_COUNT {
        LandKeeps(t, i, MessageTimeout, mode);
        ResendKeeps(Finish(Land(t, i), e.message, MessageTimeout), i, visit, lo, mode);
      } else if e.message.payload == [] {
        ResendKeeps(t, i + 1, visit, lo, mode);
      } else if v.outcome.Refused? {
        LandKeeps(t, i, Error, mode);
        ResendKeeps(Finish(Land(t, i), e.message, Error), i, visit, lo, mode);
      } else {
        RepublishKeeps(t, i, v.now, v.outcome.at, mode);
        ResendKeeps(Republish(t, i, v.outcome.at, true), i + 1, visit, lo, mode);
      }
    }
  }

  ghost predicate FirstsWithin(first: nat -> FirstOutcome, hi: Tick)
  {
    forall id: nat :: first(id).Attempted? && first(id).outcome.Published? ==> first(id).outcome.at <= hi
  }

  ghost predicate NeverOutOfMemory(first: nat -> FirstOutcome)
  {
    forall id: nat :: first(id).Attempted?
  }

  lemma {:induction false} PublishKeeps(t: State, i: nat, first: nat -> FirstOutcome, mode: Mode)
    requires Good(t, mode) && i <= |t.waiting|
    requires mode.ordered ==> NeverOutOfMemory(first) && forall k :: 0 <= k < i ==> t.waiting[k].payload == []
    requires mode.timed ==> FirstsWithin(first, mode.clock)
    ensures Good(PublishWalk(t, i, first, true), mode)
    decreases |t.waiting| - i + Backlog(t.user)
  {
    hide Good;
    if i < |t.waiting| {
      var m := t.waiting[i];
      if m.payload == [] || first(m.id).NoMemory? {
        PublishKeeps(t, i + 1, first, mode);
      } else if first(m.id).outcome.Refused? {
        TakeIdKeeps(t, mode);
        UnqueueKeeps(TakeId(t), i, Error, mode);
        if i + 1 < |t.waiting| {
          PublishKeeps(Finish(Unqueue(TakeId(t), i), m, Error), i, first, mode);
        }
      } else {
        LaunchKeeps(t, i, first(m.id).outcome.at, mode);
        PublishKeeps(Launch(TakeId(t), i, first(m.id).outcome.at, true), i, first, mode);
      }
    }
  }

  lemma {:induction false} AckKeeps(t: State, i: nat, pid: nat, mode: Mode)
    requires Good(t, mode) && i <= |t.inFlight|
    ensures Good(AckWalk(t, i, pid), mode)
    decreases |t.inFlight| - i
  {
    hide Good;
    if i < |t.inFlight| {
      if t.inFlight[i].packetId != pid {
        AckKeeps(t, i + 1, pid, mode);
      } else {
        LandKeeps(t, i, Ok, mode);
        AckKeeps(Finish(Land(t, i), t.inFlight[i].message, Ok), i, pid, mode);
      }
    }
  }

  lemma {:induction false} DrainFlightKeeps(t: State, mode: Mode)
    requires Good(t, mode)
    ensures Good(DrainFlight(t), mode) && DrainFlight(t).inFlight == []
    decreases |t.inFlight|
  {
    hide Good;
    if t.inFlight != [] {
      LandKeeps(t, 0, BecauseDestroy, mode);
      DrainFlightKeeps(Finish(Land(t, 0), t.inFlight[0].message, BecauseDestroy), mode);
    }
  }

  lemma {:induction false} DrainWaitingKeeps(t: State, mode: Mode)
    requires Good(t, mode)
    ensures Good(DrainWaiting(t), mode)
    ensures DrainWaiting(t).inFlight == t.inFlight && DrainWaiting(t).waiting == []
    decreases |t.waiting| + Backlog(t.user)
  {
    hide Good;
    if t.waiting != [] {
      UnqueueKeeps(t, 0, BecauseDestroy, mode);
      DrainWaitingKeeps(Finish(Unqueue(t, 0), t.waiting[0], BecauseDestroy), mode);
    }
  }

  // ---------------------------------------------------------------------------
  // What each walk decides, stated without following the walk
  // ---------------------------------------------------------------------------

  lemma GrowMembers(t: State, t': State)
    requires Grows(t, t')
    ensures forall m :: m in t.waiting ==> m in t'.waiting
    ensures t'.done == t.done && t'.inFlight == t.inFlight
  {
    assert forall m :: m in t.waiting ==> m in t.waiting + t'.accepted[|t.accepted|..];
  }

  ghost predicate Acceptable(t: State, rs: seq<Request>)
  {
    forall i :: 0 <= i < |rs| ==> Accepts(t.timeout, rs[i])
  }

  lemma {:induction false} SubmitAllAccepts(t: State, rs: seq<Request>, k: nat)
    requires k < |rs| && Acceptable(t, rs)
    ensures
      var t' := SubmitAll(t, rs);
      && |t'.accepted| == |t.accepted| + |rs|
      && Some(t'.accepted[|t.accepted| + k].payload) == rs[k].payload
      && t'.accepted[|t.accepted| + k].notify == rs[k].callback
    decreases |rs|
  {
    var t1 := Submit(t, rs[0]);
    assert SubmitAll(t, rs) == SubmitAll(t1, rs[1..]) && Accepts(t.timeout, rs[0]);
    if |rs| > 1 {
      assert forall i :: 0 <= i < |rs[1..]| ==> rs[1..][i] == rs[i + 1];
      SubmitAllAccepts(t1, rs[1..], if k > 0 then k - 1 else 0);
    }
    assert k == 0 ==> SubmitAll(t1, rs[1..]).accepted[|t.accepted|] == t1.accepted[|t.accepted|];
  }

  /**
   * A confirmation runs the application's callback exactly if the message asked for one; what the callback
   * submits is accepted in order, with its payloads, into the wait list.
   */
  lemma FinishCallsBack(t: State, m: Message, r: Confirmation, k: nat)
    ensures !m.notify || t.user == [] ==> Finish(t, m, r) == t.(done := t.done + [Completion(m, r)])
    ensures m.notify && t.user != [] ==>
              var t' := Finish(t, m, r);
              && t'.user == t.user[1..] && t'.done == t.done + [Completion(m, r)]
              && (k < |t.user[0]| && Acceptable(t, t.user[0]) ==>
                    && |t'.accepted| == |t.accepted| + |t.user[0]|
                    && Some(t'.accepted[|t.accepted| + k].payload) == t.user[0][k].payload
                    && t'.waiting == t.waiting + t'.accepted[|t.accepted|..])
  {
    if m.notify && t.user != [] && k < |t.user[0]| && Acceptable(t, t.user[0]) {
      SubmitAllAccepts(Log(t, m, r).(user := t.user[1..]), t.user[0], k);
    }
  }

  /** Completing the in-flight entry at `i` touches nothing else in flight. */
  lemma LandEffect(t: State, i: nat, r: Confirmation)
    requires i < |t.inFlight|
    ensures
      var t' := Finish(Land(t, i), t.inFlight[i].message, r);
      && |t'.inFlight| == |t.inFlight| - 1
      && t'.inFlight[..i] == t.inFlight[..i] && t'.inFlight[i..] == t.inFlight[i + 1..]
      && t'.done == t.done + [Completion(t.inFlight[i].message, r)]
      && (forall m :: m in t.waiting ==> m in t'.waiting)
  {
    GrowMembers(Log(Land(t, i), t.inFlight[i].message, r), Finish(Land(t, i), t.inFlight[i].message, r));
  }

  /** DoTimeouts confirms exactly the expired messages of the list it was given, and keeps the others. */
  lemma {:induction false} TimeoutDecides(t: State, i: nat, now: Tick, k: nat)
    requires i <= |t.waiting| && k < |t.waiting|
    ensures t.done <= TimeoutWalk(t, i, now).done
    ensures k < i || !Expired(t.waiting[k], now) ==> t.waiting[k] in TimeoutWalk(t, i, now).waiting
    ensures k >= i && Expired(t.waiting[k], now) ==>
              Completion(t.waiting[k], MessageTimeout) in TimeoutWalk(t, i, now).done
    decreases |t.waiting| - i + Backlog(t.user)
  {
    if i == |t.waiting| {
    } else if !Expired(t.waiting[i], now) {
      TimeoutDecides(t, i + 1, now, k);
    } else {
      var c := Completion(t.waiting[i], MessageTimeout);
      var t' := Finish(Unqueue(t, i), t.waiting[i], MessageTimeout);
      GrowMembers(Log(Unqueue(t, i), t.waiting[i], MessageTimeout), t');
      assert t'.done == t.done + [c];
      if i + 1 == |t.waiting| {
        assert k < i ==> t'.waiting[k] == t.waiting[k];
      } else {
        var k' := if k < i then k else if k == i then 0 else k - 1;
        assert k != i ==> t'.waiting[k'] == t.waiting[k];
        TimeoutDecides(t', i, now, k');
        assert TimeoutWalk(t', i, now).done[|t.done|] == c;
      }
    }
  }

  /** Without a timeout a message never expires. */
  lemma NeverExpires(t: State, r: Request, now: Tick)
    requires Accepts(t.timeout, r) && t.timeout == 0
    ensures !Expired(Admit(t, r), now)
  {
  }

  /** What the messageTimeout option promises: the message expires once more than the timeout has passed. */
  ghost predicate ExpiresOnTime(t: State, r: Request)
    requires Accepts(t.timeout, r) && t.timeout != 0
  {
    forall now: Tick :: Expired(Admit(t, r), now) <==> now as int - r.clock.value as int > t.timeout
  }

  /** The option keeps its promise exactly when the deadline does not wrap to a non-zero tick. */
  lemma ExpiresOnTimeExactly(t: State, r: Request)
    requires Accepts(t.timeout, r) && t.timeout != 0
    ensures ExpiresOnTime(t, r) <==> r.clock.value + t.timeout <= U64
  {
    var sum := r.clock.value + t.timeout;
    if sum > U64 {
      assert sum % U64 == sum - U64;
      var now: Tick := r.clock.value;
      assert Expired(Admit(t, r), now);
    } else if sum == U64 {
      assert sum % U64 == 0;
    }
  }

  /** A timeout of U64 - 1 ms, set at tick 5, gives a deadline in the past: the message expires at once. */
  lemma ExpiresAtOnce(t: State)
    requires t.timeout == U64 - 1
    ensures
      var r := Request(Some([]), false, false, true, Some(5));
      Accepts(t.timeout, r) && Admit(t, r).deadline == 4 && Expired(Admit(t, r), 5) && !ExpiresOnTime(t, r)
  {
    var r := Request(Some([]), false, false, true, Some(5));
    assert (5 + (U64 - 1)) % U64 == 4;
    ExpiresOnTimeExactly(t, r);
  }

  /** What becomes of one in-flight entry in a publishing pass. */
  datatype Fate = Stays | Resent(entry: Entry) | Dropped(result: Confirmation)

  function FateOf(e: Entry, v: Visit): (f: Fate)
  {
    if !Overdue(v.now, e.publishedAt) then Stays
    else if e.retryCount >= MAX_SEND_COUNT then Dropped(MessageTimeout)
    else if e.message.payload == [] then Stays
    else if v.outcome.Refused? then Dropped(Error)
    else Resent(e.(publishedAt := v.outcome.at, retryCount := e.retryCount + 1))
  }

  /** The in-flight list after a publishing pass, entry by entry and in order. */
  function Survivors(es: seq<Entry>, visit: nat -> Visit): (r: seq<Entry>)
  {
    if es == [] then []
    else
      var rest := Survivors(es[1..], visit);
      match FateOf(es[0], visit(es[0].message.id))
      case Stays => [es[0]] + rest
      case Resent(e) => [e] + rest
      case Dropped(_) => rest
  }

  function Casualties(es: seq<Entry>, visit: nat -> Visit): (r: seq<Completion>)
  {
    if es == [] then []
    else
      var f := FateOf(es[0], visit(es[0].message.id));
      (if f.Dropped? then [Completion(es[0].message, f.result)] else []) + Casualties(es[1..], visit)
  }

  /** One entry of the resend loop, told by its fate. */
  lemma ResendStep(t: State, i: nat, visit: nat -> Visit, connected: bool)
    requires i < |t.inFlight|
    ensures
      var e := t.inFlight[i];
      var v := visit(e.message.id);
      var f := FateOf(e, v);
      var t' :=
        if f.Dropped? then Finish(Land(t, i), e.message, f.result)
        else if f.Resent? then Republish(t, i, v.outcome.at, connected) else t;
      var next := if f.Dropped? then i else i + 1;
      && next <= |t'.inFlight| && |t'.inFlight| - next == |t.inFlight| - i - 1
      && ResendWalk(t, i, visit, connected) == ResendWalk(t', next, visit, connected)
      && t'.inFlight[next..] == t.inFlight[i + 1..]
      && t'.inFlight[..next] == t.inFlight[..i] + Kept(e, f)
      && t'.done == t.done + (if f.Dropped? then [Completion(e.message, f.result)] else [])
      && (forall m :: m in t.waiting ==> m in t'.waiting)
  {
    hide Finish, Grows;
    var f := FateOf(t.inFlight[i], visit(t.inFlight[i].message.id));
    if f.Dropped? { LandEffect(t, i, f.result); }
  }

  function Kept(e: Entry, f: Fate): (r: seq<Entry>)
  {
    match f case Stays => [e] case Resent(e') => [e'] case Dropped(_) => []
  }

  lemma HeadFate(es: seq<Entry>, visit: nat -> Visit)
    requires es != []
    ensures
      var f := FateOf(es[0], visit(es[0].message.id));
      && Survivors(es, visit) == Kept(es[0], f) + Survivors(es[1..], visit)
      && Casualties(es, visit) ==
           (if f.Dropped? then [Completion(es[0].message, f.result)] else []) + Casualties(es[1..], visit)
  {
    hide FateOf;
  }

  /**
   * A publishing pass decides every in-flight entry on its own: the survivors stay in
   * order, and the confirmations are exactly the dropped entries, in order, whatever the
   * callbacks submit meanwhile.
   */
  lemma {:induction false} ResendDecides(t: State, i: nat, visit: nat -> Visit, connected: bool)
    requires i <= |t.inFlight|
    ensures ResendWalk(t, i, visit, connected).inFlight == t.inFlight[..i] + Survivors(t.inFlight[i..], visit)
    ensures ResendWalk(t, i, visit, connected).done == t.done + Casualties(t.inFlight[i..], visit)
    ensures forall m :: m in t.waiting ==> m in ResendWalk(t, i, visit, connected).waiting
    decreases |t.inFlight| - i
  {
    if i < |t.inFlight| {
      hide ResendWalk, FateOf, Finish, Land, Republish, Survivors, Casualties;
      var e := t.inFlight[i];
      var v := visit(e.message.id);
      var f := FateOf(e, v);
      var t' :=
        if f.Dropped? then Finish(Land(t, i), e.message, f.result)
        else if f.Resent? then Republish(t, i, v.outcome.at, connected) else t;
      ResendStep(t, i, visit, connected);
      assert t.inFlight[i..][0] == e && t.inFlight[i..][1..] == t.inFlight[i + 1..];
      HeadFate(t.inFlight[i..], visit);
      ResendDecides(t', if f.Dropped? then i else i + 1, visit, connected);
      var rest := t.inFlight[i + 1..];
      Associative(t.inFlight[..i], Kept(e, f), Survivors(rest, visit));
      Associative(t.done, if f.Dropped? then [Completion(e.message, f.result)] else [], Casualties(rest, visit));
    }
  }

  /** Where a waiting message is after a publishing pass that skipped it or came past it. */
  ghost predicate Placed(m: Message, skipped: bool, o: FirstOutcome, t: State)
  {
    if skipped || m.payload == [] || o.NoMemory? then m in t.waiting
    else if o.outcome.Refused? then Completion(m, Error) in t.done
    else exists e :: e in t.inFlight && e.message == m && e.retryCount == 1 && e.publishedAt == o.outcome.at
  }

  lemma PublishStep(t: State, i: nat, first: nat -> FirstOutcome, connected: bool)
    requires i < |t.waiting|
    ensures
      var m := t.waiting[i];
      PublishWalk(t, i, first, connected) ==
      if m.payload == [] || first(m.id).NoMemory? then PublishWalk(t, i + 1, first, connected)
      else match first(m.id).outcome
        case Refused =>
          var t' := Finish(Unqueue(TakeId(t), i), m, Error);
          if i + 1 == |t.waiting| then t' else PublishWalk(t', i, first, connected)
        case Published(at) => PublishWalk(Launch(TakeId(t), i, at, connected), i, first, connected)
  {
    hide Finish, Unqueue, TakeId, Launch;
  }

  /** The message at `i` is confirmed as failed; the others keep their order. */
  lemma RefuseShape(t: State, i: nat)
    requires i < |t.waiting|
    ensures
      var t' := Finish(Unqueue(TakeId(t), i), t.waiting[i], Error);
      && t'.done == t.done + [Completion(t.waiting[i], Error)] && t'.inFlight == t.inFlight
      && |t.waiting| - 1 <= |t'.waiting|
      && (forall k :: 0 <= k < i ==> t'.waiting[k] == t.waiting[k])
      && (forall k :: i <= k < |t.waiting| - 1 ==> t'.waiting[k] == t.waiting[k + 1])
  {
    GrowMembers(Log(Unqueue(TakeId(t), i), t.waiting[i], Error), Finish(Unqueue(TakeId(t), i), t.waiting[i], Error));
  }

  /** A publishing pass only adds confirmations and in-flight entries. */
  lemma {:induction false} PublishGrows(t: State, i: nat, first: nat -> FirstOutcome, connected: bool)
    requires i <= |t.waiting|
    ensures t.done <= PublishWalk(t, i, first, connected).done
    ensures t.inFlight <= PublishWalk(t, i, first, connected).inFlight
    decreases |t.waiting| - i + Backlog(t.user)
  {
    if i < |t.waiting| {
      var m := t.waiting[i];
      PublishStep(t, i, first, connected);
      hide PublishWalk, Finish, Grows;
      if m.payload == [] || first(m.id).NoMemory? {
        PublishGrows(t, i + 1, first, connected);
      } else if first(m.id).outcome.Refused? {
        RefuseShape(t, i);
        if i + 1 < |t.waiting| { PublishGrows(Finish(Unqueue(TakeId(t), i), m, Error), i, first, connected); }
      } else {
        PublishGrows(Launch(TakeId(t), i, first(m.id).outcome.at, connected), i, first, connected);
      }
    }
  }

  /** The message that a pass comes to and does not skip. */
  lemma PublishHere(t: State, i: nat, first: nat -> FirstOutcome, connected: bool)
    requires i < |t.waiting| && t.waiting[i].payload != [] && first(t.waiting[i].id).Attempted?
    ensures Placed(t.waiting[i], false, first(t.waiting[i].id), PublishWalk(t, i, first, connected))
  {
    var m := t.waiting[i];
    PublishStep(t, i, first, connected);
    hide PublishWalk, Finish, Grows;
    if first(m.id).outcome.Refused? {
      var t' := Finish(Unqueue(TakeId(t), i), m, Error);
      RefuseShape(t, i);
      assert t'.done[|t.done|] == Completion(m, Error);
      if i + 1 < |t.waiting| { PublishGrows(t', i, first, connected); }
    } else {
      var t' := Launch(TakeId(t), i, first(m.id).outcome.at, connected);
      var e := t'.inFlight[|t.inFlight|];
      PublishGrows(t', i, first, connected);
      assert PublishWalk(t', i, first, connected).inFlight[|t.inFlight|] == e;
    }
  }

  /** Each waiting message of the list a publishing pass starts with stays, is refused or takes off. */
  lemma {:induction false} PublishDecides(t: State, i: nat, first: nat -> FirstOutcome, connected: bool, k: nat)
    requires i <= |t.waiting| && k < |t.waiting|
    ensures Placed(t.waiting[k], k < i, first(t.waiting[k].id), PublishWalk(t, i, first, connected))
    decreases |t.waiting| - i + Backlog(t.user)
  {
    if i < |t.waiting| {
      var m := t.waiting[i];
      PublishStep(t, i, first, connected);
      hide PublishWalk, Finish, Grows;
      var k' := if k < i then k else k - 1;
      if m.payload == [] || first(m.id).NoMemory? {
        PublishDecides(t, i + 1, first, connected, k);
      } else if k == i {
        PublishHere(t, i, first, connected);
      } else if first(m.id).outcome.Refused? {
        var t' := Finish(Unqueue(TakeId(t), i), m, Error);
        RefuseShape(t, i);
        if i + 1 < |t.waiting| {
          hide Placed;
          PublishDecides(t', i, first, connected, k');
        } else {
          assert t'.waiting[k] == t.waiting[k];
        }
      } else {
        hide Placed;
        PublishDecides(Launch(TakeId(t), i, first(m.id).outcome.at, connected), i, first, connected, k');
      }
    }
  }

  /** The entries published under packet id `pid`, or the others, in order. */
  function Select(es: seq<Entry>, pid: nat, matching: bool): (r: seq<Entry>)
  {
    if es == [] then []
    else (if (es[0].packetId == pid) == matching then [es[0]] else []) + Select(es[1..], pid, matching)
  }

  lemma HeadSelect(es: seq<Entry>, pid: nat)
    requires es != []
    ensures Select(es, pid, false) == (if es[0].packetId == pid then [] else [es[0]]) + Select(es[1..], pid, false)
    ensures Confirmed(Select(es, pid, true), Ok) ==
            (if es[0].packetId == pid then [Completion(es[0].message, Ok)] else []) +
            Confirmed(Select(es[1..], pid, true), Ok)
  {
    var rest := Select(es[1..], pid, true);
    assert Confirmed([es[0]] + rest, Ok) == [Completion(es[0].message, Ok)] + Confirmed(rest, Ok);
  }

  /** One entry of the acknowledgement loop. */
  lemma AckStep(t: State, i: nat, pid: nat)
    requires i < |t.inFlight|
    ensures
      var e := t.inFlight[i];
      var hit := e.packetId == pid;
      var t', next := if hit then Finish(Land(t, i), e.message, Ok) else t, if hit then i else i + 1;
      && next <= |t'.inFlight| && |t'.inFlight| - next == |t.inFlight| - i - 1
      && AckWalk(t, i, pid) == AckWalk(t', next, pid)
      && t'.inFlight[next..] == t.inFlight[i + 1..]
      && t'.inFlight[..next] == t.inFlight[..i] + (if hit then [] else [e])
      && t'.done == t.done + (if hit then [Completion(e.message, Ok)] else [])
  {
    hide Finish, Grows;
    if t.inFlight[i].packetId == pid { LandEffect(t, i, Ok); }
  }

  /** A PUBACK removes exactly the entries published under that packet id and confirms them in order. */
  lemma {:induction false} AckDecides(t: State, i: nat, pid: nat)
    requires i <= |t.inFlight|
    ensures AckWalk(t, i, pid).inFlight == t.inFlight[..i] + Select(t.inFlight[i..], pid, false)
    ensures AckWalk(t, i, pid).done == t.done + Confirmed(Select(t.inFlight[i..], pid, true), Ok)
    decreases |t.inFlight| - i
  {
    if i < |t.inFlight| {
      hide AckWalk, Finish, Land, Select;
      var e := t.inFlight[i];
      var hit := e.packetId == pid;
      AckStep(t, i, pid);
      assert t.inFlight[i..][0] == e && t.inFlight[i..][1..] == t.inFlight[i + 1..];
      HeadSelect(t.inFlight[i..], pid);
      AckDecides(if hit then Finish(Land(t, i), e.message, Ok) else t, if hit then i else i + 1, pid);
      var rest := t.inFlight[i + 1..];
      Associative(t.inFlight[..i], if hit then [] else [e], Select(rest, pid, false));
      Associative(t.done, if hit then [Completion(e.message, Ok)] else [], Confirmed(Select(rest, pid, true), Ok));
    }
  }

  /** Every accepted message is in exactly one of waiting, in flight or confirmed, once. */
  lemma ExactlyOnePlace(t: State, k: nat)
    requires Conserved(t) && Identified(t) && k < |t.accepted|
    ensures
      var m := t.accepted[k];
      multiset(t.waiting)[m] + multiset(Messages(t.inFlight))[m] + multiset(Finished(t.done))[m] == 1
  {
    var m := t.accepted[k];
    DistinctCount(t.accepted, k);
    assert (multiset(t.waiting) + multiset(Messages(t.inFlight)) + multiset(Finished(t.done)))[m] == 1;
  }

  /** With nothing queued, every accepted message has been confirmed. */
  lemma AllConfirmed(t: State)
    requires Conserved(t) && t.waiting == [] && t.inFlight == []
    ensures multiset(Finished(t.done)) == multiset(t.accepted)
  {
    assert Messages(t.inFlight) == [];
  }

  lemma {:induction false} SelectMember(es: seq<Entry>, pid: nat, matching: bool)
    ensures forall e :: e in Select(es, pid, matching) <==> e in es && (e.packetId == pid) == matching
  {
    if es != [] {
      SelectMember(es[1..], pid, matching);
      assert es == [es[0]] + es[1..];
    }
  }

  lemma {:induction false} SelectNone(es: seq<Entry>, pid: nat)
    requires forall k :: 0 <= k < |es| ==> es[k].packetId != pid
    ensures Select(es, pid, true) == [] && Select(es, pid, false) == es
  {
    if es != [] {
      SelectNone(es[1..], pid);
    }
  }

  lemma {:induction false} SelectOne(es: seq<Entry>, pid: nat, k: nat)
    requires forall i, j :: 0 <= i < j < |es| ==> es[i].packetId != es[j].packetId
    requires k < |es| && es[k].packetId == pid
    ensures Select(es, pid, true) == [es[k]]
  {
    if k == 0 {
      SelectNone(es[1..], pid);
    } else {
      SelectOne(es[1..], pid, k - 1);
    }
  }

  /**
   * While no in-flight message has outlived 65533 later packet-id allocations, a PUBACK
   * confirms at most one message, and it is the one published under that packet id.
   */
  lemma AckConfirmsOne(t: State, pid: nat)
    requires Stamped(t)
    requires forall k :: 0 <= k < |t.inFlight| ==> t.ids.issued - t.inFlight[k].serial <= 65533
    ensures forall k :: 0 <= k < |t.inFlight| && t.inFlight[k].packetId == pid ==>
              AckWalk(t, 0, pid).done == t.done + [Completion(t.inFlight[k].message, Ok)]
    ensures (forall k :: 0 <= k < |t.inFlight| ==> t.inFlight[k].packetId != pid) ==>
              AckWalk(t, 0, pid).done == t.done && AckWalk(t, 0, pid).inFlight == t.inFlight
  {
    hide AckWalk;
    forall j, k | 0 <= j < k < |t.inFlight| ensures t.inFlight[j].packetId != t.inFlight[k].packetId {
      PacketIds.WindowDistinct(t.inFlight[j].serial, t.inFlight[k].serial);
    }
    assert t.inFlight[0..] == t.inFlight;
    AckDecides(t, 0, pid);
    forall k | 0 <= k < |t.inFlight| && t.inFlight[k].packetId == pid
      ensures AckWalk(t, 0, pid).done == t.done + [Completion(t.inFlight[k].message, Ok)]
    {
      SelectOne(t.inFlight, pid, k);
      assert Confirmed([t.inFlight[k]], Ok) == [Completion(t.inFlight[k].message, Ok)];
    }
    if forall k :: 0 <= k < |t.inFlight| ==> t.inFlight[k].packetId != pid {
      SelectNone(t.inFlight, pid);
      assert Confirmed([], Ok) == [];
    }
  }
}
