/**
 * Telemetry queues of one device: the client's `waitingToSend`, the MQTT transport's
 * `telemetry_waitingForAck`, and every confirmation handed back to the application.
 */
module Telemetry {
  import opened Clock
  import opened Lists
  import PacketIds

  const RESEND_TIMEOUT_SECONDS: nat := 60
  const MAX_SEND_COUNT: nat := 2

  datatype Confirmation = Ok | BecauseDestroy | MessageTimeout | Error

  /** One IOTHUB_MESSAGE_LIST record. `id` is its place in the order of acceptance. */
  datatype Message = Message(id: nat, payload: seq<char>, deadline: Tick, notify: bool)

  /** Arguments of SendEventAsync together with what the allocator and the clock answer. */
  datatype Request = Request(payload: Option<seq<char>>, callback: bool, context: bool,
                             memory: bool, clock: Option<Tick>)

  /** One MQTT_MESSAGE_DETAILS_LIST record; `serial` is the packet-id allocation that produced `packetId`. */
  datatype Entry = Entry(message: Message, packetId: nat, serial: nat, publishedAt: Tick, retryCount: nat)

  datatype Completion = Completion(message: Message, result: Confirmation)

  /** A successful mqtt_client_publish of a telemetry message. */
  datatype Publication = Publication(id: nat, packetId: nat, at: Tick, first: bool, connected: bool)

  /**
   * `user[k]` holds the messages that the application submits from inside the k-th
   * confirmation callback still to come; `accepted`, `done` and `sends` are the history.
   */
  datatype State = State(
    waiting: seq<Message>, inFlight: seq<Entry>, timeout: Tick, ids: PacketIds.Counter,
    user: seq<seq<Request>>, accepted: seq<Message>, done: seq<Completion>, sends: seq<Publication>)

  function Start(user: seq<seq<Request>>): (t: State)
  {
    State([], [], 0, PacketIds.FIRST_COUNTER, user, [], [], [])
  }

  // ---------------------------------------------------------------------------
  // Submitting and completing messages
  // ---------------------------------------------------------------------------

  predicate ValidRequest(r: Request)
  {
    r.payload.Some? && (r.callback || !r.context)
  }

  predicate Accepts(timeout: Tick, r: Request)
  {
    ValidRequest(r) && r.memory && (timeout != 0 ==> r.clock.Some?)
  }

  /** attach_ms_timesOutAfter: zero means "never"; the addition wraps. */
  function Deadline(timeout: Tick, r: Request): (d: Tick)
    requires Accepts(timeout, r)
  {
    if timeout == 0 then 0 else (r.clock.value + timeout) % U64
  }

  function Admit(t: State, r: Request): (m: Message)
    requires Accepts(t.timeout, r)
  {
    Message(|t.accepted|, r.payload.value, Deadline(t.timeout, r), r.callback)
  }

  /** IoTHubClient_LL_SendEventAsync */
  function Submit(t: State, r: Request): (t': State)
  {
    if Accepts(t.timeout, r)
    then t.(waiting := t.waiting + [Admit(t, r)], accepted := t.accepted + [Admit(t, r)])
    else t
  }

  /** `t'` differs from `t` only by messages accepted at the tail of the wait list. */
  ghost predicate Grows(t: State, t': State)
  {
    && t.accepted <= t'.accepted
    && t'.waiting == t.waiting + t'.accepted[|t.accepted|..]
    && (forall k :: |t.accepted| <= k < |t'.accepted| ==> t'.accepted[k].id == k)
    && t'.(waiting := t.waiting, accepted := t.accepted, user := t.user) == t
  }

  function SubmitAll(t: State, rs: seq<Request>): (t': State)
    ensures Grows(t, t') && t'.user == t.user
    ensures |t'.waiting| <= |t.waiting| + |rs|
    decreases |rs|
  {
    if rs == [] then t else SubmitAll(Submit(t, rs[0]), rs[1..])
  }

  /** Everything the application will still submit from inside callbacks. */
  function Backlog(user: seq<seq<Request>>): (n: nat)
  {
    if user == [] then 0 else |user[0]| + Backlog(user[1..])
  }

  /** One confirmation callback runs; it may call SendEventAsync. */
  function Callback(t: State): (t': State)
    ensures Grows(t, t')
    ensures |t'.waiting| + Backlog(t'.user) <= |t.waiting| + Backlog(t.user)
  {
    if t.user == [] then t else SubmitAll(t.(user := t.user[1..]), t.user[0])
  }

  function Log(t: State, m: Message, result: Confirmation): (t': State)
  {
    t.(done := t.done + [Completion(m, result)])
  }

  /** The record is confirmed and freed; a NULL callback is not called. */
  function Finish(t: State, m: Message, result: Confirmation): (t': State)
    ensures Grows(Log(t, m, result), t')
    ensures |t'.waiting| + Backlog(t'.user) <= |t.waiting| + Backlog(t.user)
  {
    if m.notify then Callback(Log(t, m, result)) else Log(t, m, result)
  }

  function Unqueue(t: State, i: nat): (t': State)
    requires i < |t.waiting|
  {
    t.(waiting := RemoveAt(t.waiting, i))
  }

  function Land(t: State, i: nat): (t': State)
    requires i < |t.inFlight|
  {
    t.(inFlight := RemoveAt(t.inFlight, i))
  }

  // ---------------------------------------------------------------------------
  // Walks over the two lists, each from the entry at index `i` on
  // ---------------------------------------------------------------------------

  predicate Expired(m: Message, now: Tick)
  {
    m.deadline != 0 && m.deadline < now
  }

  /**
   * DoTimeouts.  The successor is saved before the callback runs, so messages that
   * the callback of the last entry appends are left for the next call.
   */
  function TimeoutWalk(t: State, i: nat, now: Tick): (t': State)
    requires i <= |t.waiting|
    decreases |t.waiting| - i + Backlog(t.user)
  {
    if i == |t.waiting| then t
    else if !Expired(t.waiting[i], now) then TimeoutWalk(t, i + 1, now)
    else
      var t' := Finish(Unqueue(t, i), t.waiting[i], MessageTimeout);
      if i + 1 == |t.waiting| then t' else TimeoutWalk(t', i, now)
  }

  /** What publish_mqtt_telemetry_msg does: it fails, or the clock is read and the publish succeeds. */
  datatype Outcome = Refused | Published(at: Tick)

  /** One in-flight entry is inspected: the clock reading, and how a resend would go. */
  datatype Visit = Visit(now: Tick, outcome: Outcome)

  predicate Overdue(now: Tick, since: Tick)
  {
    Seconds(now, since) > RESEND_TIMEOUT_SECONDS
  }

  function Republish(t: State, i: nat, at: Tick, connected: bool): (t': State)
    requires i < |t.inFlight|
  {
    var e := t.inFlight[i];
    t.(inFlight := t.inFlight[i := e.(publishedAt := at, retryCount := e.retryCount + 1)],
       sends := t.sends + [Publication(e.message.id, e.packetId, at, false, connected)])
  }

  /** The first loop of a publishing DoWork; `visit` is keyed by message id. */
  function ResendWalk(t: State, i: nat, visit: nat -> Visit, connected: bool): (t': State)
    requires i <= |t.inFlight|
    decreases |t.inFlight| - i
  {
    if i == |t.inFlight| then t
    else
      var e := t.inFlight[i];
      var v := visit(e.message.id);
      if !Overdue(v.now, e.publishedAt) then ResendWalk(t, i + 1, visit, connected)
      else if e.retryCount >= MAX_SEND_COUNT then
        ResendWalk(Finish(Land(t, i), e.message, MessageTimeout), i, visit, connected)
      else if e.message.payload == [] then ResendWalk(t, i + 1, visit, connected)
      else match v.outcome
        case Refused => ResendWalk(Finish(Land(t, i), e.message, Error), i, visit, connected)
        case Published(at) => ResendWalk(Republish(t, i, at, connected), i + 1, visit, connected)
  }

  /** The first publication of a waiting message; `NoMemory` leaves it waiting. */
  datatype FirstOutcome = NoMemory | Attempted(outcome: Outcome)

  function TakeId(t: State): (t': State)
  {
    t.(ids := PacketIds.Next(t.ids))
  }

  function Launch(t: State, i: nat, at: Tick, connected: bool): (t': State)
    requires i < |t.waiting|
  {
    var m := t.waiting[i];
    t.(waiting := RemoveAt(t.waiting, i),
       inFlight := t.inFlight + [Entry(m, t.ids.current, t.ids.issued, at, 1)],
       sends := t.sends + [Publication(m.id, t.ids.current, at, true, connected)])
  }

  /** The second loop of a publishing DoWork. */
  function PublishWalk(t: State, i: nat, first: nat -> FirstOutcome, connected: bool): (t': State)
    requires i <= |t.waiting|
    decreases |t.waiting| - i + Backlog(t.user)
  {
    if i == |t.waiting| then t
    else
      var m := t.waiting[i];
      if m.payload == [] || first(m.id).NoMemory? then PublishWalk(t, i + 1, first, connected)
      else match first(m.id).outcome
        case Refused =>
          var t' := Finish(Unqueue(TakeId(t), i), m, Error);
          if i + 1 == |t.waiting| then t' else PublishWalk(t', i, first, connected)
        case Published(at) => PublishWalk(Launch(TakeId(t), i, at, connected), i, first, connected)
  }

  /** A PUBACK or PUBCOMP for packet `pid`: every matching entry is confirmed. */
  function AckWalk(t: State, i: nat, pid: nat): (t': State)
    requires i <= |t.inFlight|
    decreases |t.inFlight| - i
  {
    if i == |t.inFlight| then t
    else if t.inFlight[i].packetId != pid then AckWalk(t, i + 1, pid)
    else AckWalk(Finish(Land(t, i), t.inFlight[i].message, Ok), i, pid)
  }

  /** The transport's Destroy empties the in-flight list. */
  function DrainFlight(t: State): (t': State)
    decreases |t.inFlight|
  {
    if t.inFlight == [] then t
    else DrainFlight(Finish(Land(t, 0), t.inFlight[0].message, BecauseDestroy))
  }

  /** The client's Destroy empties the wait list, including what callbacks append meanwhile. */
  function DrainWaiting(t: State): (t': State)
    decreases |t.waiting| + Backlog(t.user)
  {
    if t.waiting == [] then t
    else DrainWaiting(Finish(Unqueue(t, 0), t.waiting[0], BecauseDestroy))
  }
}
