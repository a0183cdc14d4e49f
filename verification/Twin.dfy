/**
 * Reported-state queues: the client's `iot_msg_queue` and `iot_ack_queue`, and the
 * MQTT transport's `ack_waiting_queue`, which names reports only by their 32-bit id.
 */
module Twin {
  import opened Lists
  import PacketIds

  const STATUS_CODE_TIMEOUT: int := 408

  /** One IOTHUB_DEVICE_TWIN record; `serial` is its place in the order of submission, `draw` that of its id draw. */
  datatype Report = Report(serial: nat, draw: nat, id: nat, notify: bool)

  datatype Kind = ReportedState | RetrieveProperties

  /** One MQTT_DEVICE_TWIN_ITEM record. A retrieve request carries report id zero. */
  datatype Item = Item(packetId: nat, reportId: nat, kind: Kind)

  /** A report taken off the acknowledgement queue, with the status handed to its callback. */
  datatype Answer = Answer(report: Report, status: int)

  datatype Sent = Sent(report: Report, packetId: nat, connected: bool)

  datatype State = State(
    queue: seq<Report>, acks: seq<Report>, awaiting: seq<Item>, lastId: nat, drawn: nat,
    submitted: seq<Report>, answered: seq<Answer>, dropped: seq<Report>, sent: seq<Sent>)

  const START := State([], [], [], 1, 0, [], [], [], [])

  /** IoTHubClient_LL_SendReportedState; an id is drawn even when the report is then refused. */
  function Enqueue(w: State, notify: bool, accepted: bool): (w': State)
  {
    var id := PacketIds.Advance(w.lastId, PacketIds.UINT32_MAX);
    var r := Report(|w.submitted|, w.drawn + 1, id, notify);
    if accepted then w.(lastId := id, drawn := w.drawn + 1, queue := w.queue + [r], submitted := w.submitted + [r])
    else w.(lastId := id, drawn := w.drawn + 1)
  }

  datatype Outcome = NoMemory | Refused | Accepted

  datatype Stage = Stage(twin: State, ids: PacketIds.Counter)

  /** ProcessItem in the publishing state, followed by the client's queue move. */
  function ProcessOne(s: Stage, o: Outcome, connected: bool): (s': Stage)
    requires s.twin.queue != []
  {
    var w := s.twin;
    var r := w.queue[0];
    var ids := PacketIds.Next(s.ids);
    match o
    case NoMemory => Stage(w.(queue := w.queue[1..], dropped := w.dropped + [r]), s.ids)
    case Refused => Stage(w.(queue := w.queue[1..], dropped := w.dropped + [r]), ids)
    case Accepted =>
      Stage(w.(queue := w.queue[1..], acks := w.acks + [r],
               awaiting := w.awaiting + [Item(ids.current, r.id, ReportedState)],
               sent := w.sent + [Sent(r, ids.current, connected)]), ids)
  }

  /** The queue loop of IoTHubClient_LL_DoWork while the transport publishes; keyed by report serial. */
  function ProcessWalk(s: Stage, outcome: nat -> Outcome, connected: bool): (s': Stage)
    decreases |s.twin.queue|
  {
    if s.twin.queue == [] then s
    else ProcessWalk(ProcessOne(s, outcome(s.twin.queue[0].serial), connected), outcome, connected)
  }

  /** publish_device_twin_get_message */
  function Retrieve(s: Stage, o: Outcome): (s': Stage)
  {
    var ids := PacketIds.Next(s.ids);
    match o
    case NoMemory => s
    case Refused => s.(ids := ids)
    case Accepted => Stage(s.twin.(awaiting := s.twin.awaiting + [Item(ids.current, 0, RetrieveProperties)]), ids)
  }

  function FindItem(items: seq<Item>, packetId: nat, i: nat): (k: nat)
    requires i <= |items|
    ensures i <= k <= |items|
    ensures k < |items| ==> items[k].packetId == packetId
    ensures forall j :: i <= j < k ==> items[j].packetId != packetId
    decreases |items| - i
  {
    if i == |items| || items[i].packetId == packetId then i else FindItem(items, packetId, i + 1)
  }

  function FindReport(reports: seq<Report>, id: nat, i: nat): (k: nat)
    requires i <= |reports|
    ensures i <= k <= |reports|
    ensures k < |reports| ==> reports[k].id == id
    ensures forall j :: i <= j < k ==> reports[j].id != id
    decreases |reports| - i
  {
    if i == |reports| || reports[i].id == id then i else FindReport(reports, id, i + 1)
  }

  /** IoTHubClient_LL_ReportedStateComplete: the first report with that id is answered. */
  function Complete(w: State, id: nat, status: int): (w': State)
  {
    var k := FindReport(w.acks, id, 0);
    if k == |w.acks| then w
    else w.(acks := RemoveAt(w.acks, k), answered := w.answered + [Answer(w.acks[k], status)])
  }

  /** A twin response topic: the first item with that request id is taken off the transport's queue. */
  function Respond(w: State, requestId: nat, status: int): (w': State)
  {
    var k := FindItem(w.awaiting, requestId, 0);
    if k == |w.awaiting| then w
    else
      var w' := w.(awaiting := RemoveAt(w.awaiting, k));
      if w.awaiting[k].kind == RetrieveProperties then w' else Complete(w', w.awaiting[k].reportId, status)
  }

  /** The transport's Destroy answers everything it still waits for. */
  function DrainAwaiting(w: State): (w': State)
    decreases |w.awaiting|
  {
    if w.awaiting == [] then w
    else DrainAwaiting(Complete(w.(awaiting := w.awaiting[1..]), w.awaiting[0].reportId, STATUS_CODE_TIMEOUT))
  }

  /** A confirmation callback ran exactly when a report that asked for one was answered. */
  predicate CalledBack(w: State, w': State)
  {
    |w'.answered| > |w.answered| && w'.answered[|w'.answered| - 1].report.notify
  }

  // ---------------------------------------------------------------------------
  // Laws
  // ---------------------------------------------------------------------------

  function ReportIds(items: seq<Item>): (ids: seq<nat>)
  {
    if items == [] then []
    else ReportIds(items[..|items| - 1]) +
         (if items[|items| - 1].kind == ReportedState then [items[|items| - 1].reportId] else [])
  }

  function Ids(reports: seq<Report>): (ids: seq<nat>)
    ensures |ids| == |reports|
    ensures forall k :: 0 <= k < |reports| ==> ids[k] == reports[k].id
  {
    seq(|reports|, k requires 0 <= k < |reports| => reports[k].id)
  }

  function Reports(answers: seq<Answer>): (reports: seq<Report>)
    ensures |reports| == |answers|
    ensures forall k :: 0 <= k < |answers| ==> reports[k] == answers[k].report
  {
    seq(|answers|, k requires 0 <= k < |answers| => answers[k].report)
  }

  /** The two layers agree on which report ids are unanswered. */
  ghost predicate Matched(w: State)
  {
    multiset(ReportIds(w.awaiting)) == multiset(Ids(w.acks))
  }

  ghost predicate Conserved(w: State)
  {
    multiset(w.queue) + multiset(w.acks) + multiset(Reports(w.answered)) + multiset(w.dropped) == multiset(w.submitted)
  }

  ghost predicate Shaped(w: State)
  {
    && 0 < w.lastId < PacketIds.UINT32_MAX
    && (forall k :: 0 <= k < |w.submitted| ==> w.submitted[k].serial == k)
    && (forall k :: 0 <= k < |w.queue| ==> 0 < w.queue[k].id < PacketIds.UINT32_MAX)
    && (forall k :: 0 <= k < |w.acks| ==> 0 < w.acks[k].id < PacketIds.UINT32_MAX)
    && (forall k :: 0 <= k < |w.awaiting| ==>
          (w.awaiting[k].kind == RetrieveProperties <==> w.awaiting[k].reportId == 0))
    && (forall k :: 0 <= k < |w.sent| ==> w.sent[k].connected)
  }

  /** Published reports are exactly those answered or still unanswered. */
  ghost predicate Published(w: State)
  {
    multiset(Payloads(w.sent)) == multiset(w.acks) + multiset(Reports(w.answered))
  }

  function Payloads(sent: seq<Sent>): (reports: seq<Report>)
    ensures |reports| == |sent|
    ensures forall k :: 0 <= k < |sent| ==> reports[k] == sent[k].report
  {
    seq(|sent|, k requires 0 <= k < |sent| => sent[k].report)
  }

  ghost predicate Good(w: State)
  {
    Matched(w) && Conserved(w) && Shaped(w) && Published(w)
  }

  lemma {:induction false} ReportIdsConcat(a: seq<Item>, b: seq<Item>)
    ensures ReportIds(a + b) == ReportIds(a) + ReportIds(b)
  {
    if b == [] {
      assert a + b == a;
    } else {
      ReportIdsConcat(a, b[..|b| - 1]);
      assert (a + b)[..|a + b| - 1] == a + b[..|b| - 1];
    }
  }

  lemma ReportIdsThree(front: seq<Item>, item: Item, back: seq<Item>)
    ensures ReportIds(front + [item] + back) == ReportIds(front) + ReportIds([item]) + ReportIds(back)
    ensures ReportIds(front + back) == ReportIds(front) + ReportIds(back)
  {
    hide ReportIds;
    ReportIdsConcat(front + [item], back);
    ReportIdsConcat(front, [item]);
    ReportIdsConcat(front, back);
  }

  lemma ReportIdsRemoveAt(items: seq<Item>, k: nat)
    requires k < |items|
    ensures multiset(ReportIds(items)) ==
            multiset(ReportIds(RemoveAt(items, k))) +
            (if items[k].kind == ReportedState then multiset{items[k].reportId} else multiset{})
  {
    ReportIdsOne(items[k]);
    var front, item, back := items[..k], items[k], items[k + 1..];
    SplitAt(items, k);
    hide ReportIds, RemoveAt;
    ReportIdsThree(front, item, back);
    MultisetMiddle(ReportIds(front), ReportIds([item]), ReportIds(back));
  }

  lemma ReportIdsOne(item: Item)
    ensures ReportIds([item]) == if item.kind == ReportedState then [item.reportId] else []
  {
    assert [item][..0] == [];
  }

  lemma EnqueueKeeps(w: State, notify: bool, accepted: bool)
    requires Good(w)
    ensures Good(Enqueue(w, notify, accepted))
  {
  }

  lemma ProcessOneBalances(s: Stage, o: Outcome)
    requires Good(s.twin) && s.twin.queue != []
    ensures Conserved(ProcessOne(s, o, true).twin) && Published(ProcessOne(s, o, true).twin)
  {
    var w, w' := s.twin, ProcessOne(s, o, true).twin;
    assert w.queue == [w.queue[0]] + w.queue[1..];
    if o == Accepted {
      assert Payloads(w'.sent) == Payloads(w.sent) + [w.queue[0]];
    }
  }

  lemma ProcessOneMatches(s: Stage, o: Outcome)
    requires Good(s.twin) && s.twin.queue != []
    ensures Matched(ProcessOne(s, o, true).twin)
  {
    var w, w' := s.twin, ProcessOne(s, o, true).twin;
    if o == Accepted {
      assert Ids(w'.acks) == Ids(w.acks) + [w.queue[0].id];
      assert w'.awaiting[..|w.awaiting|] == w.awaiting;
    }
  }

  lemma ProcessOneKeeps(s: Stage, o: Outcome)
    requires Good(s.twin) && s.twin.queue != [] && PacketIds.Consistent(s.ids)
    ensures Good(ProcessOne(s, o, true).twin) && PacketIds.Consistent(ProcessOne(s, o, true).ids)
    ensures s.ids.issued <= ProcessOne(s, o, true).ids.issued
  {
    hide Matched, Conserved, Published;
    PacketIds.NextConsistent(s.ids);
    ProcessOneBalances(s, o);
    ProcessOneMatches(s, o);
  }

  lemma {:induction false} ProcessKeeps(s: Stage, outcome: nat -> Outcome)
    requires Good(s.twin) && PacketIds.Consistent(s.ids)
    ensures Good(ProcessWalk(s, outcome, true).twin) && PacketIds.Consistent(ProcessWalk(s, outcome, true).ids)
    ensures s.ids.issued <= ProcessWalk(s, outcome, true).ids.issued
    ensures ProcessWalk(s, outcome, true).twin.queue == []
    decreases |s.twin.queue|
  {
    hide Good, PacketIds.Consistent;
    if s.twin.queue != [] {
      ProcessOneKeeps(s, outcome(s.twin.queue[0].serial));
      ProcessKeeps(ProcessOne(s, outcome(s.twin.queue[0].serial), true), outcome);
    }
  }

  /** What only SendReportedState changes. */
  function Counters(w: State): (c: (seq<Report>, nat, nat))
  {
    (w.submitted, w.lastId, w.drawn)
  }

  /** Every draw gives the next id of the closed form, and a submitted report carries the id of its own draw. */
  ghost predicate Numbered(w: State)
  {
    && w.lastId == PacketIds.ItemIdOf(w.drawn)
    && (forall k :: 0 <= k < |w.submitted| ==>
          w.submitted[k].id == PacketIds.ItemIdOf(w.submitted[k].draw) && w.submitted[k].draw <= w.drawn)
    && (forall j, k :: 0 <= j < k < |w.submitted| ==> w.submitted[j].draw < w.submitted[k].draw)
  }

  lemma EnqueueNumbered(w: State, notify: bool, accepted: bool)
    requires Numbered(w)
    ensures Numbered(Enqueue(w, notify, accepted))
  {
    PacketIds.NextItem(w.drawn);
  }

  /** The reports whose publication is accepted, or the others, in order. */
  function Chosen(reports: seq<Report>, outcome: nat -> Outcome, accepted: bool): (chosen: seq<Report>)
  {
    if reports == [] then []
    else (if (outcome(reports[0].serial) == Accepted) == accepted then [reports[0]] else []) +
         Chosen(reports[1..], outcome, accepted)
  }

  lemma {:induction false} ChosenMember(reports: seq<Report>, outcome: nat -> Outcome, accepted: bool, r: Report)
    ensures r in Chosen(reports, outcome, accepted) <==>
            r in reports && (outcome(r.serial) == Accepted) == accepted
  {
    if reports != [] {
      ChosenMember(reports[1..], outcome, accepted, r);
      assert reports == [reports[0]] + reports[1..];
    }
  }

  /**
   * The report loop publishes every queued report whose publication is accepted, in order, and
   * moves it to the acknowledgement queue; it drops every other one; and it answers none.
   */
  lemma {:induction false} ProcessDecides(s: Stage, outcome: nat -> Outcome, connected: bool)
    ensures
      var w, w' := s.twin, ProcessWalk(s, outcome, connected).twin;
      && w'.queue == []
      && w'.acks == w.acks + Chosen(w.queue, outcome, true)
      && Payloads(w'.sent) == Payloads(w.sent) + Chosen(w.queue, outcome, true)
      && w'.dropped == w.dropped + Chosen(w.queue, outcome, false)
      && w'.answered == w.answered && Counters(w') == Counters(w)
    decreases |s.twin.queue|
  {
    if s.twin.queue != [] {
      var w, r := s.twin, s.twin.queue[0];
      var o := outcome(r.serial);
      var s1 := ProcessOne(s, o, connected);
      var yes, no := Chosen(w.queue[1..], outcome, true), Chosen(w.queue[1..], outcome, false);
      ProcessDecides(s1, outcome, connected);
      ProcessOneShape(s, o, connected);
      hide ProcessOne;
      Associative(w.acks, if o == Accepted then [r] else [], yes);
      Associative(Payloads(w.sent), if o == Accepted then [r] else [], yes);
      Associative(w.dropped, if o == Accepted then [] else [r], no);
    }
  }

  lemma ProcessOneShape(s: Stage, o: Outcome, connected: bool)
    requires s.twin.queue != []
    ensures
      var w, w' := s.twin, ProcessOne(s, o, connected).twin;
      && w'.queue == w.queue[1..]
      && w'.acks == w.acks + (if o == Accepted then [w.queue[0]] else [])
      && Payloads(w'.sent) == Payloads(w.sent) + (if o == Accepted then [w.queue[0]] else [])
      && w'.dropped == w.dropped + (if o == Accepted then [] else [w.queue[0]])
      && w'.answered == w.answered && Counters(w') == Counters(w)
  {
  }

  lemma RetrieveKeeps(s: Stage, o: Outcome)
    requires Good(s.twin) && PacketIds.Consistent(s.ids)
    ensures Good(Retrieve(s, o).twin) && PacketIds.Consistent(Retrieve(s, o).ids)
    ensures s.ids.issued <= Retrieve(s, o).ids.issued
  {
    PacketIds.NextConsistent(s.ids);
    var w, w' := s.twin, Retrieve(s, o).twin;
    if o == Accepted {
      assert w'.awaiting[..|w.awaiting|] == w.awaiting;
    }
  }

  lemma MultisetCancel<T>(a: multiset<T>, b: multiset<T>, x: T)
    requires a + multiset{x} == b + multiset{x}
    ensures a == b
  {
    assert (a + multiset{x}) - multiset{x} == a;
    assert (b + multiset{x}) - multiset{x} == b;
  }

  /** An item of the transport's queue always finds its report in the client's. */
  lemma ItemHasReport(w: State, k: nat)
    requires Good(w) && k < |w.awaiting| && w.awaiting[k].kind == ReportedState
    ensures FindReport(w.acks, w.awaiting[k].reportId, 0) < |w.acks|
  {
    hide ReportIds;
    ReportIdsRemoveAt(w.awaiting, k);
    assert w.awaiting[k].reportId in multiset(Ids(w.acks));
    assert w.awaiting[k].reportId in Ids(w.acks);
  }

  lemma CompleteMatches(w: State, k: nat, status: int)
    requires Good(w) && k < |w.awaiting| && w.awaiting[k].kind == ReportedState
    ensures Matched(Complete(w.(awaiting := RemoveAt(w.awaiting, k)), w.awaiting[k].reportId, status))
  {
    hide ReportIds;
    ItemHasReport(w, k);
    ReportIdsRemoveAt(w.awaiting, k);
    var j := FindReport(w.acks, w.awaiting[k].reportId, 0);
    RemoveAtMultiset(Ids(w.acks), j);
    assert Ids(RemoveAt(w.acks, j)) == RemoveAt(Ids(w.acks), j);
    MultisetCancel(multiset(ReportIds(RemoveAt(w.awaiting, k))), multiset(RemoveAt(Ids(w.acks), j)),
        w.awaiting[k].reportId);
  }

  lemma CompleteBalances(w: State, rest: seq<Item>, id: nat, status: int)
    requires Conserved(w) && Published(w)
    ensures
      var w' := Complete(w.(awaiting := rest), id, status);
      Conserved(w') && Published(w')
  {
    var j := FindReport(w.acks, id, 0);
    if j < |w.acks| {
      RemoveAtMultiset(w.acks, j);
      assert Reports(w.answered + [Answer(w.acks[j], status)]) == Reports(w.answered) + [w.acks[j]];
    }
  }

  lemma CompleteShaped(w: State, k: nat, id: nat, status: int)
    requires Shaped(w) && k < |w.awaiting|
    ensures Shaped(Complete(w.(awaiting := RemoveAt(w.awaiting, k)), id, status))
  {
  }

  /** Taking a report's item off the transport's queue and completing it keeps the two layers in step. */
  lemma ReportedKeeps(w: State, k: nat, status: int)
    requires Good(w) && k < |w.awaiting| && w.awaiting[k].kind == ReportedState
    ensures
      var w' := Complete(w.(awaiting := RemoveAt(w.awaiting, k)), w.awaiting[k].reportId, status);
      && Good(w') && w'.queue == w.queue && |w'.awaiting| == |w.awaiting| - 1
      && |w'.answered| == |w.answered| + 1
  {
    hide Matched, Shaped, Conserved, Published;
    CompleteMatches(w, k, status);
    ItemHasReport(w, k);
    CompleteBalances(w, RemoveAt(w.awaiting, k), w.awaiting[k].reportId, status);
    CompleteShaped(w, k, w.awaiting[k].reportId, status);
  }

  /** Report ids are never zero, so completing a retrieve request answers no report. */
  lemma RetrievedKeeps(w: State, k: nat, status: int)
    requires Good(w) && k < |w.awaiting| && w.awaiting[k].kind == RetrieveProperties
    ensures Good(w.(awaiting := RemoveAt(w.awaiting, k)))
    ensures Complete(w.(awaiting := RemoveAt(w.awaiting, k)), w.awaiting[k].reportId, status)
            == w.(awaiting := RemoveAt(w.awaiting, k))
  {
    hide ReportIds;
    ReportIdsRemoveAt(w.awaiting, k);
  }

  lemma RespondKeeps(w: State, requestId: nat, status: int)
    requires Good(w)
    ensures Good(Respond(w, requestId, status)) && Respond(w, requestId, status).queue == w.queue
  {
    hide Good, Complete;
    var k := FindItem(w.awaiting, requestId, 0);
    if k < |w.awaiting| {
      if w.awaiting[k].kind == ReportedState { ReportedKeeps(w, k, status); } else { RetrievedKeeps(w, k, status); }
    }
  }

  /** A response to a published report answers a report of that id, with the status received, and nothing else. */
  lemma RespondAnswers(w: State, requestId: nat, status: int)
    requires Good(w)
    requires
      var k := FindItem(w.awaiting, requestId, 0);
      k < |w.awaiting| && w.awaiting[k].kind == ReportedState
    ensures
      var item, w' := w.awaiting[FindItem(w.awaiting, requestId, 0)], Respond(w, requestId, status);
      && item.packetId == requestId
      && exists r :: r in w.acks && r.id == item.reportId && w'.answered == w.answered + [Answer(r, status)]
                     && multiset(w'.acks) == multiset(w.acks) - multiset{r}
  {
    hide Good;
    var k := FindItem(w.awaiting, requestId, 0);
    ItemHasReport(w, k);
    var j := FindReport(w.acks, w.awaiting[k].reportId, 0);
    RemoveAtMultiset(w.acks, j);
    assert w.acks[j] in w.acks;
  }

  /** The response to a twin GET takes its item off the queue and touches no report. */
  lemma RespondRetrieves(w: State, requestId: nat, status: int)
    requires
      var k := FindItem(w.awaiting, requestId, 0);
      k < |w.awaiting| && w.awaiting[k].kind == RetrieveProperties
    ensures
      var k := FindItem(w.awaiting, requestId, 0);
      Respond(w, requestId, status) == w.(awaiting := w.awaiting[..k] + w.awaiting[k + 1..])
  {
  }

  lemma {:induction false} DrainKeeps(w: State)
    requires Good(w)
    ensures Good(DrainAwaiting(w)) && DrainAwaiting(w).awaiting == [] && DrainAwaiting(w).acks == []
    ensures DrainAwaiting(w).queue == w.queue
    decreases |w.awaiting|
  {
    if w.awaiting == [] {
      assert multiset(Ids(w.acks)) == multiset{};
      assert |Ids(w.acks)| == |multiset(Ids(w.acks))|;
    } else {
      hide Good, Complete;
      if w.awaiting[0].kind == ReportedState {
        ReportedKeeps(w, 0, STATUS_CODE_TIMEOUT);
      } else {
        RetrievedKeeps(w, 0, STATUS_CODE_TIMEOUT);
      }
      assert RemoveAt(w.awaiting, 0) == w.awaiting[1..];
      DrainKeeps(Complete(w.(awaiting := w.awaiting[1..]), w.awaiting[0].reportId, STATUS_CODE_TIMEOUT));
    }
  }
}
