# Azure IoT device client for C: a verified model

This project models the stateful core of the C device client and proves what holds over
every run of it. Six components are covered.

- **Low-level client and MQTT transport** (`Telemetry`, `Twin`, `Connection`, `MqttDevice`,
  with the laws in `TelemetryLaws`, `Results`, `MqttRuns`, `MqttTheorems` and `MqttSteps`). Messages and twin reports
  move between queues of two layers; retries, packet ids, the subscription mask, reconnects
  and Destroy act on them. `MqttHandle.Device` is the mutable object with the program's
  loops; each of its methods is proved equal to a step of the state machine, and
  `MqttHandle.Device.Run` ties any sequence of calls to the runs the theorems speak about.
  The other objects (`AmqpHandles.Authentication`, `AmqpHandles.Transport`,
  `AmqpMethods.Methods`, `SharedWorker.SharedTransport`) have a `Run` of the same kind.
  `MqttProperties` covers message properties in topics.
- **AMQP transport and authentication** (`AmqpTransport`, `AmqpAuth`, `AmqpLaws`, `AmqpSteps`,
  and the objects in `AmqpHandles`): several devices, their wait and in-progress lists, rollback, and
  the token state machine with its unsigned time arithmetic.
- **AMQP method requests** (`AmqpMethods`): the in-place array of handles and who frees them.
- **Block-blob upload and its notification** (`BlockIds`, `Blob`, `BlobStorage`,
  `UploadNotification`).
- **Threaded client** (`ClientThreads`, `ClientProgress`): every interleaving of API, worker,
  upload threads, garbage collector and Destroy, and why none of them gets stuck.
- **Shared transport worker** (`SharedWorker`).

## How to read it

A run is a start state and a sequence of operations. What the network, the clock and the
allocator answer is part of each operation, so a statement about every sequence of operations
is a statement about every behaviour of the environment. The state also carries a history
(accepted, confirmed, published, freed), which the program does not store and which the
theorems are about. `dafny verify dfyconfig.toml` checks everything.

Assumptions, all about code that is not modelled:

- MQTT and AMQP library callbacks arrive between API calls, as separate operations; a
  destroyed sender or CBS instance never calls back, and `messagesender_send` calls back only
  if it returned success.
- Application callbacks may submit messages and do nothing else re-entrant. What they submit
  is a finite script consumed callback by callback, so that every finite behaviour is covered.
- The clock is monotone where a theorem says so; the token theorem holds for any clock.
- In the threaded client, locks and joins succeed once they are possible, upload callbacks do
  not take the client lock, and no API call is made once Destroy has begun.
- `size_t` and a signed `time_t` are 64 bits wide, and the time is not before the epoch; tick
  counters are 64-bit and wrap.
- Put and delete callbacks for a device that is no longer registered are ignored. On a shared
  transport the CBS instance outlives the authentication it was given as context, so this
  assumes that no such callback is outstanding when a device is unregistered.
- The tokenizer splits on the separator and skips empty tokens.
- An MQTT transport always belongs to one client: without a device id in its configuration,
  as on a shared transport, its creation fails.
- A method handle is named by its allocation, so a reused address counts as a new handle, and
  the handle array is never as long as `SIZE_MAX`.
- Operations on a destroyed client leave the state unchanged.

Where code and comments disagree, the code is followed. Block numbers are printed with `%6u`,
which pads with spaces, although the comments say `000000`. The in-flight resend interval is
60 seconds although its name says minutes. `IoTHubTransportAMQP_DoWork` confirms an event that
cannot be encoded as failed, although the comment beside it speaks of a rollback.

Five promises turn out false of the code. Each has a concrete counterexample and the exact
condition under which it holds:

- a pending subscription bit may lose its topic (`Connection.StuckMask`,
  `MqttTheorems.MaskBackedExactly`);
- a message may expire before its timeout, because the deadline wraps
  (`TelemetryLaws.ExpiresAtOnce`, `TelemetryLaws.ExpiresOnTimeExactly`);
- a token put may not time out, because the elapsed milliseconds wrap
  (`AmqpAuth.TimeoutWraps`, `AmqpAuth.TimesOutExactly`);
- a method handle may be freed twice (`AmqpMethods.DoubleFreeExample`,
  `AmqpMethods.ReceiveSound`);
- clients of a shared transport may be without a worker
  (`SharedWorker.StartBetweenSignalAndJoin`, `SharedWorker.StartServed`).

## Model

| member | source | states |
|---|---|---|
| `MqttTheorems.MessageInOnePlace` | c/iothub_client/src/iothubtransport_mqtt_common.c:2012-2095 | in every run of client and MQTT transport each accepted message is in exactly one of waiting, in flight or confirmed, and there once; so it is confirmed at most once |
| `MqttTheorems.DestroyConfirmsAll` | c/iothub_client/src/iothub_client_ll.c:682-707 | once Destroy has run, the confirmed messages are exactly the accepted ones, each confirmed once |
| `MqttTheorems.IdleWhenNoneOutstanding` | c/iothub_client/src/iothubtransport_mqtt_common.c:2103-2129 | GetSendStatus says IDLE exactly when every accepted message is confirmed, in every run |
| `MqttTheorems.FirstPublicationsInOrder` | c/iothub_client/src/iothubtransport_mqtt_common.c:2053-2095 | without an allocation failure while publishing, in every run in flight followed by waiting-with-payload is in acceptance order, and so are first publications |
| `MqttTheorems.PublishesOnlyConnected` | c/iothub_client/src/iothubtransport_mqtt_common.c:1974-2010 | PUBLISH implies connected in every reachable state, and no telemetry message and no twin report was ever published while disconnected |
| `MqttTheorems.PublishedAtMostTwice` | c/iothub_client/src/iothubtransport_mqtt_common.c:2012-2051 | with a working monotone clock a message is published at most twice, at least 61000 ms apart, and an in-flight retry count of one or two equals the number of publications |
| `MqttTheorems.TimedOutExactly` | c/iothub_client/src/iothubtransport_mqtt_common.c:2019-2032 | in every run, a DoWork that publishes confirms an in-flight entry as timed out exactly when it was published twice and is found more than 60 whole seconds old |
| `MqttTheorems.PubAckConfirmsOne` | c/iothub_client/src/iothubtransport_mqtt_common.c:902-923 | while no in-flight message has outlived 65533 later allocations, a PUBACK confirms the message published under its id and no other, and an unknown id confirms nothing |
| `MqttTheorems.PacketIdsInRange` | c/iothub_client/src/iothubtransport_mqtt_common.c:212-223 | in every run packet ids are in 1..65534 and an in-flight entry carries the id of its own allocation |
| `MqttTheorems.LayersAgree` | c/iothub_client/src/iothubtransport_mqtt_common.c:1911-1971 | between steps the report ids in the transport's ack_waiting_queue and in the client's iot_ack_queue are the same multiset |
| `MqttTheorems.ReportInOnePlace` | c/iothub_client/src/iothub_client_ll.c:899-931 | a submitted report is queued, awaiting its answer, answered or dropped, exactly one of these and once; it was published exactly if it is awaiting or answered |
| `MqttTheorems.DestroyAnswersAll` | c/iothub_client/src/iothubtransport_mqtt_common.c:1641-1647 | Destroy answers every published and unanswered report with 408, the client's final drain finds an empty acknowledgement queue, and afterwards exactly the published reports are answered |
| `MqttTheorems.MaskBacked` | c/iothub_client/src/iothubtransport_mqtt_common.c:1046-1108 | as long as no Subscribe fails to rebuild a topic that is still pending, every pending bit has its topic, every topic is pending or was handed over since the last reset, and a non-zero mask sends one to four filters and success clears it |
| `MqttTheorems.MaskBackedExactly` | c/iothub_client/src/iothubtransport_mqtt_common.c:1852-1886 | and that condition is exact: the mask is backed at every point of a run if and only if every Subscribe of the run meets it |
| `MqttTheorems.AttemptsThrottled` | c/iothub_client/src/iothubtransport_mqtt_common.c:1254-1304 | with a working monotone clock, after more than five failures in a row connect attempts are at least 31000 ms apart until one succeeds, so w ms hold at most w/31000 + 1 of them |
| `MqttSteps.ConfirmedBecause` | c/iothub_client/src/iothub_client_ll.c:960-988 | in every run each confirmation was made by an operation that gives its result: OK by a PUBACK, a time-out or an error by a DoWork, BECAUSE_DESTROY by Destroy |
| `MqttSteps.OkOnlyByPubAck` | c/iothub_client/src/iothubtransport_mqtt_common.c:902-923 | a message is confirmed as delivered only by a PUBACK, and it was then in flight under the packet id the PUBACK carries |
| `MqttSteps.DestroyTells` | c/iothub_client/src/iothub_client_ll.c:694-707 | Destroy keeps the confirmations made before it and gives every other one as BECAUSE_DESTROY |
| `MqttSteps.WorkReports` | c/iothub_client/src/iothub_client_ll.c:899-931 | a DoWork that finds the transport publishing publishes every queued report whose publication is accepted, in order, and drops the others; in any other state it leaves the reports alone |
| `MqttSteps.WorkTimeouts` | c/iothub_client/src/iothub_client_ll.c:857-889 | a DoWork confirms a waiting message as timed out exactly when its clock reading succeeds and finds it expired |
| `MqttSteps.WorkPublishes` | c/iothub_client/src/iothubtransport_mqtt_common.c:2053-2095 | a DoWork that publishes takes every unexpired waiting message as its payload and outcome say: it stays, is confirmed as failed, or is in flight |
| `MqttSteps.WorkRetrieves` | c/iothub_client/src/iothubtransport_mqtt_common.c:1992-2009 | the DoWork after a SUBACK asks for the twin, once, if a twin topic exists, and awaits the answer under a packet id of its own |
| `MqttSteps.ResponseCallsBack` | c/iothub_client/src/iothub_client_ll.c:1057-1089 | a twin response answers at most one report, with the status received, and runs the callback exactly if that report asked for one |
| `MqttSteps.SendEventAppends` | c/iothub_client/src/iothub_client_ll.c:758-813 | a request is accepted exactly if valid and the resources are there; the appended record carries its payload, its callback and the deadline of the last timeout set |
| `MqttSteps.SendReportQueues` | c/iothub_client/src/iothub_client_ll.c:1321-1362 | a report is queued, last, exactly if its memory and both twin topics can be had |
| `MqttSteps.ReportIdsDistinct` | c/iothub_client/src/iothub_client_ll.c:76-87 | two reports whose ids were drawn less than 4294967294 draws apart have different ids, in every run |
| `MqttSteps.LinkLost` | c/iothub_client/src/iothubtransport_mqtt_common.c:930-1044 | a refused CONNACK, a disconnect, an error, a changed keep-alive or Destroy leaves the transport unconnected and not publishing, and an error makes every topic pending again |
| `MqttSteps.SubscribingAdds` | c/iothub_client/src/iothubtransport_mqtt_common.c:1679-1886 | subscribing, when memory suffices, makes the topics exist and the new ones pending |
| `MqttSteps.UnsubscribingDrops` | c/iothub_client/src/iothubtransport_mqtt_common.c:1742-1909 | unsubscribing drops the topics and their bits |
| `MqttSteps.StandsUntilRefresh` | c/iothub_client/src/iothubtransport_mqtt_common.c:1306-1340 | a connection made at t stands until 2881 s later, in every run without a loss of it |
| `MqttSteps.ConnectsToPublish` | c/iothub_client/src/iothubtransport_mqtt_common.c:1974-2009 | after CONNECT, an accepted CONNACK, a SUBSCRIBE that goes out and its SUBACK the transport is connected and publishing, and every topic has been handed to the MQTT client |
| `PacketIds.NextConsistent` | c/iothub_client/src/iothubtransport_mqtt_common.c:212-223 | the stepping counter always equals a closed form of the number of allocations |
| `PacketIds.WindowDistinct` | c/iothub_client/src/iothubtransport_mqtt_common.c:212-223 | any 65534 consecutive packet ids are distinct, and 65535 are not |
| `PacketIds.NextItem` | c/iothub_client/src/iothub_client_ll.c:76-87 | the report id counter follows a closed form of the number of draws |
| `PacketIds.ItemsDistinct` | c/iothub_client/src/iothub_client_ll.c:76-87 | any 4294967294 consecutive report ids are distinct |
| `TelemetryLaws.TimeoutDecides` | c/iothub_client/src/iothub_client_ll.c:857-889 | DoTimeouts confirms exactly the expired messages of the list it was given and keeps the others, whatever its callbacks submit |
| `TelemetryLaws.ExpiresOnTimeExactly` | c/iothub_client/src/iothub_client_ll.c:732-756 | a message with a timeout expires once more than the timeout has passed, exactly if clock plus timeout does not exceed 2^64 |
| `TelemetryLaws.ExpiresAtOnce` | c/iothub_client/src/iothub_client_ll.c:1238-1245 | a timeout of 2^64 - 1 ms accepted at tick 5 gives a deadline in the past |
| `TelemetryLaws.NeverExpires` | c/iothub_client/src/iothub_client_ll.c:737-741 | a message accepted with timeout zero never expires |
| `TelemetryLaws.TimeoutKeeps` | c/iothub_client/src/iothub_client_ll.c:857-889 | DoTimeouts keeps conservation, identity, order and pacing and leaves the in-flight list alone |
| `TelemetryLaws.FinishCallsBack` | c/iothub_client/src/iothub_client_ll.c:960-988 | a confirmation runs the application's callback exactly if the message asked for one, and what it submits is accepted in order |
| `TelemetryLaws.ResendDecides` | c/iothub_client/src/iothubtransport_mqtt_common.c:2012-2051 | the resend loop decides each in-flight entry on its own: survivors stay in order, confirmations are exactly the dropped entries in order |
| `TelemetryLaws.ResendKeeps` | c/iothub_client/src/iothubtransport_mqtt_common.c:2012-2051 | the resend loop keeps conservation, identity, order and pacing |
| `TelemetryLaws.PublishDecides` | c/iothub_client/src/iothubtransport_mqtt_common.c:2053-2095 | each message the publishing loop starts with stays waiting, is confirmed as failed, or is in flight with one publication, as its payload and the outcome say |
| `TelemetryLaws.PublishKeeps` | c/iothub_client/src/iothubtransport_mqtt_common.c:2053-2095 | the publishing loop keeps conservation, identity, order and pacing, including messages its callbacks submit |
| `TelemetryLaws.AckDecides` | c/iothub_client/src/iothubtransport_mqtt_common.c:902-923 | a PUBACK removes exactly the entries published under that packet id and confirms them in order |
| `TelemetryLaws.AckConfirmsOne` | c/iothub_client/src/iothubtransport_mqtt_common.c:902-923 | under the age bound a PUBACK confirms the one message with that packet id |
| `TelemetryLaws.DrainFlightKeeps` | c/iothub_client/src/iothubtransport_mqtt_common.c:1634-1640 | the transport's Destroy empties the in-flight list and loses nothing |
| `TelemetryLaws.DrainWaitingKeeps` | c/iothub_client/src/iothub_client_ll.c:694-707 | the client's Destroy empties the wait list, including what callbacks append meanwhile |
| `TelemetryLaws.ExactlyOnePlace` | c/iothub_client/src/iothub_client_ll.c:803-807 | conservation and distinct ids put each accepted message in one place |
| `Twin.EnqueueKeeps` | c/iothub_client/src/iothub_client_ll.c:1321-1362 | submitting a report keeps both layers in step, also when it is refused after an id was drawn |
| `Twin.ProcessKeeps` | c/iothub_client/src/iothubtransport_mqtt_common.c:1911-1971 | the report loop keeps both layers in step and empties the queue |
| `Twin.ProcessDecides` | c/iothub_client/src/iothub_client_ll.c:899-931 | the report loop moves every accepted report, in order, to the acknowledgement queue and the publication log, drops every other one and answers none |
| `Twin.RetrieveKeeps` | c/iothub_client/src/iothubtransport_mqtt_common.c:561-614 | a twin GET never disturbs the reports |
| `Twin.ItemHasReport` | c/iothub_client/src/iothub_client_ll.c:1057-1089 | an item of the transport's queue always finds its report in the client's queue |
| `Twin.RespondKeeps` | c/iothub_client/src/iothubtransport_mqtt_common.c:805-829 | a response takes one item off the transport's queue and its report off the client's, so they stay in step |
| `Twin.RespondAnswers` | c/iothub_client/src/iothubtransport_mqtt_common.c:805-829 | a response answers one report with the id its request carried, with the status received, and nothing else |
| `Twin.RespondRetrieves` | c/iothub_client/src/iothubtransport_mqtt_common.c:805-829 | the answer to a twin GET takes its item off the queue and touches no report |
| `Twin.DrainKeeps` | c/iothub_client/src/iothubtransport_mqtt_common.c:1641-1647 | answering everything leaves both acknowledgement queues empty |
| `Connection.InitializeSound` | c/iothub_client/src/iothubtransport_mqtt_common.c:1254-1345 | a successful InitializeConnection leaves the transport connected or in the UNKNOWN state, and keeps PUBLISH implying connected and the mask covering the topics |
| `Connection.RefreshedAfter` | c/iothub_client/src/iothubtransport_mqtt_common.c:1306-1340 | a standing connection is dropped for a token refresh exactly when it is at least 2881 s old, and then every topic is pending again |
| `Connection.SubscribeClears` | c/iothub_client/src/iothubtransport_mqtt_common.c:1046-1108 | a backed non-empty mask yields one to four distinct filters, exactly the pending ones; success clears it and failure leaves it |
| `Connection.SubscribeMessagesBacked` | c/iothub_client/src/iothubtransport_mqtt_common.c:1852-1886 | a repeated Subscribe keeps the mask backed exactly when its allocation succeeds or the bit was not pending |
| `Connection.StuckMask` | c/iothub_client/src/iothubtransport_mqtt_common.c:1852-1886 | a failed allocation in a repeated Subscribe leaves a bit that no SUBSCRIBE can clear |
| `Connection.InitializeClocked` | c/iothub_client/src/iothubtransport_mqtt_common.c:1254-1304 | one connection attempt keeps the failure count equal to the trailing failures and the attempts throttled |
| `Connection.HeldBackExactly` | c/iothub_client/src/iothubtransport_mqtt_common.c:1264-1277 | an attempt is held back exactly when more than five failed in a row and the last is less than 31 s ago |
| `Connection.ThrottledStretch` | c/iothub_client/src/iothubtransport_mqtt_common.c:1264-1277 | the k-th attempt after the first throttled one comes at least k * 31000 ms later |
| `Connection.WindowBound` | c/iothub_client/src/iothubtransport_mqtt_common.c:1264-1277 | a window of w ms holds at most w/31000 + 1 attempts of a failing stretch |
| `MqttRuns.ApplyKeeps` | c/iothub_client/src/iothubtransport_mqtt_common.c:1974-2101 | every operation, network event and DoWork keeps the joint invariant of both layers |
| `MqttRuns.RunKeeps` | c/iothub_client/src/iothubtransport_mqtt_common.c:1974-2101 | every run keeps the joint invariant, with order, pacing and mask under the assumption each needs |
| `MqttRuns.TransportKeeps` | c/iothub_client/src/iothubtransport_mqtt_common.c:1974-2101 | one transport DoWork, in whichever state it runs, keeps the joint invariant |
| `MqttRuns.DestroyTransportKeeps` | c/iothub_client/src/iothubtransport_mqtt_common.c:1623-1660 | after the transport's Destroy the in-flight list and both acknowledgement queues are empty |
| `MqttHandle.Device.constructor` | c/iothub_client/src/iothubtransport_mqtt_common.c:1399-1534 | a new handle is the start state |
| `MqttHandle.Device.SendEventAsync` | c/iothub_client/src/iothub_client_ll.c:732-813 | accepts exactly valid requests, stamps the deadline with wrap-around and appends to the wait list |
| `MqttHandle.Device.DoTimeouts` | c/iothub_client/src/iothub_client_ll.c:857-889 | the loop is the timeout walk over the wait list |
| `MqttHandle.Device.Resend` | c/iothub_client/src/iothubtransport_mqtt_common.c:2012-2051 | the loop is the resend walk over the in-flight list |
| `MqttHandle.Device.PublishWaiting` | c/iothub_client/src/iothubtransport_mqtt_common.c:2053-2095 | the loop is the publishing walk over the wait list |
| `MqttHandle.Device.NextPacketId` | c/iothub_client/src/iothubtransport_mqtt_common.c:212-223 | draws the next packet id |
| `MqttHandle.Device.PubAck` | c/iothub_client/src/iothubtransport_mqtt_common.c:902-923 | the loop is the acknowledgement walk |
| `MqttHandle.Device.DrainInFlight` | c/iothub_client/src/iothubtransport_mqtt_common.c:1634-1640 | the loop confirms every in-flight entry as destroyed |
| `MqttHandle.Device.DrainWaiting` | c/iothub_client/src/iothub_client_ll.c:694-707 | the loop confirms every waiting message as destroyed |
| `MqttHandle.Device.GetSendStatus` | c/iothub_client/src/iothubtransport_mqtt_common.c:2103-2129 | BUSY exactly when a message waits or is in flight |
| `MqttHandle.Device.SendReportedState` | c/iothub_client/src/iothub_client_ll.c:1321-1362 | draws an id and queues the report only when the twin topics could be subscribed |
| `MqttHandle.Device.ProcessReports` | c/iothub_client/src/iothub_client_ll.c:899-931 | the loop publishes or drops each queued report while the transport is publishing, and does nothing otherwise |
| `MqttHandle.Device.ReportedStateComplete` | c/iothub_client/src/iothub_client_ll.c:1057-1089 | the search answers the first report with that id |
| `MqttHandle.Device.TwinResponse` | c/iothub_client/src/iothubtransport_mqtt_common.c:805-829 | the search completes the first item with that request id |
| `MqttHandle.Device.DrainAwaiting` | c/iothub_client/src/iothubtransport_mqtt_common.c:1641-1647 | the loop answers every item with 408 |
| `MqttHandle.Device.InitializeConnection` | c/iothub_client/src/iothubtransport_mqtt_common.c:1254-1345 | back-off, connect and token refresh as the step of the connection model |
| `MqttHandle.Device.Subscribe` | c/iothub_client/src/iothubtransport_mqtt_common.c:1046-1108 | one SUBSCRIBE packet as the step of the connection model |
| `MqttHandle.Device.RetrieveTwin` | c/iothub_client/src/iothubtransport_mqtt_common.c:1993-2009 | the SUBACK state sends the twin GET once and moves to PUBLISH |
| `MqttHandle.Device.SubscribeTwin` | c/iothub_client/src/iothubtransport_mqtt_common.c:1679-1740 | adds the two twin topics, or stops at the first failed allocation |
| `MqttHandle.Device.SubscribeMessages` | c/iothub_client/src/iothubtransport_mqtt_common.c:1852-1886 | rebuilds the message topic and marks it pending |
| `MqttHandle.Device.SubscribeMethods` | c/iothub_client/src/iothubtransport_mqtt_common.c:1769-1819 | adds the method topic |
| `MqttHandle.Device.UnsubscribeTwin` | c/iothub_client/src/iothubtransport_mqtt_common.c:1742-1767 | drops both twin topics and their bits |
| `MqttHandle.Device.UnsubscribeMethods` | c/iothub_client/src/iothubtransport_mqtt_common.c:1821-1850 | drops the method topic and its bit, drawing a packet id if it existed |
| `MqttHandle.Device.ConnectionFailed` | c/iothub_client/src/iothubtransport_mqtt_common.c:1001-1044 | an error disconnects and marks every existing topic pending |
| `MqttHandle.Device.ConnAcked` | c/iothub_client/src/iothubtransport_mqtt_common.c:930-960 | an accepted CONNACK moves on, a refused one disconnects |
| `MqttHandle.Device.ChangeKeepAlive` | c/iothub_client/src/iothubtransport_mqtt_common.c:2160-2172 | a changed keep-alive disconnects a connected transport |
| `MqttHandle.Device.DoTransport` | c/iothub_client/src/iothubtransport_mqtt_common.c:1974-2101 | the transport's DoWork as the step of the state machine |
| `MqttHandle.Device.DoWork` | c/iothub_client/src/iothub_client_ll.c:891-936 | the client's DoWork as the step of the state machine |
| `MqttHandle.Device.DestroyTransport` | c/iothub_client/src/iothubtransport_mqtt_common.c:1623-1660 | the transport's Destroy as the step of the state machine |
| `MqttHandle.Device.Destroy` | c/iothub_client/src/iothub_client_ll.c:682-730 | the client's Destroy as the step of the state machine |
| `MqttHandle.Device.Run` | c/iothub_client/src/iothub_client_ll.c:891-936 | any sequence of calls and network events on the object is the run of the state machine that the theorems speak about |
| `MqttProperties.AppendProperties` | c/iothub_client/src/iothubtransport_mqtt_common.c:448-481 | the loop appends the items separated by ampersands, and fails exactly when a concatenation does |
| `MqttProperties.CheckSystem` | c/iothub_client/src/iothubtransport_mqtt_common.c:663-676 | the loop finds a system prefix exactly if there is one |
| `MqttProperties.ExtractProperties` | c/iothub_client/src/iothubtransport_mqtt_common.c:678-773 | the nested loops take the tokens in order, each split at its first equals sign, up to the first one that needs memory and gets none |
| `MqttProperties.RoundTrip` | c/iothub_client/src/iothubtransport_mqtt_common.c:448-481 | appending any property map to a base of '&'-terminated system tokens and extracting again gives the entries whose key has no system prefix |
| `MqttProperties.CollectExactly` | c/iothub_client/src/iothubtransport_mqtt_common.c:678-773 | for distinct keys those are the map's own entries with their values and nothing else |
| `MqttProperties.SystemByKey` | c/iothub_client/src/iothubtransport_mqtt_common.c:85-94 | the value has no say in whether a property counts as a system property |
| `MqttProperties.UnterminatedBase` | c/iothub_client/src/iothubtransport_mqtt_common.c:448-481 | a base that is one system token without a final '&' swallows exactly the first property |
| `MqttProperties.EqualsInKey` | c/iothub_client/src/iothubtransport_mqtt_common.c:678-773 | a single application property survives exactly when its key has no '=' |
| `AmqpLaws.EventInOnePlace` | c/iothub_client/src/iothubtransportamqp.c:251-337 | in every run of the multi-device transport each accepted event of each device is waiting, in progress or confirmed, exactly one of these and once |
| `AmqpLaws.DestroyedConfirmsAll` | c/iothub_client/src/iothubtransportamqp.c:1834-1888 | once its client is destroyed everything a device accepted has been confirmed exactly once |
| `AmqpLaws.IdleWhenAllConfirmed` | c/iothub_client/src/iothubtransportamqp.c:1478-1512 | GetSendStatus says IDLE exactly when every accepted event is confirmed |
| `AmqpLaws.RetryRollsBack` | c/iothub_client/src/iothubtransportamqp.c:1076-1104 | a connection retry empties every in-progress list and puts its events, reversed, behind the wait list; a DoWork that leaves the transport unconnected has done so |
| `AmqpLaws.EventsTravelFresh` | c/iothub_client/src/iothubtransportamqp.c:1230-1295 | under a device key every event handed to the sender had a token, unexpired at the status check if the refresh time was at most its lifetime |
| `AmqpLaws.EventsTravelAccepted` | c/iothub_client/src/iothubtransportamqp_auth.c:56-76 | with a CBS credential every event of every run was handed over while the last answer of CBS to a put was success |
| `AmqpLaws.NoEventStranded` | c/iothub_client/src/iothubtransportamqp.c:1076-1104 | an event in progress belongs to a registered device whose sender still exists |
| `AmqpLaws.SendPendingDecides` | c/iothub_client/src/iothubtransportamqp.c:1017-1072 | each waiting event up to the first refusal is confirmed as failed, in progress, or back at the tail with the pass ended |
| `AmqpLaws.SendPendingKeeps` | c/iothub_client/src/iothubtransportamqp.c:1017-1072 | a sending pass keeps the device's balance, freshness and ownership |
| `AmqpLaws.WorkKeeps` | c/iothub_client/src/iothubtransportamqp.c:1230-1311 | device_DoWork keeps the device's invariant whatever its authentication status |
| `AmqpLaws.FindsItself` | c/iothub_client/src/iothubtransportamqp.c:1834-1888 | Unregister erases the device it was given although it searches by id |
| `AmqpLaws.RunKeeps` | c/iothub_client/src/iothubtransportamqp.c:1323-1381 | every run keeps every device's invariant |
| `AmqpSteps.CompletesAs` | c/iothub_client/src/iothubtransportamqp.c:303-337 | a send callback confirms its event as OK or ERROR as it reports, and takes exactly it off the in-progress list; nothing that waits and no other device is touched |
| `AmqpSteps.OkOnlyBySendComplete` | c/iothub_client/src/iothubtransportamqp.c:303-337 | an event is confirmed as delivered only by a send callback of its device that reports success |
| `AmqpSteps.DestroyTells` | c/iothub_client/src/iothub_client_ll.c:694-707 | destroying a client keeps its earlier confirmations, confirms everything else as BECAUSE_DESTROY and unregisters the device |
| `AmqpSteps.TimeoutsConfirm` | c/iothub_client/src/iothub_client_ll.c:857-889 | a client's DoTimeouts confirms the expired waiting events and keeps the others |
| `AmqpSteps.SendPendingSucceeds` | c/iothub_client/src/iothubtransportamqp.c:1017-1072 | a pass in which every event is taken succeeds: all are in progress, in order, and nothing is confirmed |
| `AmqpSteps.WorkByStatus` | c/iothub_client/src/iothubtransportamqp.c:1230-1311 | IDLE and REFRESH_REQUIRED authenticate, IN_PROGRESS waits, FAILURE and TIMEOUT are critical, and OK is critical only if the receiver, the sender or an event fails |
| `AmqpSteps.WorkWithoutSending` | c/iothub_client/src/iothubtransportamqp.c:1284-1295 | without an OK status and an open sender no event is touched or handed over |
| `AmqpSteps.EventsOffered` | c/iothub_client/src/iothubtransportamqp.c:1017-1072 | a DoWork that gets to work offers every waiting event of a device that may send, up to the first refusal, unless it cannot be encoded |
| `AmqpSteps.DoWorkWorks` | c/iothub_client/src/iothubtransportamqp.c:1323-1381 | a DoWork that leaves the transport connected has worked every registered device, none critically, and left the others alone |
| `AmqpSteps.RetryResets` | c/iothub_client/src/iothubtransportamqp_auth.c:608-660 | a connection retry takes the authentication to IDLE exactly if the status is not TIMEOUT and a delete that is needed goes through |
| `AmqpSteps.RegisterAdds` | c/iothub_client/src/iothubtransportamqp.c:1654-1771 | a device is registered exactly if its id is not registered yet and its credential fits |
| `AmqpSteps.ErrorsRetry` | c/iothub_client/src/iothubtransportamqp.c:455-463 | an error of the connection or of a sender makes the next DoWork retry every device |
| `AmqpSteps.SenderRemembered` | c/iothub_client/src/iothubtransportamqp.c:770-789 | the sender's last reported state is remembered |
| `AmqpSteps.OptionsSet` | c/iothub_client/src/iothubtransportamqp.c:1537-1554 | the token options are the ones last set |
| `AmqpSteps.EventQueued` | c/iothub_client/src/iothub_client_ll.c:758-813 | an accepted event is appended to its device's wait list with the request's payload and callback |
| `AmqpTransport.ApplyIndexed` | c/iothub_client/src/iothubtransportamqp.c:1654-1888 | no operation registers a device id twice or leaves a stale handle in the vector |
| `AmqpAuth.NeverSendsExpired` | c/iothub_client/src/iothubtransportamqp_auth.c:502-525 | over every run of failed puts, late callbacks, refreshes and resets, a status check that says OK finds the latest created token unexpired, whichever way the clock moved |
| `AmqpAuth.RunTracked` | c/iothub_client/src/iothubtransportamqp_auth.c:368-424 | the stored create time is that of the latest token or zero, and without a token the status is never OK |
| `AmqpAuth.OkMeansAccepted` | c/iothub_client/src/iothubtransportamqp_auth.c:56-76 | with a CBS credential the status is OK only while the last answer to a put was success, told by the history of the run alone |
| `AmqpAuth.PutAnswered` | c/iothub_client/src/iothubtransportamqp_auth.c:56-76 | an awaited put callback leaves OK exactly if the put succeeded, and FAILURE otherwise |
| `AmqpAuth.DeleteAnswered` | c/iothub_client/src/iothubtransportamqp_auth.c:78-97 | an awaited delete callback leaves IDLE exactly if the delete succeeded, and FAILURE otherwise |
| `AmqpAuth.AuthenticatePuts` | c/iothub_client/src/iothubtransportamqp_auth.c:351-484 | authenticating puts a token and waits for the answer exactly if nothing fails; under a device key it is a new token with the lifetime of the options |
| `AmqpAuth.RefreshedExactly` | c/iothub_client/src/iothubtransportamqp_auth.c:146-166 | a token is left alone exactly while its age is below the refresh time |
| `AmqpAuth.TimesOutExactly` | c/iothub_client/src/iothubtransportamqp_auth.c:123-144 | a put counts as timed out once the request timeout has passed, exactly if the elapsed milliseconds fit in a size_t or exceed the timeout wrapped |
| `AmqpAuth.TimeoutWraps` | c/iothub_client/src/iothubtransportamqp_auth.c:123-144 | an elapsed time whose milliseconds wrap, so that the put does not count as timed out |
| `AmqpAuth.FreshWhenOk` | c/iothub_client/src/iothubtransportamqp_auth.c:146-166 | the unsigned refresh test accepts only an unexpired token, whichever way the clock moved |
| `AmqpAuth.ExpiryFits` | c/iothub_client/src/iothubtransportamqp_auth.c:36-54 | for every clock reading the program can get and every lifetime option the expiry does not wrap |
| `AmqpAuth.ResetReachesIdle` | c/iothub_client/src/iothubtransportamqp_auth.c:608-660 | reset reaches IDLE exactly for the listed statuses, and refuses TIMEOUT |
| `AmqpHandles.Authentication.constructor` | c/iothub_client/src/iothubtransportamqp_auth.c:168-297 | a new authentication is idle with no token |
| `AmqpHandles.Authentication.Authenticate` | c/iothub_client/src/iothubtransportamqp_auth.c:351-484 | authentication by credential type as the step of the token model |
| `AmqpHandles.Authentication.GetStatus` | c/iothub_client/src/iothubtransportamqp_auth.c:486-558 | the status check with its timeout and refresh tests as the step of the token model |
| `AmqpHandles.Authentication.Refresh` | c/iothub_client/src/iothubtransportamqp_auth.c:577-606 | refresh authenticates again unless X509 |
| `AmqpHandles.Authentication.Reset` | c/iothub_client/src/iothubtransportamqp_auth.c:608-671 | reset as the step of the token model |
| `AmqpHandles.Authentication.Run` | c/iothub_client/src/iothubtransportamqp_auth.c:56-97 | any sequence of calls and put or delete callbacks on the object is the run of the token model that NeverSendsExpired speaks about |
| `AmqpHandles.Device.SendPendingEvents` | c/iothub_client/src/iothubtransportamqp.c:1017-1072 | the sending loop is the sending pass of the model |
| `AmqpHandles.Device.OnMessageSendComplete` | c/iothub_client/src/iothubtransportamqp.c:303-337 | the callback confirms the event and takes it off the in-progress list |
| `AmqpHandles.Device.RollEventsBack` | c/iothub_client/src/iothubtransportamqp.c:291-301 | the loop from the tail appends the in-progress events in reverse |
| `AmqpHandles.Device.PrepareForRetry` | c/iothub_client/src/iothubtransportamqp.c:1076-1089 | resets the authentication, drops the sender and rolls back |
| `AmqpHandles.Device.DoWork` | c/iothub_client/src/iothubtransportamqp.c:1230-1311 | device_DoWork as the step of the model |
| `AmqpHandles.Transport.PrepareForConnectionRetry` | c/iothub_client/src/iothubtransportamqp.c:1091-1104 | the pass over the vector is the retry step: each registered device on its own |
| `AmqpHandles.Transport.WorkDevices` | c/iothub_client/src/iothubtransportamqp.c:1353-1364 | the device loop works each device on its own and remembers a critical error |
| `AmqpHandles.Transport.DoWork` | c/iothub_client/src/iothubtransportamqp.c:1323-1381 | DoWork on the object is the transport step: it retries every device exactly after a lost connection, a failed connect or a critical error |
| `AmqpHandles.Transport.Register` | c/iothub_client/src/iothubtransportamqp.c:1654-1830 | registers a new device object exactly if its credential is compatible and its id is not registered yet |
| `AmqpHandles.Transport.Unregister` | c/iothub_client/src/iothubtransportamqp.c:1834-1888 | closes the device and erases the vector element found by its id |
| `AmqpHandles.Transport.Run` | c/iothub_client/src/iothubtransportamqp.c:1323-1381 | any sequence of calls and callbacks on the object is the run of the transport that the AMQP theorems speak about |
| `AmqpMethods.RemoveTracked` | c/iothub_client/src/iothubtransportamqp_methods.c:56-88 | the in-place loop keeps exactly the other handles in order, although its index wraps at zero |
| `AmqpMethods.MoveDown` | c/iothub_client/src/iothubtransportamqp_methods.c:64-68 | the elements behind the removed one move down by one |
| `AmqpMethods.ReceiveSound` | c/iothub_client/src/iothubtransportamqp_methods.c:256-401 | a request keeps every handle tracked or freed exactly once, exactly unless its callback answers it successfully and then reports failure |
| `AmqpMethods.RequestTracked` | c/iothub_client/src/iothubtransportamqp_methods.c:256-401 | a delivered request gets a new handle, which stays tracked exactly if the callback neither answers it nor fails, and is freed otherwise |
| `AmqpMethods.FreedExactlyOnce` | c/iothub_client/src/iothubtransportamqp_methods.c:162-170 | over every such run each handle is tracked or freed, once, and freed exactly once when the module is destroyed |
| `AmqpMethods.RunSound` | c/iothub_client/src/iothubtransportamqp_methods.c:256-401 | over every such run the tracked handles are the live, pairwise distinct, unanswered requests |
| `AmqpMethods.DoubleFreeExample` | c/iothub_client/src/iothubtransportamqp_methods.c:380-389 | a callback that answers and then fails frees its handle twice and drops another request |
| `AmqpMethods.TransportCallbackSound` | c/iothub_client/src/iothubtransportamqp.c:471-516 | the transport's own callback never does that |
| `AmqpMethods.Methods.Append` | c/iothub_client/src/iothubtransportamqp_methods.c:264-276 | the array grows by one and keeps its elements |
| `AmqpMethods.Methods.RespondTo` | c/iothub_client/src/iothubtransportamqp_methods.c:869-884 | a sent response removes and frees the handle |
| `AmqpMethods.Methods.OnMessageReceived` | c/iothub_client/src/iothubtransportamqp_methods.c:256-401 | receiving a request as the step of the ownership model |
| `AmqpMethods.Methods.Close` | c/iothub_client/src/iothubtransportamqp_methods.c:162-170 | the loop frees every tracked handle |
| `AmqpMethods.Methods.Run` | c/iothub_client/src/iothubtransportamqp_methods.c:256-401 | any sequence of requests, responses and destroy on the object is the run of the ownership model |
| `BlockIds.PrintedLength` | c/iothub_client/src/blob.c:171-172 | a block number prints as six characters exactly when it is below a million |
| `BlockIds.PrintedReads` | c/iothub_client/src/blob.c:171-172 | a printed number reads back as itself |
| `BlockIds.EncodeInjective` | c/iothub_client/src/blob.c:181 | base64 as in section 4 of RFC 4648 is injective on whole groups |
| `BlockIds.BlockIdInjective` | c/iothub_client/src/blob.c:171-181 | block ids below a million are distinct |
| `BlockIds.BlockIdAlphanumeric` | c/iothub_client/src/blob.c:181 | a block id needs no escaping in the query string or the XML |
| `Blob.SplitExact` | c/iothub_client/src/blob.c:52-98 | for an https URI the host and path are exact if and only if the host has no slash |
| `Blob.EntriesParse` | c/iothub_client/src/blob.c:192-197 | the block list XML names exactly the ids, in order |
| `Blob.StageBlocks` | c/iothub_client/src/blob.c:158-279 | the do/while loop stages the blocks in order and stops at the first failure with its result |
| `Blob.UploadBlocks` | c/iothub_client/src/blob.c:148-345 | block upload and commit as told by the first failing request |
| `Blob.UploadTo` | c/iothub_client/src/blob.c:20-362 | argument checks, the single PUT and the block upload |
| `BlobStorage.BlocksProper` | c/iothub_client/src/blob.c:169 | blocks are non-empty and at most 4 MiB, all but the last full, and there are ceil(size / 4 MiB) <= 50000 |
| `BlobStorage.BlocksStaged` | c/iothub_client/src/blob.c:206-275 | after the block requests each id holds its own block, whatever was staged before |
| `BlobStorage.CommitAssembles` | c/iothub_client/src/blob.c:290-345 | the committed list names staged blocks that concatenate to exactly the source |
| `BlobStorage.ChunkedRefinesPut` | c/iothub_client/src/blob.c:148-345 | a successful block upload leaves the same blob as one PUT of the source |
| `BlobStorage.NoCommitAfterFailure` | c/iothub_client/src/blob.c:279-284 | after a failed block no commit is sent: whatever the service received, the blob is unchanged |
| `BlobStorage.SuccessMeansAll` | c/iothub_client/src/blob.c:228-345 | BLOB_OK with a status below 300 means exactly that every block and the commit were answered below 300 |
| `BlobStorage.UploadSucceedsExactly` | c/iothub_client/src/blob.c:20-362 | an upload reports success exactly when it could be attempted and all its requests, the single PUT or every block and the commit, were answered below 300 |
| `BlobStorage.NotAttempted` | c/iothub_client/src/blob.c:20-98 | bad arguments are BLOB_INVALID_ARG, exactly, and nothing is sent when the upload cannot be set up |
| `BlobStorage.FailureReported` | c/iothub_client/src/blob.c:158-345 | the first request that does not succeed decides the answer: BLOB_ERROR, BLOB_HTTP_ERROR, or BLOB_OK with its status |
| `BlobStorage.UploadStoresSource` | c/iothub_client/src/blob.c:20-362 | for every URI and source, reported success means the blob holds exactly the source |
| `BlobStorage.RequestsGoToHost` | c/iothub_client/src/blob.c:64-98 | every request goes to the host named in the URI |
| `UploadNotification.UploadToBlob` | c/iothub_client/src/iothub_client_ll_uploadtoblob.c:703-870 | OK exactly if the call is valid, the grant complete, the upload stored and the notification built and accepted; under a grant exactly one notification is made if it can be built, with the granted correlation id, telling of the storage upload as it went and claiming success exactly if it was stored |
| `UploadNotification.UriIsExact` | c/iothub_client/src/iothub_client_ll_uploadtoblob.c:471-494 | storage is addressed by exactly the returned host and path if and only if the host has no slash |
| `UploadNotification.StoredIsSource` | c/iothub_client/src/iothub_client_ll_uploadtoblob.c:779-850 | a stored upload leaves exactly the source at the granted place, and all its requests went to the granted host |
| `UploadNotification.OkHasStatus` | c/iothub_client/src/iothub_client_ll_uploadtoblob.c:795-800 | BLOB_OK always comes with an HTTP status |
| `ClientThreads.FreedAfterLastAccess` | c/iothub_client/src/iothub_client.c:54-98 | under every interleaving an upload record is freed at most once, and only after its thread was joined or could not be created |
| `ClientThreads.JoinNeedsNoLock` | c/iothub_client/src/iothub_client.c:72-80 | the collector only joins a thread that needs no lock any more |
| `ClientThreads.LowLevelInUseIsAlive` | c/iothub_client/src/iothub_client.c:101-136 | no upload thread and no worker uses the low-level client after it is destroyed |
| `ClientThreads.DestroyLeavesNothing` | c/iothub_client/src/iothub_client.c:417-498 | when Destroy has freed the instance every record was freed exactly once and the worker has exited |
| `ClientThreads.ApplyKeeps` | c/iothub_client/src/iothub_client.c:417-498 | every step of every thread keeps the locking and ownership invariant |
| `ClientThreads.GcKeeps` | c/iothub_client/src/iothub_client.c:54-98 | every step of the garbage collector keeps it |
| `ClientThreads.ThreadKeeps` | c/iothub_client/src/iothub_client.c:874-916 | every step of an upload thread keeps it |
| `ClientThreads.CreateKeeps` | c/iothub_client/src/iothub_client.c:1040-1063 | starting an upload thread, or failing to, keeps it |
| `ClientProgress.DestroyCanFinish` | c/iothub_client/src/iothub_client.c:417-498 | from every reachable state a schedule of possible steps brings Destroy to its end: no lock and no join is waited for in vain |
| `ClientProgress.UploadStarts` | c/iothub_client/src/iothub_client.c:920-1066 | while the lock is free and Destroy has not begun an upload can be started, on a listed record of its own with a worker to clean it |
| `ClientProgress.WorkerWorks` | c/iothub_client/src/iothub_client.c:101-136 | a waiting worker gets to call the low-level DoWork when the lock is free, and exits if told to stop |
| `SharedWorker.ClientsAreActive` | c/iothub_client/src/iothubtransport.c:168-207 | in every run the client vector is duplicate-free and holds exactly the clients started and not yet ended |
| `SharedWorker.StopsOnlyWhenEmpty` | c/iothub_client/src/iothubtransport.c:232-259 | a leaving client raises the stop flag and is told to join only when no active client is left, and is told to join exactly then if a worker exists |
| `SharedWorker.StartActivates` | c/iothub_client/src/iothubtransport.c:168-207 | a start makes its client active exactly if there is a worker or one can be created, and a place in the vector |
| `SharedWorker.RoundWorks` | c/iothub_client/src/iothubtransport.c:131-158 | a running worker calls the lower layer's DoWork once a round, unless it was told to stop; then it exits |
| `SharedWorker.NoWorkAfterDestroy` | c/iothub_client/src/iothubtransport.c:131-158 | the lower layer's DoWork is never called after the lower layer is destroyed |
| `SharedWorker.StartServed` | c/iothub_client/src/iothubtransport.c:168-207 | a start leaves clients without a running worker exactly when it meets a worker that was told to stop and is not joined |
| `SharedWorker.OthersServed` | c/iothub_client/src/iothubtransport.c:209-259 | signal, join and worker rounds never do |
| `SharedWorker.StartBetweenSignalAndJoin` | c/iothub_client/src/iothub_client.c:450-487 | a client starting between another's signal and join is left without a worker until its next call |
| `SharedWorker.SharedTransport.StartWorkerIfNeeded` | c/iothub_client/src/iothubtransport.c:168-207 | start_worker_if_needed as the step of the model |
| `SharedWorker.SharedTransport.SignalEndWorker` | c/iothub_client/src/iothubtransport.c:232-259 | signal_end_worker_thread as the step of the model, with its search loop |
| `SharedWorker.SharedTransport.Run` | c/iothub_client/src/iothubtransport.c:131-259 | any sequence of starts, signals, joins, worker rounds and destroy on the object is the run that the worker theorems speak about |

## Left out

- Connection strings, option pass-through, certificates, logging and retry-policy stubs: they rest on parsers and libraries that are not part of this model.
- Parsing of twin and method topics, cloud-to-device messages and device-method payloads: string searches and forwarding to application callbacks; only the packet id a method response draws is kept.
- Desired-property notifications: a twin GET answer is only taken off the transport's queue.
- AMQP message receivers and the method links: a receiver that cannot be created is kept as a critical error, nothing else.
- Creation failures of clients, transports and devices: allocation is assumed to succeed there.
- Destroying an AMQP transport with two or more devices still registered: the loop indexes the vector that Unregister shrinks; devices are unregistered by their clients first.
- The HTTP transport, the service client, the command-line tools and the Node packages: they share none of the state machines above.
- MqttHandle.Device: the client handle and the transport handle are one object, so the sharing of the wait list through a pointer is not modelled as aliasing.
- ClientThreads: modelled on values as a state machine, because its subject is interleaving; the singly linked list is a sequence.
- UploadNotification.UploadToBlob: the notification body is a record of its three fields, not JSON text, and the storage response is not escaped in the source either.
