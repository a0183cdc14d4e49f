/**
 * Connection state of the MQTT transport: the packet phase, the reconnect back-off, the
 * token refresh, and the mask of topics still to be subscribed.
 */
module Connection {
  import opened Clock
  import opened Lists

  const FAILED_CONN_BACKOFF: nat := 5
  const CONNECTION_INTERVAL_SECONDS: nat := 30
  /** SAS_TOKEN_DEFAULT_LIFETIME * SAS_REFRESH_MULTIPLIER, 3600 s * .8 */
  const REFRESH_SECONDS: nat := 2880

  /** The values of CONTROL_PACKET_TYPE that `currPacketState` takes. */
  datatype Phase = Connect | ConnAck | Subscribe | SubAck | Publish | Disconnect | PacketError | Unknown

  /** The four subscription topics; a set of them stands for the bits of `topics_ToSubscribe`. */
  datatype Topic = Messages | GetState | NotifyState | DeviceMethods

  datatype Attempt = Attempt(at: Tick, ok: bool)

  /**
   * `topics` are the topic strings that exist, `pending` the bits of the mask.  `handed`
   * (topics given to mqtt_client_subscribe since the last connection error or token
   * refresh) and `attempts` are the history.
   */
  datatype State = State(
    phase: Phase, connected: bool, failCount: nat, connectTick: Tick, connectTime: Tick, getSent: bool,
    topics: set<Topic>, pending: set<Topic>, handed: set<Topic>, attempts: seq<Attempt>)

  /** mqtt_connect_time is not initialised. */
  function Start(uninitialised: Tick): (c: State)
  {
    State(Connect, false, 0, 0, uninitialised, false, {}, {}, {}, [])
  }

  /** The clock readings of one InitializeConnection, and whether the CONNECT packet went out. */
  datatype ConnectEnv = ConnectEnv(backoff: Option<Tick>, stamp: Option<Tick>, sent: bool,
                                   connectedAt: Option<Tick>, refresh: Option<Tick>)

  predicate HeldBack(c: State, env: ConnectEnv)
  {
    && c.failCount > FAILED_CONN_BACKOFF
    && env.backoff.Some?
    && Seconds(env.backoff.value, c.connectTick) <= CONNECTION_INTERVAL_SECONDS
  }

  /** The part of InitializeConnection that runs while not connected. */
  function TryConnect(c: State, env: ConnectEnv): (r: (State, bool))
  {
    if HeldBack(c, env) then (c, false)
    else if env.stamp.None? then (c.(failCount := c.failCount + 1), false)
    else
      var c' := c.(connectTick := env.stamp.value, attempts := c.attempts + [Attempt(env.stamp.value, env.sent)]);
      if !env.sent then (c'.(failCount := c.failCount + 1), false)
      else (c'.(failCount := 0, connected := true,
                connectTime := if env.connectedAt.Some? then env.connectedAt.value else c.connectTime), true)
  }

  function MarkAll(c: State): (c': State)
  {
    c.(getSent := false, pending := c.pending + c.topics, handed := {})
  }

  /** The part that runs while connected: it drops the connection when the token needs refreshing. */
  function CheckToken(c: State, env: ConnectEnv): (r: (State, bool))
  {
    if env.refresh.None? then (c.(failCount := c.failCount + 1), false)
    else if Seconds(env.refresh.value, c.connectTime) > REFRESH_SECONDS
    then (MarkAll(c).(connected := false, phase := Unknown), true)
    else (c, true)
  }

  /** InitializeConnection */
  function Initialize(c: State, env: ConnectEnv): (r: (State, bool))
  {
    if c.connected then CheckToken(c, env)
    else
      var (c', ok) := TryConnect(c, env);
      if ok then CheckToken(c', env) else (c', false)
  }

  function Filter(c: State, f: Topic): (fs: seq<Topic>)
    ensures forall g :: g in fs <==> g == f && f in c.topics && f in c.pending
  {
    if f in c.topics && f in c.pending then [f] else []
  }

  /** The filters SubscribeToMqttProtocol puts in one SUBSCRIBE packet, in order. */
  function Filters(c: State): (fs: seq<Topic>)
    ensures forall f :: f in fs <==> f in c.topics && f in c.pending
    ensures |fs| <= 4
    ensures NoDuplicates(fs)
  {
    var fs := Filter(c, Messages) + Filter(c, GetState) + Filter(c, NotifyState) + Filter(c, DeviceMethods);
    assert forall f: Topic :: f.Messages? || f.GetState? || f.NotifyState? || f.DeviceMethods?;
    fs
  }

  /** SubscribeToMqttProtocol */
  function SendSubscribe(c: State, ok: bool): (c': State)
  {
    if c.pending == {} then c.(phase := Publish)
    else
      var fs := set f | f in Filters(c);
      if fs != {} && ok then c.(pending := c.pending - fs, handed := c.handed + fs, phase := Subscribe)
      else c.(phase := Subscribe)
  }

  /** A packet id is drawn exactly when a SUBSCRIBE packet is built. */
  predicate DrawsId(c: State)
  {
    c.pending != {} && Filters(c) != []
  }

  function Resubscribe(p: Phase): (p': Phase)
  {
    if p.ConnAck? || p.Connect? || p.Disconnect? || p.PacketError? then p else Subscribe
  }

  function AddTopic(c: State, f: Topic): (c': State)
  {
    c.(topics := c.topics + {f}, pending := c.pending + {f})
  }

  function DropTopic(c: State, f: Topic): (c': State)
  {
    c.(topics := c.topics - {f}, pending := c.pending - {f}, handed := c.handed - {f})
  }

  /** IoTHubTransport_MQTT_Common_Subscribe rebuilds the topic string; failing that, the string is gone. */
  function SubscribeMessages(c: State, memory: bool): (c': State)
  {
    if memory then AddTopic(c, Messages).(phase := Resubscribe(c.phase))
    else c.(topics := c.topics - {Messages})
  }

  predicate TwinSubscribed(c: State, getMemory: bool, notifyMemory: bool)
  {
    (GetState in c.topics || getMemory) && (NotifyState in c.topics || notifyMemory)
  }

  /** IoTHubTransport_MQTT_Common_Subscribe_DeviceTwin */
  function SubscribeTwin(c: State, getMemory: bool, notifyMemory: bool): (c': State)
  {
    var c1 := if GetState !in c.topics && getMemory then AddTopic(c, GetState) else c;
    if GetState !in c1.topics then c1
    else
      var c2 := if NotifyState !in c1.topics && notifyMemory then AddTopic(c1, NotifyState) else c1;
      if NotifyState !in c2.topics then c2 else c2.(phase := Resubscribe(c2.phase))
  }

  function SubscribeMethods(c: State, memory: bool): (c': State)
  {
    if DeviceMethods !in c.topics && !memory then c
    else
      var c' := if DeviceMethods in c.topics then c else AddTopic(c, DeviceMethods);
      c'.(phase := Resubscribe(c.phase))
  }

  /** DisconnectFromClient and the MQTT_CLIENT_ON_DISCONNECT event. */
  function Disconnected(c: State): (c': State)
  {
    c.(connected := false, phase := Disconnect)
  }

  /** MQTT_CLIENT_ON_CONNACK */
  function ConnAcked(c: State, accepted: bool): (c': State)
  {
    if accepted then c.(phase := ConnAck) else c.(connected := false, phase := PacketError)
  }

  /** mqtt_error_callback */
  function Failed(c: State): (c': State)
  {
    MarkAll(c).(connected := false, phase := PacketError)
  }

  // ---------------------------------------------------------------------------
  // Laws
  // ---------------------------------------------------------------------------

  /** PUBLISH is only entered and left so that it implies being connected. */
  ghost predicate PublishConnected(c: State)
  {
    c.phase == Publish ==> c.connected
  }

  /** Every existing topic is pending or was handed to the MQTT client since the last reset. */
  ghost predicate Covered(c: State)
  {
    c.topics <= c.pending + c.handed
  }

  /** A pending bit is only set for an existing topic. */
  ghost predicate Backed(c: State)
  {
    c.pending <= c.topics
  }

  ghost predicate Sound(c: State)
  {
    PublishConnected(c) && Covered(c)
  }

  /** When InitializeConnection succeeds, either the connection stands or the phase was reset. */
  lemma InitializeSound(c: State, env: ConnectEnv)
    requires Sound(c)
    ensures
      var (c', ok) := Initialize(c, env);
      && Sound(c')
      && (ok ==> c'.connected || c'.phase == Unknown)
      && (Backed(c) ==> Backed(c'))
  {
  }

  /** A standing connection is dropped for a token refresh exactly when it is at least 2881 s old. */
  lemma RefreshedAfter(c: State, env: ConnectEnv)
    requires c.connected && env.refresh.Some? && c.connectTime <= env.refresh.value
    ensures
      var (c', ok) := Initialize(c, env);
      && ok
      && (c'.connected <==> env.refresh.value as int - c.connectTime as int < 2881000)
      && (!c'.connected ==>
            c'.phase == Unknown && c'.pending == c.pending + c.topics && c'.handed == {} && !c'.getSent)
  {
  }

  /** A non-empty mask sends one to four distinct filters, all of them pending, and success empties the mask. */
  lemma SubscribeClears(c: State, ok: bool)
    requires Backed(c) && c.pending != {}
    ensures 1 <= |Filters(c)| <= 4 && NoDuplicates(Filters(c))
    ensures (set f | f in Filters(c)) == c.pending
    ensures ok ==> SendSubscribe(c, ok).pending == {} && c.pending <= SendSubscribe(c, ok).handed
    ensures !ok ==> SendSubscribe(c, ok).pending == c.pending
  {
    var f :| f in c.pending;
    assert f in Filters(c);
  }

  /** The step at which the mask can lose its topic, exactly. */
  lemma SubscribeMessagesBacked(c: State, memory: bool)
    requires Backed(c)
    ensures Backed(SubscribeMessages(c, memory)) <==> memory || Messages !in c.pending
  {
  }

  /** An allocation failure on a repeated Subscribe leaves a bit without a topic, and no SUBSCRIBE can clear it. */
  lemma StuckMask()
    ensures
      var c := AddTopic(Start(0), Messages);
      var c' := SubscribeMessages(c, false);
      Backed(c) && !Backed(c') && c'.pending != {} && Filters(c') == [] && SendSubscribe(c', true).pending == c'.pending
  {
  }

  // ---------------------------------------------------------------------------
  // Back-off
  // ---------------------------------------------------------------------------

  /** How many attempts at the end of the log failed. */
  function Trailing(log: seq<Attempt>): (n: nat)
    ensures n <= |log|
  {
    if log == [] || log[|log| - 1].ok then 0 else Trailing(log[..|log| - 1]) + 1
  }

  /** Every attempt made after more than five failures in a row comes at least 31 s after the one before. */
  ghost predicate Throttled(log: seq<Attempt>)
  {
    |log| <= 1 ||
    (var before := log[..|log| - 1];
     && Throttled(before)
     && (Trailing(before) > FAILED_CONN_BACKOFF ==>
           log[|log| - 1].at as int - before[|before| - 1].at as int >= 31000))
  }

  ghost predicate Clocked(c: State, clock: Tick)
  {
    && c.failCount == Trailing(c.attempts)
    && c.connectTick <= clock
    && (c.attempts != [] ==> c.attempts[|c.attempts| - 1].at == c.connectTick)
    && Throttled(c.attempts)
  }

  /** Every reading succeeds and comes from a monotone clock between `lo` and `hi`. */
  ghost predicate ClockWorks(env: ConnectEnv, lo: Tick, hi: Tick)
  {
    && env.backoff.Some? && env.stamp.Some? && env.connectedAt.Some? && env.refresh.Some?
    && lo <= env.backoff.value <= env.stamp.value <= hi
  }

  lemma {:induction false} ThrottledAppend(log: seq<Attempt>, a: Attempt)
    requires Throttled(log)
    requires log != [] && Trailing(log) > FAILED_CONN_BACKOFF ==> a.at as int - log[|log| - 1].at as int >= 31000
    ensures Throttled(log + [a])
    ensures Trailing(log + [a]) == if a.ok then 0 else Trailing(log) + 1
  {
    var longer := log + [a];
    assert longer[..|longer| - 1] == log && longer[|longer| - 1] == a;
    assert Trailing(longer) == if a.ok then 0 else Trailing(log) + 1;
    hide Trailing;
    if log != [] {
      assert Throttled(longer);
    }
  }

  /** An attempt is held back exactly when more than five failed in a row and the last is less than 31 s ago. */
  lemma HeldBackExactly(c: State, env: ConnectEnv)
    requires env.backoff.Some? && c.connectTick <= env.backoff.value
    ensures HeldBack(c, env) <==> c.failCount > 5 && env.backoff.value as int - c.connectTick as int < 31000
  {
  }

  lemma InitializeClocked(c: State, env: ConnectEnv, lo: Tick, hi: Tick)
    requires Clocked(c, lo) && ClockWorks(env, lo, hi)
    ensures Clocked(Initialize(c, env).0, hi)
  {
    hide Trailing, Throttled;
    if !c.connected && !HeldBack(c, env) {
      assert c.attempts != [] && Trailing(c.attempts) > FAILED_CONN_BACKOFF ==>
          env.stamp.value as int - c.connectTick as int >= 31000;
      ThrottledAppend(c.attempts, Attempt(env.stamp.value, env.sent));
    }
  }

  /** The same, read off the log at any index. */
  lemma {:induction false} ThrottledAt(log: seq<Attempt>, k: nat)
    requires Throttled(log) && 0 < k < |log| && Trailing(log[..k]) > FAILED_CONN_BACKOFF
    ensures log[k].at as int - log[k - 1].at as int >= 31000
    decreases |log|
  {
    if k < |log| - 1 {
      assert log[..|log| - 1][..k] == log[..k];
      ThrottledAt(log[..|log| - 1], k);
    }
  }

  /** Across a stretch of failures, the k-th attempt after the first throttled one is at least k * 31 s later. */
  lemma {:induction false} ThrottledStretch(log: seq<Attempt>, i: nat, j: nat)
    requires Throttled(log) && i <= j < |log|
    requires Trailing(log[..i + 1]) > FAILED_CONN_BACKOFF
    requires forall k :: i <= k < j ==> !log[k].ok
    ensures log[j].at as int - log[i].at as int >= 31000 * (j - i)
    ensures i < j ==> Trailing(log[..j]) > FAILED_CONN_BACKOFF
    decreases j - i
  {
    if i < j {
      ThrottledStretch(log, i, j - 1);
      assert log[..j][..j - 1] == log[..j - 1];
      assert Trailing(log[..j]) > FAILED_CONN_BACKOFF;
      ThrottledAt(log, j);
    }
  }

  /** So a window of `w` milliseconds holds at most w/31000 + 1 of them. */
  lemma WindowBound(log: seq<Attempt>, i: nat, j: nat, w: nat)
    requires Throttled(log) && i <= j < |log|
    requires Trailing(log[..i + 1]) > FAILED_CONN_BACKOFF
    requires forall k :: i <= k < j ==> !log[k].ok
    requires log[j].at as int - log[i].at as int <= w
    ensures j - i + 1 <= w / 31000 + 1
  {
    ThrottledStretch(log, i, j);
  }
}
