/**
 * Claims-based authentication of one AMQP device: the token state machine, its unsigned
 * time arithmetic, and why no event travels under an expired token.
 */
module AmqpAuth {
  import opened Lists

  /** size_t is taken to be 64 bits wide. */
  const WORD: nat := 0x1_0000_0000_0000_0000

  type Word = w: nat | w < WORD

  /**
   * What getSecondsSinceEpoch can return: a time_t is a signed 64-bit number, difftime turns
   * it into a double, which may round up to 2^63, and the cast back to size_t keeps it.
   */
  type Seconds = s: nat | s <= 0x8000_0000_0000_0000

  datatype Credential = DeviceKey | DeviceSasToken | X509

  datatype Status = Idle | InProgress | Ok | RefreshRequired | Failure | Timeout

  /** The transport options, in milliseconds. */
  datatype Options = Options(lifetime: Word, refresh: Word, requestTimeout: Word)

  /** A SAS token: the second it was created in, and the lifetime option at that moment. */
  datatype Token = Token(created: Seconds, lifetime: Word)

  /**
   * `puts` and `deletes` count CBS operations whose callback is still to come, and `token`
   * is the latest token created, whether or not CBS took it.
   */
  datatype State = State(
    credential: Credential, status: Status, createTime: Word, putTime: Word,
    puts: nat, deletes: nat, token: Option<Token>)

  /** authentication_create leaves the put time, and for X509 the create time, uninitialised. */
  function Start(credential: Credential, uninitialised: Word): (a: State)
  {
    State(credential, Idle, if credential.X509? then uninitialised else 0, uninitialised, 0, 0, None)
  }

  /** The clock reading in seconds, and which of the calls succeed. */
  datatype Env = Env(clock: Option<Seconds>, memory: bool, signed: bool, put: bool)

  /** Unsigned subtraction. */
  function Minus(a: Word, b: Word): (d: Word)
  {
    (a - b) % WORD
  }

  /** The expiry written into a token; the addition wraps. */
  function Expiry(t: Token): (e: Word)
  {
    (t.created + t.lifetime / 1000) % WORD
  }

  predicate Expired(t: Token, now: Seconds)
  {
    now >= Expiry(t)
  }

  /** handSASTokenToCbs */
  function Put(a: State, now: Seconds, ok: bool): (a': State)
  {
    if ok then a.(status := InProgress, putTime := now, puts := a.puts + 1) else a
  }

  /** authentication_authenticate */
  function Authenticate(a: State, opts: Options, env: Env): (r: (State, bool))
  {
    match a.credential
    case X509 => if a.status == Idle then (a.(status := Ok), true) else (a, false)
    case DeviceKey =>
      if env.clock.None? || !env.memory || !env.signed then (a, false)
      else
        var now := env.clock.value;
        (Put(a.(createTime := now, token := Some(Token(now, opts.lifetime))), now, env.put), env.put)
    case DeviceSasToken =>
      if env.clock.None? || !env.memory then (a, false)
      else (Put(a, env.clock.value, env.put), env.put)
  }

  /** The product is an unsigned one as well. */
  predicate TimedOut(a: State, opts: Options, now: Seconds)
  {
    (Minus(now, a.putTime) * 1000) % WORD >= opts.requestTimeout
  }

  predicate NeedsRefresh(a: State, opts: Options, clock: Option<Seconds>)
  {
    clock.None? || Minus(clock.value, a.createTime) >= opts.refresh / 1000
  }

  /** authentication_get_status */
  function GetStatus(a: State, opts: Options, clock: Option<Seconds>): (a': State)
  {
    if a.status == InProgress && !a.credential.X509? then
      if clock.None? then a.(status := Failure)
      else if TimedOut(a, opts, clock.value) then a.(status := Timeout)
      else a
    else if a.status == Ok && a.credential.DeviceKey? && NeedsRefresh(a, opts, clock) then a.(status := RefreshRequired)
    else a
  }

  /** authentication_refresh */
  function Refresh(a: State, opts: Options, env: Env): (r: (State, bool))
  {
    if a.credential.X509? then (a, true) else Authenticate(a, opts, env)
  }

  /** authentication_reset; `deleted` says that the path was built and cbs_delete_token succeeded. */
  function Reset(a: State, deleted: bool): (r: (State, bool))
  {
    if a.credential.X509? then (a.(status := Idle), true)
    else if a.status == Failure || a.status == RefreshRequired then (a.(status := Idle), true)
    else if a.status != Ok && a.status != InProgress then (a, false)
    else if !deleted then (a, false)
    else (a.(status := Idle, createTime := 0, deletes := a.deletes + 1), true)
  }

  /** on_put_token_complete, for one of the puts still outstanding. */
  function PutDone(a: State, ok: bool): (a': State)
  {
    if a.puts == 0 then a else a.(puts := a.puts - 1, status := if ok then Ok else Failure)
  }

  /** on_delete_token_complete */
  function DeleteDone(a: State, ok: bool): (a': State)
  {
    if a.deletes == 0 then a else a.(deletes := a.deletes - 1, status := if ok then Idle else Failure)
  }

  /** A destroyed CBS instance never calls back. */
  function CbsGone(a: State): (a': State)
  {
    a.(puts := 0, deletes := 0)
  }

  // ---------------------------------------------------------------------------
  // Laws
  // ---------------------------------------------------------------------------

  /** The stored create time is that of the latest token, or zero after a reset deleted it. */
  ghost predicate Tracked(a: State)
  {
    a.credential.DeviceKey? ==>
      && (a.token.Some? ==> a.createTime == a.token.value.created || a.createTime == 0)
      && (a.token.None? ==> a.puts == 0 && a.status != Ok && a.status != InProgress)
  }

  datatype Op =
    | DoAuthenticate(opts: Options, env: Env)
    | DoGetStatus(opts: Options, clock: Option<Seconds>)
    | DoRefresh(opts: Options, env: Env)
    | DoReset(deleted: bool)
    | DoPutDone(ok: bool)
    | DoDeleteDone(ok: bool)
    | DoCbsGone

  function Apply(a: State, op: Op): (a': State)
  {
    match op
    case DoAuthenticate(opts, env) => Authenticate(a, opts, env).0
    case DoGetStatus(opts, clock) => GetStatus(a, opts, clock)
    case DoRefresh(opts, env) => Refresh(a, opts, env).0
    case DoReset(deleted) => Reset(a, deleted).0
    case DoPutDone(ok) => PutDone(a, ok)
    case DoDeleteDone(ok) => DeleteDone(a, ok)
    case DoCbsGone => CbsGone(a)
  }

  function Exec(a: State, ops: seq<Op>): (a': State)
  {
    if ops == [] then a else Apply(Exec(a, ops[..|ops| - 1]), ops[|ops| - 1])
  }

  lemma {:induction false} RunTracked(credential: Credential, uninitialised: Word, ops: seq<Op>)
    ensures Tracked(Exec(Start(credential, uninitialised), ops))
  {
    if ops != [] {
      RunTracked(credential, uninitialised, ops[..|ops| - 1]);
    }
  }

  /** Remaining OK after a status check means the stored create time is less than one refresh interval old. */
  lemma PassesCheck(a: State, opts: Options, clock: Option<Seconds>)
    requires a.credential.DeviceKey? && GetStatus(a, opts, clock).status == Ok
    ensures a.status == Ok && GetStatus(a, opts, clock) == a
    ensures clock.Some? && Minus(clock.value, a.createTime) < opts.refresh / 1000
  {
  }

  lemma MinusIs(a: Word, b: Word)
    ensures Minus(a, b) == if a >= b then a - b else a - b + WORD
  {
    if a < b { assert (a - b + WORD) % WORD == (a - b) % WORD; }
  }

  /** The addition that computes an expiry never wraps, whatever lifetime the options ask for. */
  lemma ExpiryFits(t: Token)
    ensures Expiry(t) == t.created + t.lifetime / 1000
  {
    assert t.lifetime / 1000 <= WORD / 1000;
  }

  /** A status check that reports OK never does so for an expired latest token, whichever way the clock moved. */
  lemma FreshWhenOk(a: State, opts: Options, clock: Option<Seconds>)
    requires Tracked(a) && a.credential.DeviceKey?
    requires GetStatus(a, opts, clock).status == Ok
    requires a.token.Some? && opts.refresh <= a.token.value.lifetime
    ensures clock.Some? && !Expired(a.token.value, clock.value)
  {
    PassesCheck(a, opts, clock);
    MinusIs(clock.value, a.createTime);
    ExpiryFits(a.token.value);
    assert opts.refresh / 1000 <= a.token.value.lifetime / 1000;
  }

  /** Over every run: the latest token is unexpired whenever a status check lets events go out. */
  lemma NeverSendsExpired(uninitialised: Word, ops: seq<Op>, opts: Options, clock: Option<Seconds>)
    requires
      var a := Exec(Start(DeviceKey, uninitialised), ops);
      && GetStatus(a, opts, clock).status == Ok
      && (a.token.Some? ==> opts.refresh <= a.token.value.lifetime)
    ensures
      var a := Exec(Start(DeviceKey, uninitialised), ops);
      a.token.Some? && clock.Some? && !Expired(a.token.value, clock.value)
  {
    var a := Exec(Start(DeviceKey, uninitialised), ops);
    RunTracked(DeviceKey, uninitialised, ops);
    CredentialKept(Start(DeviceKey, uninitialised), ops);
    PassesCheck(a, opts, clock);
    FreshWhenOk(a, opts, clock);
  }

  lemma {:induction false} CredentialKept(a: State, ops: seq<Op>)
    ensures Exec(a, ops).credential == a.credential
  {
    if ops != [] {
      CredentialKept(a, ops[..|ops| - 1]);
    }
  }

  // ---------------------------------------------------------------------------
  // What CBS answered
  // ---------------------------------------------------------------------------

  /** The operation hands a token to CBS. */
  predicate PutsToken(credential: Credential, op: Op)
  {
    && (op.DoAuthenticate? || op.DoRefresh?) && !credential.X509?
    && op.env.clock.Some? && op.env.memory && (credential.DeviceKey? ==> op.env.signed) && op.env.put
  }

  /** How many puts of the run still await their callback. */
  function Awaited(credential: Credential, ops: seq<Op>): (n: nat)
  {
    if ops == [] then 0
    else
      var before, op := Awaited(credential, ops[..|ops| - 1]), ops[|ops| - 1];
      if PutsToken(credential, op) then before + 1
      else if op.DoPutDone? && before > 0 then before - 1
      else if op.DoCbsGone? then 0
      else before
  }

  /** What the last put callback of the run answered, if there was one. */
  function LastAnswer(credential: Credential, ops: seq<Op>): (answer: Option<bool>)
  {
    if ops == [] then None
    else
      var front, op := ops[..|ops| - 1], ops[|ops| - 1];
      if op.DoPutDone? && Awaited(credential, front) > 0 then Some(op.ok) else LastAnswer(credential, front)
  }

  lemma {:induction false} AwaitedIs(credential: Credential, uninitialised: Word, ops: seq<Op>)
    ensures Exec(Start(credential, uninitialised), ops).puts == Awaited(credential, ops)
    ensures Exec(Start(credential, uninitialised), ops).credential == credential
  {
    if ops != [] { AwaitedIs(credential, uninitialised, ops[..|ops| - 1]); }
  }

  /** With a CBS credential the status is OK only while the last answer to a put was that it succeeded. */
  lemma {:induction false} OkMeansAccepted(credential: Credential, uninitialised: Word, ops: seq<Op>)
    requires !credential.X509?
    ensures Exec(Start(credential, uninitialised), ops).status == Ok ==> LastAnswer(credential, ops) == Some(true)
  {
    if ops != [] {
      OkMeansAccepted(credential, uninitialised, ops[..|ops| - 1]);
      AwaitedIs(credential, uninitialised, ops[..|ops| - 1]);
    }
  }

  /** A put callback that was awaited leaves OK exactly if the put succeeded, and FAILURE otherwise. */
  lemma PutAnswered(credential: Credential, uninitialised: Word, ops: seq<Op>, ok: bool)
    requires Awaited(credential, ops) > 0
    ensures
      var a := Exec(Start(credential, uninitialised), ops + [DoPutDone(ok)]);
      a.status == (if ok then Ok else Failure)
  {
    AwaitedIs(credential, uninitialised, ops);
    assert (ops + [DoPutDone(ok)])[..|ops|] == ops;
  }

  /** A delete callback that was awaited leaves IDLE exactly if the delete succeeded, and FAILURE otherwise. */
  lemma DeleteAnswered(credential: Credential, uninitialised: Word, ops: seq<Op>, ok: bool)
    requires Exec(Start(credential, uninitialised), ops).deletes > 0
    ensures
      var a := Exec(Start(credential, uninitialised), ops + [DoDeleteDone(ok)]);
      a.status == (if ok then Idle else Failure)
  {
    assert (ops + [DoDeleteDone(ok)])[..|ops|] == ops;
  }

  /**
   * Authenticating with a CBS credential, when nothing fails, puts a token and waits for the answer;
   * under a device key it is a new token with the lifetime of the options.  With X509 it succeeds
   * exactly from IDLE, and nothing is put.
   */
  lemma AuthenticatePuts(a: State, opts: Options, env: Env)
    ensures
      var (a', ok) := Authenticate(a, opts, env);
      && (!a.credential.X509? ==>
            && ok == PutsToken(a.credential, DoAuthenticate(opts, env))
            && (ok ==> a'.status == InProgress && a'.putTime == env.clock.value && a'.puts == a.puts + 1)
            && (!ok ==> a'.status == a.status && a'.puts == a.puts)
            && (ok && a.credential.DeviceKey? ==> a'.token == Some(Token(env.clock.value, opts.lifetime))))
      && (a.credential.X509? ==> ok == (a.status == Idle) && (ok ==> a'.status == Ok) && a'.puts == a.puts)
  {
  }

  // ---------------------------------------------------------------------------
  // The two time tests, from the caller's side
  // ---------------------------------------------------------------------------

  /** A token is left alone exactly while its age is below the refresh time. */
  lemma RefreshedExactly(a: State, opts: Options, now: Seconds)
    requires a.credential.DeviceKey? && a.status == Ok && a.createTime <= now
    ensures
      GetStatus(a, opts, Some(now)).status ==
      (if now - a.createTime < opts.refresh / 1000 then Ok else RefreshRequired)
  {
    MinusIs(now, a.createTime);
  }

  /** A put times out once the request timeout has passed: what the option promises. */
  ghost predicate TimesOut(a: State, opts: Options, now: Seconds)
    requires a.putTime <= now
  {
    GetStatus(a, opts, Some(now)).status == Timeout <==> (now - a.putTime) * 1000 >= opts.requestTimeout
  }

  /** It keeps that promise exactly when the elapsed milliseconds fit in a size_t, or exceed the timeout wrapped. */
  lemma TimesOutExactly(a: State, opts: Options, now: Seconds)
    requires !a.credential.X509? && a.status == InProgress && a.putTime <= now
    ensures
      var elapsed := (now - a.putTime) * 1000;
      TimesOut(a, opts, now) <==> elapsed < WORD || elapsed % WORD >= opts.requestTimeout
  {
    MinusIs(now, a.putTime);
  }

  /** Some 584 million years after a put the product wraps, and the put does not count as timed out. */
  lemma TimeoutWraps()
    ensures
      var opts := Options(3600000, 1800000, 30000);
      var a := Authenticate(Start(DeviceKey, 0), opts, Env(Some(0), true, true, true)).0;
      a.status == InProgress && a.putTime == 0 && !TimesOut(a, opts, 18446744073709552)
  {
    assert 18446744073709552 * 1000 == WORD + 384;
  }

  /** Reset reaches IDLE, exactly when the status is not TIMEOUT and a needed delete goes through. */
  lemma ResetReachesIdle(a: State, deleted: bool)
    ensures Reset(a, deleted).0.status == Idle <==>
            || a.credential.X509?
            || a.status == Idle || a.status == Failure || a.status == RefreshRequired
            || (deleted && (a.status == Ok || a.status == InProgress))
    ensures a.status == Timeout && !a.credential.X509? ==> Reset(a, deleted) == (a, false)
  {
  }
}
