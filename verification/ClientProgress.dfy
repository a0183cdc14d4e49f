/**
 * The threaded client cannot get stuck: from every reachable state there is a schedule, of steps that
 * are possible, after which Destroy has returned.
 */
module ClientProgress {
  import opened Lists
  import opened ClientThreads

  // ---------------------------------------------------------------------------
  // How far a state is from the end
  // ---------------------------------------------------------------------------

  /** The steps an upload thread still has to take. */
  function StepsLeft(pc: ThreadPc): (n: nat)
  {
    match pc
    case Uploading => 6
    case CallingBack => 5
    case WantsLock => 4
    case HasLock => 3
    case Marked => 2
    case Returning => 1
    case _ => 0
  }

  function Remaining(rs: seq<Record>): (n: nat)
  {
    if rs == [] then 0 else Remaining(rs[..|rs| - 1]) + StepsLeft(rs[|rs| - 1].pc)
  }

  /** The thread can take its next step now. */
  predicate CanMove(r: Record)
  {
    StepsLeft(r.pc) > 0 && (r.pc == WantsLock ==> r.owner == Free)
  }

  function ApiLeft(api: ApiPc): (n: nat)
  {
    match api case Added(_) => 2 case InCall => 1 case NotCalled => 0
  }

  /** A thread waits for the lock of the record that the collector is looking at. */
  ghost predicate Blocking(s: State)
  {
    s.gc.Locked? && s.gc.at < |s.records| && s.records[s.gc.at].pc == WantsLock
  }

  function DestroyLeft(pc: DestroyPc): (n: nat)
  {
    match pc
    case NotBegun => 6
    case Draining => 5
    case Signalled => 4
    case Unlocking => 3
    case JoiningWorker => 2
    case Freeing => 1
    case Done => 0
  }

  /** The collector is past some listed record that it has left on the list. */
  ghost predicate Skipped(s: State)
  {
    !s.gc.Off? && exists i :: i in s.list && i !in s.gc.todo && (s.gc.Walk? || s.gc.at != i)
  }

  function WorkerLeft(s: State): (n: nat)
  {
    if s.destroyer == NotBegun
    then (match s.worker case Checking => 3 case Working => 2 case Collecting => 1 case _ => 0)
    else (match s.worker case Waiting => 2 case Checking => 1 case _ => 0)
  }

  function GcLeft(s: State): (n: nat)
  {
    match s.gc
    case Off => if s.destroyer == Draining && s.list != [] then 8 * |s.list| + 8 else 0
    case Walk(todo) => 8 * |todo| + 1
    case Locked(_, todo) => 8 * |todo| + 7
    case JoiningThread(_, todo) => 8 * |todo| + 6
    case ThreadJoined(_, todo) => 8 * |todo| + 5
    case Unlinked(_, todo) => 8 * |todo| + 4
    case Unlocked(_, todo) => 8 * |todo| + 3
  }

  datatype Distance = Distance(api: nat, threads: nat, blocking: nat, destroy: nat, list: nat, skipped: nat,
                               worker: nat, gc: nat)

  ghost function DistanceOf(s: State): (d: Distance)
  {
    Distance(ApiLeft(s.api), Remaining(s.records), if Blocking(s) then 1 else 0, DestroyLeft(s.destroyer), |s.list|,
             if Skipped(s) then 1 else 0, WorkerLeft(s), GcLeft(s))
  }

  /** Lexicographic order. */
  predicate Closer(a: Distance, b: Distance)
  {
    if a.api != b.api then a.api < b.api
    else if a.threads != b.threads then a.threads < b.threads
    else if a.blocking != b.blocking then a.blocking < b.blocking
    else if a.destroy != b.destroy then a.destroy < b.destroy
    else if a.list != b.list then a.list < b.list
    else if a.skipped != b.skipped then a.skipped < b.skipped
    else if a.worker != b.worker then a.worker < b.worker
    else a.gc < b.gc
  }

  lemma {:induction false} RemainingUpdate(rs: seq<Record>, i: nat, r: Record)
    requires i < |rs|
    ensures Remaining(rs[i := r]) + StepsLeft(rs[i].pc) == Remaining(rs) + StepsLeft(r.pc)
  {
    var n := |rs| - 1;
    if i < n {
      RemainingUpdate(rs[..n], i, r);
      assert rs[i := r][..n] == rs[..n][i := r];
    } else {
      assert rs[i := r][..n] == rs[..n];
    }
  }

  // ---------------------------------------------------------------------------
  // Each kind of step brings the end closer
  // ---------------------------------------------------------------------------

  /** A thread that can move does. */
  lemma ThreadCloser(s: State, i: nat)
    requires i < |s.records| && CanMove(s.records[i])
    ensures Closer(DistanceOf(Apply(s, ThreadStep(i))), DistanceOf(s))
  {
    RemainingUpdate(s.records, i, ThreadNext(s.records[i]));
    hide Remaining;
  }

  lemma ApiCloser(s: State, op: Op)
    requires Inv(s) && (if s.api.Added? then op == ApiCreateThread(true) else s.api == InCall && op == ApiUnlock)
    ensures Closer(DistanceOf(Apply(s, op)), DistanceOf(s))
  {
    hide Remaining, Records;
  }

  /** No thread can take a step. */
  ghost predicate AllStuck(s: State)
  {
    forall i :: 0 <= i < |s.records| ==> !CanMove(s.records[i])
  }

  /** The collector moves on to a record whose lock is free, for nobody who could use it holds it or wants it. */
  lemma WalkCloser(s: State)
    requires Inv(s) && s.api == NotCalled && AllStuck(s) && s.gc.Walk?
    ensures Closer(DistanceOf(StepGc(s)), DistanceOf(s))
  {
    if s.gc.todo == [] {
      assert s.list != [] ==> s.list[0] in s.list;
    } else {
      var i := s.gc.todo[0];
      assert i in s.gc.todo && i in s.list;
      assert RecordGood(s, i);
      RemainingUpdate(s.records, i, s.records[i].(owner := ByCollector));
      hide Remaining;
      assert forall x :: x in s.gc.todo <==> x == i || x in s.gc.todo[1..];
      assert Skipped(StepGc(s)) <==> Skipped(s);
      assert !Blocking(StepGc(s));
    }
  }

  /** A record that is not disposable has a thread that waits for its lock, so letting it go frees that thread. */
  lemma LockedCloser(s: State)
    requires Inv(s) && s.api == NotCalled && AllStuck(s) && s.gc.Locked?
    ensures Closer(DistanceOf(StepGc(s)), DistanceOf(s))
  {
    var i := s.gc.at;
    assert RecordGood(s, i);
    RemainingUpdate(s.records, i, s.records[i].(owner := Free));
    hide Remaining;
  }

  /** The thread to be joined has returned. */
  lemma JoinCloser(s: State)
    requires Inv(s) && s.api == NotCalled && AllStuck(s) && s.gc.JoiningThread?
    ensures Closer(DistanceOf(StepGc(s)), DistanceOf(s))
  {
    var i := s.gc.at;
    assert RecordGood(s, i);
    RemainingUpdate(s.records, i, s.records[i].(pc := Joined));
    hide Remaining;
  }

  lemma {:induction false} WithoutShorter<T>(s: seq<T>, x: T)
    requires x in s
    ensures |Without(s, x)| < |s|
  {
    var n := |s| - 1;
    if s[n] != x {
      assert x in s[..n];
      WithoutShorter(s[..n], x);
    }
  }

  /** The record leaves the list, its lock and the heap. */
  lemma DisposeCloser(s: State)
    requires Inv(s) && (s.gc.ThreadJoined? || s.gc.Unlinked? || s.gc.Unlocked?)
    ensures Closer(DistanceOf(StepGc(s)), DistanceOf(s))
  {
    var i := s.gc.at;
    assert RecordGood(s, i);
    if s.gc.ThreadJoined? { WithoutShorter(s.list, i); }
    RemainingUpdate(s.records, i, s.records[i].(owner := Free));
    RemainingUpdate(s.records, i, s.records[i].(frees := s.records[i].frees + 1));
    hide Remaining, Records, Without;
    assert !s.gc.ThreadJoined? ==> (Skipped(StepGc(s)) <==> Skipped(s));
  }

  lemma GcCloser(s: State)
    requires Inv(s) && s.api == NotCalled && AllStuck(s) && !s.gc.Off?
    ensures Closer(DistanceOf(Apply(s, GcStep)), DistanceOf(s))
  {
    hide Inv, DistanceOf, Closer, AllStuck;
    match s.gc {
      case Walk(_) => WalkCloser(s);
      case Locked(_, _) => LockedCloser(s);
      case JoiningThread(_, _) => JoinCloser(s);
      case _ => DisposeCloser(s);
    }
  }

  /** The step to take when no API call, no thread and no collector can: the worker's or Destroy's. */
  function MainStep(s: State): (op: Op)
  {
    if s.lock == Worker then
      (match s.worker case Checking => WorkerCheck case Working => WorkerDoneWorking case _ => WorkerUnlock)
    else match s.destroyer
      case NotBegun => DestroyLock
      case Draining => DestroyDrain
      case Signalled => DestroyLowLevel
      case Unlocking => DestroyUnlock
      case JoiningWorker => if s.worker == Waiting then WorkerLock else DestroyJoinWorker
      case Freeing => DestroyFree
      case Done => DestroyFree
  }

  lemma MainCloser(s: State)
    requires Inv(s) && s.instance && s.api == NotCalled && s.gc.Off?
    ensures Closer(DistanceOf(Apply(s, MainStep(s))), DistanceOf(s))
  {
    hide Remaining, Records;
  }

  // ---------------------------------------------------------------------------
  // The schedule
  // ---------------------------------------------------------------------------

  lemma {:induction false} ExecFront(s: State, op: Op, ops: seq<Op>)
    ensures Exec(s, [op] + ops) == Exec(Apply(s, op), ops)
    decreases |ops|
  {
    hide Apply;
    var all := [op] + ops;
    if ops == [] {
      assert all[..0] == [] && all[0] == op;
      assert Exec(s, all) == Apply(Exec(s, []), op);
    } else {
      var n := |ops| - 1;
      ExecFront(s, op, ops[..n]);
      assert all[..|all| - 1] == [op] + ops[..n];
    }
  }

  /** Some step brings the end closer. */
  lemma SomeStep(s: State) returns (op: Op)
    requires Inv(s) && s.instance
    ensures Closer(DistanceOf(Apply(s, op)), DistanceOf(s))
  {
    hide Inv, DistanceOf, Closer, Apply, CanMove;
    if s.api != NotCalled {
      op := if s.api.Added? then ApiCreateThread(true) else ApiUnlock;
      ApiCloser(s, op);
    } else if i :| 0 <= i < |s.records| && CanMove(s.records[i]) {
      op := ThreadStep(i);
      ThreadCloser(s, i);
    } else if !s.gc.Off? {
      op := GcStep;
      GcCloser(s);
    } else {
      op := MainStep(s);
      MainCloser(s);
    }
  }

  lemma {:induction false} Finish(s: State) returns (ops: seq<Op>)
    requires Inv(s)
    ensures !Exec(s, ops).instance
    decreases DistanceOf(s).api, DistanceOf(s).threads, DistanceOf(s).blocking, DistanceOf(s).destroy,
              DistanceOf(s).list, DistanceOf(s).skipped, DistanceOf(s).worker, DistanceOf(s).gc
  {
    hide Inv, DistanceOf, Apply;
    ops := [];
    if s.instance {
      var op := SomeStep(s);
      ApplyKeeps(s, op);
      var rest := Finish(Apply(s, op));
      ExecFront(s, op, rest);
      ops := [op] + rest;
    }
  }

  lemma {:induction false} ExecConcat(s: State, a: seq<Op>, b: seq<Op>)
    ensures Exec(s, a + b) == Exec(Exec(s, a), b)
    decreases |b|
  {
    hide Apply;
    if b == [] {
      assert a + b == a;
    } else {
      var n := |b| - 1;
      ExecConcat(s, a, b[..n]);
      assert (a + b)[..|a + b| - 1] == a + b[..n];
    }
  }

  /**
   * However the threads have been interleaved, Destroy can still be brought to its end, and with it every
   * upload thread and the worker: no lock and no join is waited for in vain.
   */
  lemma DestroyCanFinish(ops: seq<Op>) returns (more: seq<Op>)
    ensures !Exec(START, ops + more).instance
  {
    hide Inv, Apply;
    RunKeeps(ops);
    more := Finish(Exec(START, ops));
    ExecConcat(START, ops, more);
  }

  // ---------------------------------------------------------------------------
  // Work gets done
  // ---------------------------------------------------------------------------

  /**
   * While Destroy has not begun and nobody holds the client lock, an upload can be started: afterwards its
   * thread runs on a record of its own, which is on the list to be cleaned, and there is a worker to clean it.
   */
  lemma UploadStarts(ops: seq<Op>)
    requires Exec(START, ops).lock == Nobody && Exec(START, ops).destroyer == NotBegun
    ensures
      var s := Exec(START, ops);
      var s' := Exec(s, [ApiLock, ApiStartWorker(true), ApiAddRecord, ApiCreateThread(true), ApiUnlock]);
      && |s'.records| == |s.records| + 1 && s'.records[..|s.records|] == s.records
      && s'.records[|s.records|] == Record(Uploading, Free, false, 0) && s'.list == s.list + [|s.records|]
      && s'.worker != NotStarted && s'.lock == Nobody
  {
    var s := Exec(START, ops);
    RunKeeps(ops);
    ExecFive(s, ApiLock, ApiStartWorker(true), ApiAddRecord, ApiCreateThread(true), ApiUnlock);
    hide Exec, Records, Walking, Stages;
    var s3 := Apply(Apply(Apply(s, ApiLock), ApiStartWorker(true)), ApiAddRecord);
    assert s3.api == Added(|s.records|) && s3.list == s.list + [|s.records|] && s3.worker != NotStarted;
    assert s3.records == s.records + [Record(NotCreated, Free, false, 0)];
  }

  lemma ExecFive(s: State, a: Op, b: Op, c: Op, d: Op, e: Op)
    ensures Exec(s, [a, b, c, d, e]) == Apply(Apply(Apply(Apply(Apply(s, a), b), c), d), e)
  {
    hide Apply;
    ExecFront(s, a, [b, c, d, e]);
    ExecFront(Apply(s, a), b, [c, d, e]);
    ExecFront(Apply(Apply(s, a), b), c, [d, e]);
    ExecFront(Apply(Apply(Apply(s, a), b), c), d, [e]);
    ExecFront(Apply(Apply(Apply(Apply(s, a), b), c), d), e, []);
    assert [a] + [b, c, d, e] == [a, b, c, d, e] && [b] + [c, d, e] == [b, c, d, e] && [c] + [d, e] == [c, d, e];
    assert [d] + [e] == [d, e] && [e] + [] == [e];
    ExecNone(Apply(Apply(Apply(Apply(Apply(s, a), b), c), d), e));
    hide Exec;
  }

  lemma ExecNone(s: State)
    ensures Exec(s, []) == s
  {
  }

  /** A worker that waits gets to call the low-level DoWork when the lock is free, and exits if it was told to stop. */
  lemma WorkerWorks(ops: seq<Op>)
    requires Exec(START, ops).lock == Nobody && Exec(START, ops).worker == Waiting
    ensures
      var s := Exec(START, ops);
      var s' := Exec(s, [WorkerLock, WorkerCheck]);
      if s.stop then s'.worker == Exited && s'.lock == Nobody else s'.worker == Working
  {
    var s := Exec(START, ops);
    ExecFront(s, WorkerLock, [WorkerCheck]);
    ExecFront(Apply(s, WorkerLock), WorkerCheck, []);
    assert [WorkerCheck] + [] == [WorkerCheck];
    ExecNone(Apply(Apply(s, WorkerLock), WorkerCheck));
    hide Exec;
  }
}
