/**
 * The threaded client with its own worker: API calls, the worker, upload threads, the
 * garbage collector and Destroy, interleaved step by step under the client lock and one
 * lock per upload record.  Locks and joins always succeed once they are possible.
 */
module ClientThreads {
  import opened Lists

  /** Who holds the client lock. */
  datatype Owner = Nobody | Api | Worker | Destroyer

  /** An upload thread, from its record's allocation to its join. */
  datatype ThreadPc =
    | NotCreated | Uploading | CallingBack | WantsLock | HasLock | Marked | Returning | Returned | Joined
    | CreateFailed

  datatype RecordOwner = Free | ByThread | ByCollector

  /** One UPLOADTOBLOB_SAVED_DATA; `disposable` is its canBeGarbageCollected flag, `frees` counts its deallocations. */
  datatype Record = Record(pc: ThreadPc, owner: RecordOwner, disposable: bool, frees: nat)

  datatype ApiPc = NotCalled | InCall | Added(record: nat)

  datatype WorkerPc = NotStarted | Waiting | Checking | Working | Collecting | Exited

  datatype DestroyPc = NotBegun | Draining | Signalled | Unlocking | JoiningWorker | Freeing | Done

  /** garbageCollectorImpl, run by whoever holds the client lock; `todo` are the items after the current one. */
  datatype Gc =
    | Off
    | Walk(todo: seq<nat>)
    | Locked(at: nat, todo: seq<nat>)
    | JoiningThread(at: nat, todo: seq<nat>)
    | ThreadJoined(at: nat, todo: seq<nat>)
    | Unlinked(at: nat, todo: seq<nat>)
    | Unlocked(at: nat, todo: seq<nat>)

  datatype State = State(
    lock: Owner, api: ApiPc, worker: WorkerPc, destroyer: DestroyPc, gc: Gc,
    list: seq<nat>, records: seq<Record>, stop: bool, lowLevel: bool, instance: bool)

  const START := State(Nobody, NotCalled, NotStarted, NotBegun, Off, [], [], false, true, true)

  /** No API call is made once Destroy has begun. */
  datatype Op =
    | ApiLock
    | ApiStartWorker(ok: bool)
    | ApiAddRecord
    | ApiCreateThread(ok: bool)
    | ApiUnlock
    | ThreadStep(record: nat)
    | WorkerLock
    | WorkerCheck
    | WorkerDoneWorking
    | WorkerUnlock
    | GcStep
    | DestroyLock
    | DestroyDrain
    | DestroyLowLevel
    | DestroyUnlock
    | DestroyJoinWorker
    | DestroyFree

  function SetRecord(s: State, i: nat, r: Record): (s': State)
    requires i < |s.records|
  {
    s.(records := s.records[i := r])
  }

  /** One step of uploadingThread, on its own record; it waits while the collector has the lock. */
  function ThreadNext(r: Record): (r': Record)
  {
    match r.pc
    case Uploading => r.(pc := CallingBack)
    case CallingBack => r.(pc := WantsLock)
    case WantsLock => if r.owner == Free then r.(pc := HasLock, owner := ByThread) else r
    case HasLock => r.(pc := Marked, disposable := true)
    case Marked => r.(pc := Returning, owner := Free)
    case Returning => r.(pc := Returned)
    case _ => r
  }

  function StepThread(s: State, i: nat): (s': State)
  {
    if i < |s.records| then SetRecord(s, i, ThreadNext(s.records[i])) else s
  }

  /** One step of garbageCollectorImpl. */
  function StepGc(s: State): (s': State)
  {
    match s.gc
    case Off => s
    case Walk(todo) =>
      if todo == [] then s.(gc := Off)
      else if todo[0] < |s.records| && s.records[todo[0]].owner == Free then
        SetRecord(s, todo[0], s.records[todo[0]].(owner := ByCollector)).(gc := Locked(todo[0], todo[1..]))
      else s
    case Locked(i, todo) =>
      if i >= |s.records| then s
      else if s.records[i].disposable then s.(gc := JoiningThread(i, todo))
      else SetRecord(s, i, s.records[i].(owner := Free)).(gc := Walk(todo))
    case JoiningThread(i, todo) =>
      if i < |s.records| && s.records[i].pc == Returned
      then SetRecord(s, i, s.records[i].(pc := Joined)).(gc := ThreadJoined(i, todo))
      else s
    case ThreadJoined(i, todo) => s.(list := Without(s.list, i), gc := Unlinked(i, todo))
    case Unlinked(i, todo) =>
      if i >= |s.records| then s
      else SetRecord(s, i, s.records[i].(owner := Free)).(gc := Unlocked(i, todo))
    case Unlocked(i, todo) =>
      if i >= |s.records| then s
      else SetRecord(s, i, s.records[i].(frees := s.records[i].frees + 1)).(gc := Walk(todo))
  }

  function Apply(s: State, op: Op): (s': State)
  {
    match op
    case ApiLock =>
      if s.lock == Nobody && s.destroyer == NotBegun then s.(lock := Api, api := InCall) else s
    case ApiStartWorker(ok) =>
      if s.api == InCall && s.worker == NotStarted
      then s.(stop := false, worker := if ok then Waiting else NotStarted)
      else s
    case ApiAddRecord =>
      if s.api == InCall
      then s.(api := Added(|s.records|), list := s.list + [|s.records|],
              records := s.records + [Record(NotCreated, Free, false, 0)])
      else s
    case ApiCreateThread(ok) =>
      if s.api.Added? && s.api.record < |s.records| then
        var i := s.api.record;
        if ok then SetRecord(s, i, s.records[i].(pc := Uploading)).(api := InCall)
        else
          var failed := s.records[i].(pc := CreateFailed, frees := s.records[i].frees + 1);
          SetRecord(s, i, failed).(list := Without(s.list, i), api := InCall)
      else s
    case ApiUnlock => if s.api == InCall then s.(lock := Nobody, api := NotCalled) else s
    case ThreadStep(i) => StepThread(s, i)
    case WorkerLock => if s.lock == Nobody && s.worker == Waiting then s.(lock := Worker, worker := Checking) else s
    case WorkerCheck =>
      if s.worker == Checking
      then (if s.stop then s.(lock := Nobody, worker := Exited) else s.(worker := Working))
      else s
    case WorkerDoneWorking => if s.worker == Working then s.(worker := Collecting, gc := Walk(s.list)) else s
    case WorkerUnlock => if s.worker == Collecting && s.gc == Off then s.(lock := Nobody, worker := Waiting) else s
    case GcStep => StepGc(s)
    case DestroyLock =>
      if s.lock == Nobody && s.destroyer == NotBegun then s.(lock := Destroyer, destroyer := Draining) else s
    case DestroyDrain =>
      if s.destroyer == Draining && s.gc == Off then
        if s.list != [] then s.(gc := Walk(s.list))
        else s.(destroyer := Signalled, stop := s.stop || s.worker != NotStarted)
      else s
    case DestroyLowLevel => if s.destroyer == Signalled then s.(destroyer := Unlocking, lowLevel := false) else s
    case DestroyUnlock => if s.destroyer == Unlocking then s.(destroyer := JoiningWorker, lock := Nobody) else s
    case DestroyJoinWorker =>
      if s.destroyer == JoiningWorker && (s.worker == NotStarted || s.worker == Exited)
      then s.(destroyer := Freeing)
      else s
    case DestroyFree => if s.destroyer == Freeing then s.(destroyer := Done, instance := false) else s
  }

  function Exec(s: State, ops: seq<Op>): (s': State)
  {
    if ops == [] then s else Apply(Exec(s, ops[..|ops| - 1]), ops[|ops| - 1])
  }

  // ---------------------------------------------------------------------------
  // Invariants
  // ---------------------------------------------------------------------------

  /** The upload thread still needs its record. */
  predicate NeedsRecord(pc: ThreadPc)
  {
    pc == Uploading || pc == CallingBack || pc == WantsLock || pc == HasLock || pc == Marked
  }

  /** Where the collector is, seen from one record. */
  datatype Spot = Elsewhere | AtLocked | AtJoining | AtJoined | AtUnlinked | AtUnlocked

  function SpotOf(gc: Gc, i: nat): (spot: Spot)
  {
    if gc.Off? || gc.Walk? || gc.at != i then Elsewhere
    else match gc
      case Locked(_, _) => AtLocked
      case JoiningThread(_, _) => AtJoining
      case ThreadJoined(_, _) => AtJoined
      case Unlinked(_, _) => AtUnlinked
      case Unlocked(_, _) => AtUnlocked
  }

  /** One record: whether it is listed, where the collector is, and whether an API call is still adding it. */
  ghost predicate Fits(r: Record, listed: bool, spot: Spot, adding: bool)
  {
    && r.frees == (if listed || spot == AtUnlinked || spot == AtUnlocked then 0 else 1)
    && (listed <==> r.pc != CreateFailed && (r.pc == Joined ==> spot == AtJoined))
    && (r.disposable <==> r.pc == Marked || r.pc == Returning || r.pc == Returned || r.pc == Joined)
    && (r.owner == ByThread <==> r.pc == HasLock || r.pc == Marked)
    && (r.owner == ByCollector <==> spot == AtLocked || spot == AtJoining || spot == AtJoined || spot == AtUnlinked)
    && (spot == AtJoining ==> r.disposable && r.pc != Joined)
    && (spot == AtJoined || spot == AtUnlinked || spot == AtUnlocked ==> r.pc == Joined)
    && (r.pc == NotCreated <==> adding)
  }

  ghost predicate RecordGood(s: State, i: nat)
    requires i < |s.records|
  {
    Fits(s.records[i], i in s.list, SpotOf(s.gc, i), s.api == Added(i))
  }

  ghost predicate Records(s: State)
  {
    forall i :: 0 <= i < |s.records| ==> RecordGood(s, i)
  }

  /** The collector's position: what it holds and what is still to do are on the list, without repetition. */
  ghost predicate Walking(s: State)
  {
    && NoDuplicates(s.list) && (forall i :: i in s.list ==> i < |s.records|)
    && (!s.gc.Off? ==> NoDuplicates(s.gc.todo) && forall i :: i in s.gc.todo ==> i in s.list)
    && (!s.gc.Off? && !s.gc.Walk? ==> s.gc.at < |s.records| && s.gc.at !in s.gc.todo)
    && (s.gc.Locked? || s.gc.JoiningThread? || s.gc.ThreadJoined? ==> s.gc.at in s.list)
    && (s.api.Added? ==> s.api.record < |s.records|)
  }

  /** Critical sections and the client lock. */
  ghost predicate Locks(s: State)
  {
    && (s.lock == Api <==> s.api != NotCalled)
    && (s.lock == Worker <==> s.worker == Checking || s.worker == Working || s.worker == Collecting)
    && (s.lock == Destroyer <==> s.destroyer == Draining || s.destroyer == Signalled || s.destroyer == Unlocking)
    && (!s.gc.Off? ==> (s.worker == Collecting || s.destroyer == Draining))
  }

  /** How far Destroy has come. */
  ghost predicate Stages(s: State)
  {
    && (s.destroyer != NotBegun && s.destroyer != Draining ==>
          s.list == [] && s.gc.Off? && (s.worker != NotStarted ==> s.stop))
    && (s.destroyer != NotBegun ==> s.api == NotCalled)
    && (s.lowLevel <==> s.destroyer == NotBegun || s.destroyer == Draining || s.destroyer == Signalled)
    && (s.worker == Working ==> s.destroyer == NotBegun)
    && (s.worker == Collecting ==> s.destroyer == NotBegun)
    && (s.destroyer == Freeing || s.destroyer == Done ==> s.worker == NotStarted || s.worker == Exited)
    && (s.instance <==> s.destroyer != Done)
  }

  ghost predicate Inv(s: State)
  {
    Records(s) && Walking(s) && Locks(s) && Stages(s)
  }

  // ---------------------------------------------------------------------------
  // Preservation
  // ---------------------------------------------------------------------------

  /** A step that leaves the records, the list, the collector and the record being added alone. */
  lemma SameRecords(s: State, s': State)
    requires Records(s) && Walking(s)
    requires s'.records == s.records && s'.list == s.list && s'.gc == s.gc
    requires s'.api == s.api || (!s.api.Added? && !s'.api.Added?)
    ensures Records(s') && Walking(s')
  {
    forall i | 0 <= i < |s'.records| ensures RecordGood(s', i) {
      assert RecordGood(s, i);
    }
  }

  lemma ThreadFits(r: Record, listed: bool, spot: Spot, adding: bool)
    requires Fits(r, listed, spot, adding)
    ensures Fits(ThreadNext(r), listed, spot, adding)
  {
  }

  lemma ThreadKeeps(s: State, i: nat)
    requires Inv(s)
    ensures Inv(StepThread(s, i))
  {
    var s' := StepThread(s, i);
    hide Fits, ThreadNext;
    forall j | 0 <= j < |s'.records| ensures RecordGood(s', j) {
      assert RecordGood(s, j);
      ThreadFits(s.records[j], j in s.list, SpotOf(s.gc, j), s.api == Added(j));
    }
  }

  lemma WalkStarts(s: State, s': State)
    requires Records(s) && Walking(s) && s.gc.Off?
    requires s' == s.(gc := Walk(s.list), worker := s'.worker)
    ensures Records(s') && Walking(s')
  {
    forall j | 0 <= j < |s'.records| ensures RecordGood(s', j) {
      assert RecordGood(s, j);
    }
  }

  /** The record that the collector is at, or turns to. */
  lemma GcHere(s: State, j: nat)
    requires Walking(s) && !s.gc.Off? && j < |s.records| && RecordGood(s, j)
    requires if s.gc.Walk? then s.gc.todo != [] && s.gc.todo[0] == j else s.gc.at == j
    ensures RecordGood(StepGc(s), j)
  {
    if s.gc.ThreadJoined? { WithoutMember(s.list, s.gc.at); }
    hide Without;
    if s.gc.Walk? { assert s.gc.todo[0] in s.list; }
  }

  /** Every other record only sees the collector move. */
  lemma GcElsewhere(s: State, j: nat)
    requires !s.gc.Off? && j < |s.records| && RecordGood(s, j)
    requires if s.gc.Walk? then s.gc.todo == [] || s.gc.todo[0] != j else s.gc.at != j
    ensures RecordGood(StepGc(s), j)
  {
    if s.gc.ThreadJoined? { WithoutMember(s.list, s.gc.at); }
    hide Fits, Without;
  }

  lemma GcRecords(s: State)
    requires Inv(s) && !s.gc.Off?
    ensures Records(StepGc(s))
  {
    var s' := StepGc(s);
    assert |s'.records| == |s.records|;
    hide RecordGood, StepGc;
    forall j | 0 <= j < |s'.records| ensures RecordGood(s', j) {
      if if s.gc.Walk? then s.gc.todo == [] || s.gc.todo[0] != j else s.gc.at != j {
        GcElsewhere(s, j);
      } else {
        GcHere(s, j);
      }
    }
  }

  lemma GcWalking(s: State)
    requires Inv(s) && !s.gc.Off?
    ensures Walking(StepGc(s))
  {
    var s' := StepGc(s);
    if s.gc.ThreadJoined? {
      WithoutMember(s.list, s.gc.at);
      WithoutDistinct(s.list, s.gc.at);
    }
    if s.gc.Walk? && s.gc.todo != [] {
      assert s.gc.todo[0] in s.gc.todo;
      assert forall x :: x in s.gc.todo[1..] ==> x in s.gc.todo;
    }
  }

  lemma GcKeeps(s: State)
    requires Inv(s)
    ensures Inv(StepGc(s))
  {
    if !s.gc.Off? {
      GcRecords(s);
      GcWalking(s);
      GcOutside(s);
    }
  }

  /** Collecting never touches the locks, and happens before Destroy gets past its drain. */
  lemma GcOutside(s: State)
    requires Locks(s) && Stages(s) && !s.gc.Off?
    ensures Locks(StepGc(s)) && Stages(StepGc(s))
  {
  }

  lemma AddKeeps(s: State)
    requires Inv(s) && s.api == InCall
    ensures Inv(Apply(s, ApiAddRecord))
  {
    var s' := Apply(s, ApiAddRecord);
    assert forall k :: 0 <= k < |s.list| ==> s.list[k] in s.list;
    forall j | 0 <= j < |s'.records| ensures RecordGood(s', j) {
      if j < |s.records| { assert RecordGood(s, j); }
    }
  }

  lemma CreateKeeps(s: State, ok: bool)
    requires Inv(s) && s.api.Added?
    ensures Inv(Apply(s, ApiCreateThread(ok)))
  {
    var s' := Apply(s, ApiCreateThread(ok));
    WithoutMember(s.list, s.api.record);
    WithoutDistinct(s.list, s.api.record);
    assert RecordGood(s, s.api.record);
    forall j | 0 <= j < |s'.records| ensures RecordGood(s', j) {
      assert RecordGood(s, j);
    }
  }

  lemma {:induction false} ApplyKeeps(s: State, op: Op)
    requires Inv(s)
    ensures Inv(Apply(s, op))
  {
    match op {
      case ThreadStep(i) => ThreadKeeps(s, i);
      case GcStep => GcKeeps(s);
      case ApiAddRecord => if s.api == InCall { AddKeeps(s); }
      case ApiCreateThread(ok) => if s.api.Added? { CreateKeeps(s, ok); }
      case WorkerDoneWorking =>
        if s.worker == Working { hide RecordGood; WalkStarts(s, Apply(s, op)); }
      case DestroyDrain =>
        hide RecordGood;
        if s.destroyer == Draining && s.gc == Off && s.list != [] {
          WalkStarts(s, Apply(s, op));
        } else {
          SameRecords(s, Apply(s, op));
        }
      case _ =>
        hide RecordGood;
        SameRecords(s, Apply(s, op));
    }
  }

  lemma {:induction false} RunKeeps(ops: seq<Op>)
    ensures Inv(Exec(START, ops))
    decreases |ops|
  {
    if ops != [] {
      RunKeeps(ops[..|ops| - 1]);
      hide Inv, Apply;
      ApplyKeeps(Exec(START, ops[..|ops| - 1]), ops[|ops| - 1]);
    }
  }

  // ---------------------------------------------------------------------------
  // Main results, for every interleaving
  // ---------------------------------------------------------------------------

  /** A record is freed at most once, and only when its thread has been joined or was never created. */
  lemma FreedAfterLastAccess(ops: seq<Op>, i: nat)
    requires i < |Exec(START, ops).records|
    ensures
      var r := Exec(START, ops).records[i];
      && r.frees <= 1
      && (r.frees == 1 ==> r.pc == Joined || r.pc == CreateFailed)
      && (NeedsRecord(r.pc) ==> r.frees == 0)
  {
    hide Exec;
    RunKeeps(ops);
    assert RecordGood(Exec(START, ops), i);
  }

  /** The collector only ever joins a thread that needs no lock any more, so the join cannot block on one. */
  lemma JoinNeedsNoLock(ops: seq<Op>)
    ensures
      var s := Exec(START, ops);
      s.gc.JoiningThread? ==>
        s.gc.at < |s.records| && (s.records[s.gc.at].pc == Returning || s.records[s.gc.at].pc == Returned)
  {
    hide Exec;
    RunKeeps(ops);
    var s := Exec(START, ops);
    if s.gc.JoiningThread? { assert RecordGood(s, s.gc.at); }
  }

  /** Neither an upload thread nor the worker uses the low-level client after it is destroyed. */
  lemma LowLevelInUseIsAlive(ops: seq<Op>)
    ensures
      var s := Exec(START, ops);
      && (forall i :: 0 <= i < |s.records| && s.records[i].pc == Uploading ==> s.lowLevel && s.instance)
      && (s.worker == Working ==> s.lowLevel)
  {
    hide Exec;
    RunKeeps(ops);
    var s := Exec(START, ops);
    forall i | 0 <= i < |s.records| && s.records[i].pc == Uploading ensures s.lowLevel && s.instance {
      assert RecordGood(s, i);
    }
  }

  /** When Destroy has freed the instance, every record was freed exactly once and the worker is gone. */
  lemma DestroyLeavesNothing(ops: seq<Op>)
    requires !Exec(START, ops).instance
    ensures
      var s := Exec(START, ops);
      && (forall i :: 0 <= i < |s.records| ==> s.records[i].frees == 1)
      && (s.worker == NotStarted || s.worker == Exited) && s.lock == Nobody
  {
    hide Exec;
    RunKeeps(ops);
    var s := Exec(START, ops);
    forall i | 0 <= i < |s.records| ensures s.records[i].frees == 1 {
      assert RecordGood(s, i);
    }
  }
}
