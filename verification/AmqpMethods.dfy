/**
 * Method requests over AMQP: the array of tracked request handles, edited in place, and
 * who frees each handle.  A handle is named by the serial number of its allocation.
 */
module AmqpMethods {
  import opened Lists

  const SIZE_MAX: nat := 0xFFFF_FFFF_FFFF_FFFF

  // ---------------------------------------------------------------------------
  // The state machine
  // ---------------------------------------------------------------------------

  /** `wrapped` says that the count was decremented below zero; `freed` logs every free in order. */
  datatype State = State(tracked: seq<nat>, issued: nat, freed: seq<nat>, wrapped: bool, live: bool)

  const START := State([], 0, [], false, true)

  /** iothubtransportamqp_methods_respond on a live handle; a response that cannot be sent changes nothing. */
  function Respond(s: State, h: nat, sent: bool): (s': State)
  {
    if h !in s.tracked || !sent then s
    else s.(tracked := Without(s.tracked, h), freed := s.freed + [h])
  }

  /** A response that the request callback attempts before it returns. */
  datatype Response = Response(handle: nat, sent: bool)

  function RespondAll(s: State, rs: seq<Response>): (s': State)
  {
    if rs == [] then s
    else
      var s1 := RespondAll(s, rs[..|rs| - 1]);
      Respond(s1, rs[|rs| - 1].handle, rs[|rs| - 1].sent)
  }

  /**
   * How a received request goes: no memory for a handle; a handle that is freed again
   * because the message cannot be decoded; or a callback that responds and returns.
   */
  datatype Arrival = NoHandle | Undecodable | Delivered(responses: seq<Response>, fails: bool)

  function Track(s: State): (s': State)
  {
    s.(tracked := s.tracked + [s.issued], issued := s.issued + 1)
  }

  /** A failed callback: the handle is freed and the last array element is taken off. */
  function Abandon(s: State, h: nat): (s': State)
  {
    var s1 := s.(freed := s.freed + [h]);
    if s.tracked == [] then s1.(wrapped := true) else s1.(tracked := s.tracked[..|s.tracked| - 1])
  }

  /** on_message_received */
  function Receive(s: State, a: Arrival): (s': State)
  {
    match a
    case NoHandle => s
    case Undecodable => s.(issued := s.issued + 1, freed := s.freed + [s.issued])
    case Delivered(rs, fails) =>
      var s1 := RespondAll(Track(s), rs);
      if fails then Abandon(s1, s.issued) else s1
  }

  /** iothubtransportamqp_methods_destroy */
  function Destroy(s: State): (s': State)
  {
    s.(tracked := [], freed := s.freed + s.tracked, live := false)
  }

  datatype Op = DoReceive(arrival: Arrival) | DoRespond(handle: nat, sent: bool) | DoDestroy

  function Apply(s: State, op: Op): (s': State)
  {
    if !s.live then s
    else match op
      case DoReceive(a) => Receive(s, a)
      case DoRespond(h, sent) => Respond(s, h, sent)
      case DoDestroy => Destroy(s)
  }

  function Exec(s: State, ops: seq<Op>): (s': State)
  {
    if ops == [] then s else Apply(Exec(s, ops[..|ops| - 1]), ops[|ops| - 1])
  }

  // ---------------------------------------------------------------------------
  // Ownership
  // ---------------------------------------------------------------------------

  /** Each allocated handle is either tracked or freed, once and not both. */
  ghost predicate Sound(s: State)
  {
    && !s.wrapped
    && NoDuplicates(s.tracked) && NoDuplicates(s.freed)
    && (forall h :: h in s.tracked ==> h < s.issued && h !in s.freed)
    && (forall h :: h in s.freed ==> h < s.issued)
    && (forall h: nat :: h < s.issued ==> h in s.tracked || h in s.freed)
  }

  lemma RespondSound(s: State, h: nat, sent: bool)
    requires Sound(s)
    ensures Sound(Respond(s, h, sent))
  {
    WithoutMember(s.tracked, h);
    WithoutDistinct(s.tracked, h);
  }

  lemma {:induction false} RespondAllSound(s: State, rs: seq<Response>)
    requires Sound(s)
    ensures Sound(RespondAll(s, rs)) && RespondAll(s, rs).issued == s.issued
    decreases |rs|
  {
    hide Sound;
    if rs != [] {
      RespondAllSound(s, rs[..|rs| - 1]);
      var s1 := RespondAll(s, rs[..|rs| - 1]);
      RespondSound(s1, rs[|rs| - 1].handle, rs[|rs| - 1].sent);
    }
  }

  lemma TrackSound(s: State)
    requires Sound(s)
    ensures Sound(Track(s))
  {
    assert forall k :: 0 <= k < |s.tracked| ==> s.tracked[k] in s.tracked;
  }

  lemma UndecodableSound(s: State)
    requires Sound(s)
    ensures Sound(Receive(s, Undecodable))
  {
    assert forall k :: 0 <= k < |s.freed| ==> s.freed[k] in s.freed;
  }

  /** Whatever else the callback answers, the request's own handle stays last until it is answered. */
  ghost predicate OwnLast(s: State, h: nat)
  {
    h in s.tracked ==> s.tracked[|s.tracked| - 1] == h
  }

  lemma WithoutLast(s: seq<nat>, h: nat, last: nat)
    requires s != [] && s[|s| - 1] == last
    ensures h != last ==> Without(s, h) != [] && Without(s, h)[|Without(s, h)| - 1] == last
    ensures h == last ==> last !in Without(s, h)
  {
    WithoutMember(s, h);
  }

  lemma {:induction false} OwnStaysLast(s: State, rs: seq<Response>, h: nat)
    requires OwnLast(s, h)
    ensures OwnLast(RespondAll(s, rs), h)
    decreases |rs|
  {
    if rs != [] {
      OwnStaysLast(s, rs[..|rs| - 1], h);
      var s1, r := RespondAll(s, rs[..|rs| - 1]), rs[|rs| - 1];
      WithoutMember(s1.tracked, r.handle);
      if h in s1.tracked && r.handle in s1.tracked { WithoutLast(s1.tracked, r.handle, h); }
    }
  }

  /** The callback answers its own request successfully. */
  ghost predicate AnswersItself(h: nat, rs: seq<Response>)
  {
    Response(h, true) in rs
  }

  lemma {:induction false} AnsweredExactly(s: State, rs: seq<Response>, h: nat)
    requires Sound(s) && h in s.tracked
    ensures h in RespondAll(s, rs).tracked <==> !AnswersItself(h, rs)
    decreases |rs|
  {
    if rs != [] {
      var front, r := rs[..|rs| - 1], rs[|rs| - 1];
      AnsweredExactly(s, front, h);
      WithoutMember(RespondAll(s, front).tracked, r.handle);
      assert rs == front + [r];
    }
  }

  lemma AbandonSound(s: State, h: nat)
    requires Sound(s) && OwnLast(s, h) && h < s.issued
    ensures Sound(Abandon(s, h)) <==> h in s.tracked
  {
    if h in s.tracked {
      var front := s.tracked[..|s.tracked| - 1];
      assert s.tracked == front + [h];
      assert forall x :: x in front ==> x in s.tracked && x != h;
    } else {
      var n :| 0 <= n < |s.freed| && s.freed[n] == h;
      var freed := Abandon(s, h).freed;
      assert freed[n] == freed[|s.freed|];
    }
  }

  /**
   * A received request keeps ownership in order, exactly unless its callback answers the
   * request successfully and then reports failure.
   */
  lemma ReceiveSound(s: State, a: Arrival)
    requires Sound(s)
    ensures Sound(Receive(s, a)) <==> !(a.Delivered? && a.fails && AnswersItself(s.issued, a.responses))
  {
    if a.Undecodable? { UndecodableSound(s); }
    if a.Delivered? {
      hide Sound;
      TrackSound(s);
      var s1 := RespondAll(Track(s), a.responses);
      RespondAllSound(Track(s), a.responses);
      OwnStaysLast(Track(s), a.responses, s.issued);
      AnsweredExactly(Track(s), a.responses, s.issued);
      AbandonSound(s1, s.issued);
    }
  }

  /**
   * A delivered request gets a new handle; it stays tracked exactly if the callback neither answers it
   * nor fails, and is freed otherwise.  A request that cannot be decoded frees its handle at once.
   */
  lemma RequestTracked(s: State, a: Arrival)
    requires Sound(s) && Sound(Receive(s, a)) && !a.NoHandle?
    ensures
      var s' := Receive(s, a);
      && s'.issued == s.issued + 1
      && (s.issued in s'.tracked <==> a.Delivered? && !a.fails && !AnswersItself(s.issued, a.responses))
      && (s.issued in s'.freed <==> !(a.Delivered? && !a.fails && !AnswersItself(s.issued, a.responses)))
  {
    if a.Delivered? {
      TrackSound(s);
      RespondAllSound(Track(s), a.responses);
      AnsweredExactly(Track(s), a.responses, s.issued);
      hide RespondAll;
      assert Receive(s, a).issued == s.issued + 1;
      if a.fails { assert s.issued in Receive(s, a).freed; }
    }
  }

  /** Callbacks that never report failure after a successful answer to their own request. */
  ghost predicate Consistent(s: State, ops: seq<Op>)
  {
    ops != [] ==>
      && Consistent(s, ops[..|ops| - 1])
      && (var before, op := Exec(s, ops[..|ops| - 1]), ops[|ops| - 1];
          op.DoReceive? && op.arrival.Delivered? && op.arrival.fails ==>
            !AnswersItself(before.issued, op.arrival.responses))
  }

  lemma DestroySound(s: State)
    requires Sound(s)
    ensures Sound(Destroy(s))
  {
    var all := s.freed + s.tracked;
    assert forall x :: x in all <==> x in s.freed || x in s.tracked;
    forall i, j | 0 <= i < j < |all| ensures all[i] != all[j] {
      assert i < |s.freed| ==> all[i] in s.freed;
      assert j >= |s.freed| ==> all[j] in s.tracked;
    }
  }

  lemma {:induction false} RunSound(ops: seq<Op>)
    requires Consistent(START, ops)
    ensures Sound(Exec(START, ops))
    decreases |ops|
  {
    if ops != [] {
      RunSound(ops[..|ops| - 1]);
      var before, op := Exec(START, ops[..|ops| - 1]), ops[|ops| - 1];
      hide Sound, Receive, Respond, Destroy;
      match op {
        case DoReceive(a) => ReceiveSound(before, a);
        case DoRespond(h, sent) => RespondSound(before, h, sent);
        case DoDestroy => DestroySound(before);
      }
    }
  }

  lemma {:induction false} DeadIsEmpty(ops: seq<Op>)
    ensures !Exec(START, ops).live ==> Exec(START, ops).tracked == []
    ensures DoDestroy in ops ==> !Exec(START, ops).live
    decreases |ops|
  {
    if ops != [] {
      var front, op := ops[..|ops| - 1], ops[|ops| - 1];
      DeadIsEmpty(front);
      assert ops == front + [op];
      KeepsLive(Exec(START, front), op);
    }
  }

  lemma {:induction false} RespondAllLive(s: State, rs: seq<Response>)
    ensures RespondAll(s, rs).live == s.live
  {
    if rs != [] { RespondAllLive(s, rs[..|rs| - 1]); }
  }

  lemma KeepsLive(s: State, op: Op)
    ensures Apply(s, op).live == (s.live && !op.DoDestroy?)
  {
    if op.DoReceive? && op.arrival.Delivered? { RespondAllLive(Track(s), op.arrival.responses); }
  }

  /** Over every such run, each handle is freed at most once, and exactly once when the module is destroyed. */
  lemma FreedExactlyOnce(ops: seq<Op>, h: nat)
    requires Consistent(START, ops) && h < Exec(START, ops).issued
    ensures
      var s := Exec(START, ops);
      && multiset(s.tracked)[h] + multiset(s.freed)[h] == 1
      && (DoDestroy in ops ==> multiset(s.freed)[h] == 1)
  {
    hide Exec;
    RunSound(ops);
    DeadIsEmpty(ops);
    var s := Exec(START, ops);
    if h in s.tracked {
      CountOne(s.tracked, h);
    } else {
      CountOne(s.freed, h);
    }
  }

  lemma CountOne(s: seq<nat>, h: nat)
    requires NoDuplicates(s) && h in s
    ensures multiset(s)[h] == 1
  {
    var k :| 0 <= k < |s| && s[k] == h;
    DistinctCount(s, k);
  }

  /** The transport's own callback: it fails for want of a buffer, or answers and fails only if that did. */
  function TransportCallback(h: nat, buffer: bool, sent: bool): (a: Arrival)
  {
    if !buffer then Delivered([], true) else Delivered([Response(h, sent)], !sent)
  }

  lemma TransportCallbackSound(s: State, buffer: bool, sent: bool)
    requires Sound(s)
    ensures Sound(Receive(s, TransportCallback(s.issued, buffer, sent)))
  {
    hide Receive;
    ReceiveSound(s, TransportCallback(s.issued, buffer, sent));
  }

  /** Answering and then failing frees the handle twice, and takes an unanswered request off the array. */
  lemma DoubleFreeExample()
    ensures
      var s := Track(START);
      var s' := Receive(s, Delivered([Response(1, true)], true));
      && Sound(s) && s'.freed == [1, 1] && s'.tracked == [] && 0 !in s'.freed
  {
    var rs := [Response(1, true)];
    assert rs[..0] == [];
    var two := Track(Track(START));
    assert two.tracked == [0, 1];
    assert RespondAll(two, []) == two;
    assert RespondAll(two, rs) == Respond(two, 1, true);
    assert [0, 1][..1] == [0];
    assert [0][..0] == [];
    assert Without([0], 1) == [0];
    assert Without([0, 1], 1) == [0];
  }

  // ---------------------------------------------------------------------------
  // The array
  // ---------------------------------------------------------------------------

  /** memmove of the elements after `i` one place down. */
  method MoveDown(a: array<nat>, i: nat, count: nat)
    requires i < count <= a.Length
    modifies a
    ensures a[..i] == old(a[..i]) && a[i..count - 1] == old(a[i + 1..count])
  {
    var k := i;
    while k < count - 1
      invariant i <= k <= count - 1
      invariant forall j :: 0 <= j < i ==> a[j] == old(a[j])
      invariant forall j :: i <= j < k ==> a[j] == old(a[j + 1])
      invariant forall j :: k < j < count ==> a[j] == old(a[j])
    {
      a[k] := a[k + 1];
      k := k + 1;
    }
  }

  /** Dropping the handle found at `i` leaves the same elements to keep. */
  lemma WithoutSkips(s: seq<nat>, i: nat, h: nat)
    requires i < |s| && s[i] == h
    ensures Without(s, h) == Without(s[..i] + s[i + 1..], h)
  {
    assert [h][..0] == [];
    assert Without([h], h) == [];
    hide Without;
    assert s == s[..i] + ([h] + s[i + 1..]);
    WithoutConcat(s[..i], [h] + s[i + 1..], h);
    WithoutConcat([h], s[i + 1..], h);
    WithoutConcat(s[..i], s[i + 1..], h);
  }

  /** i-- on a size_t */
  function Decrement(i: nat): (r: nat)
    ensures 0 < i <= SIZE_MAX ==> r == i - 1
    ensures i == 0 ==> r == SIZE_MAX
  {
    (i - 1) % (SIZE_MAX + 1)
  }

  /** i++ on a size_t */
  function Increment(i: nat): (r: nat)
    ensures i < SIZE_MAX ==> r == i + 1
    ensures i == SIZE_MAX ==> r == 0
  {
    (i + 1) % (SIZE_MAX + 1)
  }

  /**
   * The loop of remove_tracked_handle.  The index is a size_t: after a removal at index
   * zero it wraps to SIZE_MAX and the loop's increment brings it back to zero.
   */
  method RemoveTracked(a: array<nat>, count: nat, h: nat) returns (left: nat)
    requires count <= a.Length && count < SIZE_MAX
    modifies a
    ensures left <= count && a[..left] == Without(old(a[..count]), h)
  {
    hide Without;
    left := count;
    var i: nat := 0;
    while i < left
      invariant i <= left <= count
      invariant h !in a[..i]
      invariant Without(a[..left], h) == Without(old(a[..count]), h)
      decreases left - i
    {
      if a[i] == h {
        ghost var before, at := a[..left], i;
        if left - i > 1 { MoveDown(a, i, left); }
        left := left - 1;
        assert a[..left] == a[..i] + a[i..left];
        assert a[..i] == before[..i] && a[i..left] == before[i + 1..];
        WithoutSkips(before, i, h);
        i := Decrement(i);
        assert Increment(i) == at;
      }
      i := Increment(i);
    }
    WithoutAbsent(a[..left], h);
  }

  /** The module instance: a resizable array of handles and its count. */
  class Methods {
    var handles: array<nat>
    var count: nat
    var issued: nat
    var freed: seq<nat>
    var wrapped: bool
    var live: bool

    ghost predicate Valid()
      reads this
    {
      count <= handles.Length && count < SIZE_MAX
    }

    ghost function View(): (s: State)
      requires Valid()
      reads this, handles
    {
      State(handles[..count], issued, freed, wrapped, live)
    }

    constructor ()
      ensures Valid() && fresh(handles) && View() == START
    {
      handles := new nat[0];
      count, issued, freed, wrapped, live := 0, 0, [], false, true;
    }

    /** The array grows by one through realloc. */
    method Append(h: nat)
      requires Valid() && count + 1 < SIZE_MAX
      modifies this`handles, this`count
      ensures Valid() && fresh(handles) && count == old(count) + 1
      ensures handles[..count] == old(handles[..count]) + [h]
    {
      var grown := new nat[count + 1];
      var k: nat := 0;
      while k < count
        invariant k <= count && grown.Length == count + 1 && fresh(grown) && handles == old(handles) &&
            count == old(count)
        invariant grown[..k] == old(handles[..count])[..k]
      {
        grown[k] := handles[k];
        k := k + 1;
      }
      grown[count] := h;
      handles, count := grown, count + 1;
    }

    method RespondTo(h: nat, sent: bool)
      requires Valid() && h in handles[..count]
      modifies this, handles
      ensures Valid() && handles == old(handles) && count <= old(count)
      ensures View() == Respond(old(View()), h, sent)
    {
      if sent {
        count := RemoveTracked(handles, count, h);
        freed := freed + [h];
      }
    }

    /** A callback that answers live handles only, one after the other. */
    method RunCallback(rs: seq<Response>)
      requires Valid()
      modifies this, handles
      ensures Valid() && handles == old(handles) && count <= old(count)
      ensures View() == RespondAll(old(View()), rs)
    {
      var k := 0;
      while k < |rs|
        invariant k <= |rs| && Valid() && handles == old(handles) && count <= old(count)
        invariant View() == RespondAll(old(View()), rs[..k])
      {
        assert rs[..k + 1][..k] == rs[..k];
        if Contains(rs[k].handle) { RespondTo(rs[k].handle, rs[k].sent); }
        k := k + 1;
      }
      assert rs[..k] == rs;
    }

    predicate Contains(h: nat)
      requires Valid()
      reads this, handles
    {
      h in handles[..count]
    }

    /** on_message_received */
    method OnMessageReceived(arrival: Arrival)
      requires Valid() && count + 1 < SIZE_MAX
      modifies this, handles
      ensures Valid() && count <= old(count) + 1 && (handles == old(handles) || fresh(handles))
      ensures View() == Receive(old(View()), arrival)
    {
      match arrival {
        case NoHandle =>
        case Undecodable =>
          freed := freed + [issued];
          issued := issued + 1;
        case Delivered(rs, fails) =>
          var h := issued;
          Append(h);
          issued := issued + 1;
          assert View() == Track(old(View()));
          RunCallback(rs);
          if fails {
            freed := freed + [h];
            if count == 0 {
              wrapped := true;
            } else {
              count := count - 1;
              assert handles[..count] == handles[..count + 1][..count];
            }
          }
      }
    }

    /** iothubtransportamqp_methods_destroy frees what is still tracked. */
    method Close()
      requires Valid()
      modifies this
      ensures Valid() && count == 0 && handles == old(handles) && View() == Destroy(old(View()))
    {
      var i := 0;
      while i < count
        invariant i <= count && Valid() && handles == old(handles) && count == old(count)
        invariant freed == old(freed) + handles[..i] && issued == old(issued) && wrapped == old(wrapped)
      {
        freed := freed + [handles[i]];
        i := i + 1;
      }
      count, live := 0, false;
    }

    method Step(op: Op)
      requires Valid() && count + 1 < SIZE_MAX
      modifies this, handles
      ensures Valid() && count <= old(count) + 1 && (handles == old(handles) || fresh(handles))
      ensures View() == Apply(old(View()), op)
    {
      hide Receive, Respond, Destroy;
      if !live { return; }
      match op {
        case DoReceive(arrival) => OnMessageReceived(arrival);
        case DoRespond(h, sent) =>
          if Contains(h) {
            RespondTo(h, sent);
          } else {
            UntrackedResponse(View(), h, sent);
          }
        case DoDestroy => Close();
      }
    }

    /** Any sequence of requests, responses and destroy is a run of the ownership model. */
    method Run(ops: seq<Op>)
      requires Valid() && count + |ops| < SIZE_MAX
      modifies this, handles
      ensures Valid() && View() == Exec(old(View()), ops)
    {
      hide Apply;
      var k := 0;
      while k < |ops|
        invariant 0 <= k <= |ops| && Valid() && count <= old(count) + k && (handles == old(handles) || fresh(handles))
        invariant View() == Exec(old(View()), ops[..k])
      {
        Step(ops[k]);
        k := k + 1;
        assert ops[..k][..k - 1] == ops[..k - 1];
      }
      assert ops[..k] == ops;
    }
  }

  lemma UntrackedResponse(s: State, h: nat, sent: bool)
    requires h !in s.tracked
    ensures Respond(s, h, sent) == s
  {
  }
}
