/** The state machine that the RxJS pipeline of the default touch processor
    computes, as pure functions over its whole state.

    - `last` replaces `groupBy(identifier)` + `pairwise()`: the previous event of
      each identifier, with the kind it arrived as.
    - `presses` holds the pending `touchPress` races (start event, timeout
      deadline) and `longPresses` the pending `longTouch` races (start event,
      fire time), both in the order their start events arrived.
    - Time is a logical clock `now` that only `Advance` moves.

    Boundary conventions at equal times: a press race whose deadline is reached
    expires before an end fed at that time is seen, so that end loses; a
    long-press due at time t fires only once the clock moves past t, so a move
    or end at exactly t cancels it. */
module TouchEngine {
  import opened TouchEvents
  import opened Races

  /** The defaults of `triggerPressEventBefore` and `triggerLongPressEventAfter`. */
  const DefaultPressBefore: int := 200
  const DefaultLongPressAfter: int := 700

  /** The last event seen for one identifier, with the kind it arrived as
      (the `type` the source stamps onto the event object). */
  datatype Seen = Seen(kind: Kind, event: TouchEvent)

  /** `touches` is the caller's array: entries before `origin` were there when
      the processor was created. */
  datatype Engine = Engine(
    pressBefore: int,
    longPressAfter: int,
    now: int,
    origin: nat,
    touches: seq<Record>,
    last: map<int, Seen>,
    presses: seq<Race>,
    longPresses: seq<Race>,
    disposed: bool)

  /** The state the factory builds: the caller's list as it stands, the
      clock at zero, nothing remembered and no race pending. */
  function Initial(pressBefore: int, longPressAfter: int, touches: seq<Record>): (r: Engine)
    ensures r.touches == touches && r.origin == |touches| && r.touches[r.origin..] == []
    ensures r.pressBefore == pressBefore && r.longPressAfter == longPressAfter
    ensures r.last == map[] && r.presses == [] && r.longPresses == [] && !r.disposed
  {
    Engine(pressBefore, longPressAfter, 0, |touches|, touches, map[], [], [], false)
  }

  /** What the move composer appends for a move event: a record only when an
      earlier event of the same identifier exists and was not an end; the
      delta leads from that earlier event to this one. (For a start or an end
      the composer only remembers the event.) */
  function MoveRecords(last: map<int, Seen>, e: TouchEvent): (out: seq<Record>)
    ensures |out| <= 1
    ensures out != [] <==> e.identifier in last && last[e.identifier].kind != End
    ensures out != [] ==>
      out[0].id == e.identifier && out[0].recordType == MoveType && out[0].event == e &&
      out[0].delta.Some? &&
      Shift(last[e.identifier].event, out[0].delta.value).(identifier := e.identifier) == e
  {
    var id := e.identifier;
    if id in last && last[id].kind != End
    then [Record(id, MoveType, e, Some(Diff(last[id].event, e)))]
    else []
  }

  /** One press record, carrying the end event, for each race the end wins. */
  function PressRecords(winners: seq<Race>, e: TouchEvent): (out: seq<Record>)
    ensures |out| == |winners|
    ensures forall k :: 0 <= k < |out| ==> out[k] == Record(e.identifier, PressType, e, None)
  {
    if winners == [] then []
    else [Record(e.identifier, PressType, e, None)] + PressRecords(winners[1..], e)
  }

  /** One long-press record, carrying the start event, for each fired race. */
  function LongPressRecords(fired: seq<Race>): (out: seq<Record>)
    ensures |out| == |fired|
    ensures forall k :: 0 <= k < |out| ==>
      out[k] == Record(fired[k].start.identifier, LongPressType, fired[k].start, None)
  {
    if fired == [] then []
    else [Record(fired[0].start.identifier, LongPressType, fired[0].start, None)]
         + LongPressRecords(fired[1..])
  }

  /** One raw event of a known kind at the current time. Subscribers run in
      the order the source subscribes them: for a start, the start grouping,
      then the move composer, then the new press and long-press races; for an
      end, the move composer (which only remembers the event), then the end
      grouping, then the pending press and long-press races. */
  function Step(s: Engine, k: Kind, e: TouchEvent): (r: Engine)
    ensures s.touches <= r.touches
    ensures r.now == s.now && r.origin == s.origin && r.disposed == s.disposed
    ensures r.pressBefore == s.pressBefore && r.longPressAfter == s.longPressAfter
    ensures s.disposed ==> r == s
    ensures !s.disposed ==> r.last == s.last[e.identifier := Seen(k, e)]
  {
    if s.disposed then s
    else
      var id := e.identifier;
      var s1 := s.(last := s.last[id := Seen(k, e)]);
      match k
      case Start =>
        s1.(touches := s.touches + [Record(id, StartType, e, None)],
            presses := s.presses + [Race(e, s.now + s.pressBefore)],
            longPresses := s.longPresses + [Race(e, s.now + s.longPressAfter)])
      case Move =>
        s1.(touches := s.touches + MoveRecords(s.last, e),
            longPresses := Select(s.longPresses, Not(IdIs(id))))
      case End =>
        s1.(touches := s.touches + [Record(id, EndType, e, None)]
                       + PressRecords(Select(Select(s.presses, IdIs(id)), DueAfter(s.now)), e),
            presses := Select(s.presses, Not(IdIs(id))),
            longPresses := Select(s.longPresses, Not(IdIs(id))))
  }

  /** `process(type, event)`: a known type string performs its kind's step;
      any other string changes nothing. */
  function Dispatch(s: Engine, typeName: string, e: TouchEvent): (r: Engine)
    ensures ParseKind(typeName).None? ==> r == s
    ensures ParseKind(typeName).Some? ==> r == Step(s, ParseKind(typeName).value, e)
  {
    match ParseKind(typeName)
    case None => s
    case Some(k) => Step(s, k, e)
  }

  /** The clock moves forward by `dt`: long-presses due before the new time
      fire, in the order their starts arrived; press races whose deadline is
      reached expire without a record. */
  function Advance(s: Engine, dt: nat): (r: Engine)
    ensures s.touches <= r.touches
    ensures r.now == s.now + dt && r.origin == s.origin && r.disposed == s.disposed
    ensures r.pressBefore == s.pressBefore && r.longPressAfter == s.longPressAfter
    ensures r.last == s.last
  {
    var t := s.now + dt;
    s.(now := t,
       touches := s.touches + LongPressRecords(Select(s.longPresses, DueBefore(t))),
       longPresses := Select(s.longPresses, Not(DueBefore(t))),
       presses := Select(s.presses, DueAfter(t)))
  }

  /** `end()`: every pending race and all per-identifier state is dropped. */
  function Teardown(s: Engine): (r: Engine)
    ensures r.touches == s.touches && r.disposed
    ensures r.presses == [] && r.longPresses == []
  {
    s.(disposed := true, last := map[], presses := [], longPresses := [])
  }

  /** The number of records of type `t` and identifier `i` in `out`. */
  function Tally(out: seq<Record>, t: RecordType, i: int): nat {
    if out == [] then 0
    else (if out[0].recordType == t && out[0].id == i then 1 else 0) + Tally(out[1..], t, i)
  }

  /** For identifier `i`, the press records appended plus the press races still
      pending never exceed the start records appended; likewise for
      long-presses. So each start yields at most one press and at most one
      long-press. */
  ghost predicate Accounted(s: Engine, i: int)
    requires s.origin <= |s.touches|
  {
    var out := s.touches[s.origin..];
    Tally(out, PressType, i) + CountOf(s.presses, i) <= Tally(out, StartType, i) &&
    Tally(out, LongPressType, i) + CountOf(s.longPresses, i) <= Tally(out, StartType, i)
  }

  /** The invariant every reachable state keeps. */
  ghost predicate Inv(s: Engine) {
    s.pressBefore > 0 && s.longPressAfter > 0 &&
    s.origin <= |s.touches| &&
    // a pending press race has not reached its deadline
    (forall r :: r in s.presses ==> s.now < r.due) &&
    // a pending long-press race has not passed its fire time
    (forall r :: r in s.longPresses ==> s.now <= r.due) &&
    (forall i :: i in s.last ==> s.last[i].event.identifier == i) &&
    (s.disposed ==> s.presses == [] && s.longPresses == [] && s.last == map[]) &&
    (forall i :: Accounted(s, i))
  }

  lemma {:induction false} TallyAppend(a: seq<Record>, b: seq<Record>, t: RecordType, i: int)
    ensures Tally(a + b, t, i) == Tally(a, t, i) + Tally(b, t, i)
  {
    if a == [] {
      assert a + b == b;
    } else {
      assert (a + b)[1..] == a[1..] + b;
      TallyAppend(a[1..], b, t, i);
    }
  }

  lemma {:induction false} TallyPressRecords(w: seq<Race>, e: TouchEvent, t: RecordType, i: int)
    ensures Tally(PressRecords(w, e), t, i) ==
            if t == PressType && i == e.identifier then |w| else 0
  {
    if w != [] {
      TallyPressRecords(w[1..], e, t, i);
    }
  }

  lemma {:induction false} TallyLongPressRecords(f: seq<Race>, t: RecordType, i: int)
    ensures Tally(LongPressRecords(f), t, i) ==
            if t == LongPressType then CountOf(f, i) else 0
  {
    if f != [] {
      TallyLongPressRecords(f[1..], t, i);
    }
  }

  lemma InitialInv(pressBefore: int, longPressAfter: int, touches: seq<Record>)
    requires pressBefore > 0 && longPressAfter > 0
    ensures Inv(Initial(pressBefore, longPressAfter, touches))
  {
    var s := Initial(pressBefore, longPressAfter, touches);
    forall i ensures Accounted(s, i) {
      assert s.touches[s.origin..] == [];
    }
  }

  /** The accounting of identifier `i` across one event, given the records
      the event appended and how its races of `i` changed. */
  lemma AccountedAfter(s: Engine, r: Engine, added: seq<Record>, i: int)
    requires s.origin <= |s.touches| && Accounted(s, i)
    requires r.origin == s.origin && r.touches == s.touches + added
    requires Tally(added, PressType, i) + CountOf(r.presses, i)
             <= Tally(added, StartType, i) + CountOf(s.presses, i)
    requires Tally(added, LongPressType, i) + CountOf(r.longPresses, i)
             <= Tally(added, StartType, i) + CountOf(s.longPresses, i)
    ensures Accounted(r, i)
  {
    var out := s.touches[s.origin..];
    assert r.touches[r.origin..] == out + added;
    TallyAppend(out, added, PressType, i);
    TallyAppend(out, added, LongPressType, i);
    TallyAppend(out, added, StartType, i);
  }

  lemma StartInv(s: Engine, e: TouchEvent)
    requires Inv(s) && !s.disposed
    ensures Inv(Step(s, Start, e))
  {
    var r := Step(s, Start, e);
    var added := [Record(e.identifier, StartType, e, None)];
    var p := Race(e, s.now + s.pressBefore);
    var l := Race(e, s.now + s.longPressAfter);
    assert r.touches == s.touches + added;
    assert r.presses == s.presses + [p];
    assert r.longPresses == s.longPresses + [l];
    assert forall x :: x in r.presses ==> r.now < x.due;
    assert forall x :: x in r.longPresses ==> r.now <= x.due;
    assert forall i :: i in r.last ==> r.last[i].event.identifier == i;
    forall i ensures Accounted(r, i) {
      SelectAppend(s.presses, [p], IdIs(i));
      SelectAppend(s.longPresses, [l], IdIs(i));
      AccountedAfter(s, r, added, i);
    }
  }

  lemma MoveInv(s: Engine, e: TouchEvent)
    requires Inv(s) && !s.disposed
    ensures Inv(Step(s, Move, e))
  {
    var r := Step(s, Move, e);
    var added := MoveRecords(s.last, e);
    assert r.touches == s.touches + added;
    forall i ensures Accounted(r, i) {
      WithoutId(s.longPresses, e.identifier, i);
      AccountedAfter(s, r, added, i);
    }
  }

  lemma EndInv(s: Engine, e: TouchEvent)
    requires Inv(s) && !s.disposed
    ensures Inv(Step(s, End, e))
  {
    var r := Step(s, End, e);
    var id := e.identifier;
    var w := Select(Select(s.presses, IdIs(id)), DueAfter(s.now));
    var head := [Record(id, EndType, e, None)];
    var added := head + PressRecords(w, e);
    assert r.touches == s.touches + added;
    forall i ensures Accounted(r, i) {
      TallyAppend(head, PressRecords(w, e), PressType, i);
      TallyAppend(head, PressRecords(w, e), LongPressType, i);
      TallyAppend(head, PressRecords(w, e), StartType, i);
      TallyPressRecords(w, e, PressType, i);
      TallyPressRecords(w, e, LongPressType, i);
      TallyPressRecords(w, e, StartType, i);
      WithoutId(s.presses, id, i);
      WithoutId(s.longPresses, id, i);
      AccountedAfter(s, r, added, i);
    }
  }

  lemma StepInv(s: Engine, k: Kind, e: TouchEvent)
    requires Inv(s)
    ensures Inv(Step(s, k, e))
  {
    if !s.disposed {
      match k
      case Start => StartInv(s, e);
      case Move => MoveInv(s, e);
      case End => EndInv(s, e);
    }
  }

  lemma DispatchInv(s: Engine, typeName: string, e: TouchEvent)
    requires Inv(s)
    ensures Inv(Dispatch(s, typeName, e))
  {
    if ParseKind(typeName).Some? {
      StepInv(s, ParseKind(typeName).value, e);
    }
  }

  lemma AdvanceInv(s: Engine, dt: nat)
    requires Inv(s)
    ensures Inv(Advance(s, dt))
  {
    var r := Advance(s, dt);
    var t := s.now + dt;
    var fired := Select(s.longPresses, DueBefore(t));
    var added := LongPressRecords(fired);
    assert r.touches == s.touches + added;
    assert r.presses == Select(s.presses, DueAfter(t));
    assert r.longPresses == Select(s.longPresses, Not(DueBefore(t)));
    assert forall x :: x in r.presses ==> r.now < x.due;
    assert forall x :: x in r.longPresses ==> r.now <= x.due;
    assert r.last == s.last;
    forall i ensures Accounted(r, i) {
      TallyLongPressRecords(fired, PressType, i);
      TallyLongPressRecords(fired, LongPressType, i);
      TallyLongPressRecords(fired, StartType, i);
      SelectCountOf(s.presses, DueAfter(t), i);
      SplitCountOf(s.longPresses, DueBefore(t), i);
      AccountedAfter(s, r, added, i);
    }
  }

  lemma TeardownInv(s: Engine)
    requires Inv(s)
    ensures Inv(Teardown(s))
  {
    var r := Teardown(s);
    forall i ensures Accounted(r, i) {
      assert Accounted(s, i);
    }
  }

  /** Any type string other than the three known names leaves the whole
      state as it was. */
  lemma UnknownTypeIsNoOp(s: Engine, typeName: string, e: TouchEvent)
    requires forall c: Kind :: KindName(c) != typeName
    ensures Dispatch(s, typeName, e) == s
  {
  }

  /** A start appends exactly its own start record and opens one press race
      (deadline now + triggerPressEventBefore) and one long-press race (fire
      time now + triggerLongPressEventAfter). */
  lemma StartOpensRaces(s: Engine, e: TouchEvent)
    requires !s.disposed
    ensures var r := Step(s, Start, e);
      r.touches == s.touches + [Record(e.identifier, StartType, e, None)] &&
      r.presses == s.presses + [Race(e, s.now + s.pressBefore)] &&
      r.longPresses == s.longPresses + [Race(e, s.now + s.longPressAfter)]
  {
  }

  /** A move appends a record exactly when the identifier's previous event
      exists and is not an end, and that record's delta leads from the previous
      event to this one; all long-press races of the identifier are cancelled
      and press races are untouched. */
  lemma MoveRecordExactly(s: Engine, e: TouchEvent)
    requires Inv(s) && !s.disposed
    ensures var r := Step(s, Move, e);
      var id := e.identifier;
      (r.touches != s.touches <==> id in s.last && s.last[id].kind != End) &&
      (r.touches != s.touches ==>
        |r.touches| == |s.touches| + 1 &&
        r.touches[|s.touches|] == Record(id, MoveType, e, Some(Diff(s.last[id].event, e))) &&
        Shift(s.last[id].event, r.touches[|s.touches|].delta.value) == e) &&
      r.presses == s.presses &&
      CountOf(r.longPresses, id) == 0
  {
    var r := Step(s, Move, e);
    var id := e.identifier;
    assert r.touches == s.touches + MoveRecords(s.last, e);
    if r.touches == s.touches {
      assert |MoveRecords(s.last, e)| == 0;
    }
    WithoutId(s.longPresses, id, id);
  }

  /** An end appends its end record and then one press record, carrying the
      end event, for every press race of its identifier still pending (all of
      which are within their deadline), in start order; afterwards no press or
      long-press race of that identifier is pending. */
  lemma EndResolvesRaces(s: Engine, e: TouchEvent)
    requires Inv(s) && !s.disposed
    ensures var r := Step(s, End, e);
      var id := e.identifier;
      r.touches == s.touches + [Record(id, EndType, e, None)]
                   + PressRecords(Select(s.presses, IdIs(id)), e) &&
      CountOf(r.presses, id) == 0 && CountOf(r.longPresses, id) == 0
  {
    var id := e.identifier;
    SelectAll(Select(s.presses, IdIs(id)), DueAfter(s.now));
    WithoutId(s.presses, id, id);
    WithoutId(s.longPresses, id, id);
  }

  /** An event of identifier j neither adds, removes nor resolves a race of
      another identifier i, leaves i's previous event alone, and appends only
      records of identifier j. */
  lemma OtherIdentifiersUnaffected(s: Engine, k: Kind, e: TouchEvent, i: int)
    requires e.identifier != i
    ensures var r := Step(s, k, e);
      Select(r.presses, IdIs(i)) == Select(s.presses, IdIs(i)) &&
      Select(r.longPresses, IdIs(i)) == Select(s.longPresses, IdIs(i)) &&
      (i in r.last <==> i in s.last) &&
      (i in s.last ==> r.last[i] == s.last[i]) &&
      forall x :: x in r.touches[|s.touches|..] ==> x.id == e.identifier
  {
    if !s.disposed {
      var r := Step(s, k, e);
      var id := e.identifier;
      assert r.last == s.last[id := Seen(k, e)];
      match k
      case Start =>
        SelectAppend(s.presses, [Race(e, s.now + s.pressBefore)], IdIs(i));
        SelectAppend(s.longPresses, [Race(e, s.now + s.longPressAfter)], IdIs(i));
        assert r.touches[|s.touches|..] == [Record(id, StartType, e, None)];
      case Move =>
        WithoutId(s.longPresses, id, i);
        assert r.touches[|s.touches|..] == MoveRecords(s.last, e);
      case End =>
        WithoutId(s.presses, id, i);
        WithoutId(s.longPresses, id, i);
        EndRecordsCarryId(s, e);
    }
  }

  lemma EndRecordsCarryId(s: Engine, e: TouchEvent)
    requires !s.disposed
    ensures forall x :: x in Step(s, End, e).touches[|s.touches|..] ==> x.id == e.identifier
  {
    var id := e.identifier;
    var tail := PressRecords(Select(Select(s.presses, IdIs(id)), DueAfter(s.now)), e);
    assert Step(s, End, e).touches[|s.touches|..] == [Record(id, EndType, e, None)] + tail;
  }

  /** Moving the clock fires every long-press due before the new time: its
      record, carrying the start event, is appended and it is no longer
      pending. */
  lemma AdvanceFiresLongPresses(s: Engine, dt: nat)
    ensures var r := Advance(s, dt);
      forall x :: x in s.longPresses && x.due < s.now + dt ==>
        x !in r.longPresses &&
        Record(x.start.identifier, LongPressType, x.start, None) in r.touches[|s.touches|..]
  {
    var r := Advance(s, dt);
    var t := s.now + dt;
    var fired := Select(s.longPresses, DueBefore(t));
    var added := LongPressRecords(fired);
    assert r.touches[|s.touches|..] == added;
    forall x | x in s.longPresses && x.due < t
      ensures Record(x.start.identifier, LongPressType, x.start, None) in added
    {
      assert x in fired;
      var k :| 0 <= k < |fired| && fired[k] == x;
      assert added[k] == Record(x.start.identifier, LongPressType, x.start, None);
    }
  }

  /** Moving the clock keeps a long-press pending exactly when it is not due
      before the new time, and a press race exactly when its deadline lies
      after the new time; it appends nothing but long-press records. */
  lemma AdvanceKeepsRaces(s: Engine, dt: nat)
    ensures var r := Advance(s, dt);
      (forall x :: x in s.longPresses ==> (x in r.longPresses <==> x.due >= s.now + dt)) &&
      (forall x :: x in s.presses ==> (x in r.presses <==> x.due > s.now + dt)) &&
      (forall y :: y in r.touches[|s.touches|..] ==> y.recordType == LongPressType)
  {
    var r := Advance(s, dt);
    var t := s.now + dt;
    var fired := Select(s.longPresses, DueBefore(t));
    assert r.touches[|s.touches|..] == LongPressRecords(fired);
  }

  /** While no long-press is due before the new time, the clock moving
      appends nothing and keeps every pending long-press. */
  lemma AdvanceQuiet(s: Engine, dt: nat)
    requires forall x :: x in s.longPresses ==> x.due >= s.now + dt
    ensures Advance(s, dt).touches == s.touches
    ensures Advance(s, dt).longPresses == s.longPresses
  {
    var t := s.now + dt;
    SelectNone(s.longPresses, DueBefore(t));
    SelectAll(s.longPresses, Not(DueBefore(t)));
    assert s.touches + LongPressRecords([]) == s.touches;
  }

  /** After `end()`, `process` changes nothing and the clock moving appends
      nothing: no pending timer survives the teardown. */
  lemma NothingAfterTeardown(s: Engine, typeName: string, e: TouchEvent, dt: nat)
    requires Inv(s) && s.disposed
    ensures Dispatch(s, typeName, e) == s
    ensures Advance(s, dt).touches == s.touches
  {
  }

  /** Calling `end()` twice is the same as calling it once. */
  lemma TeardownIdempotent(s: Engine)
    ensures Teardown(Teardown(s)) == Teardown(s)
  {
  }
}
