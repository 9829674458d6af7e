/** Concrete runs from a fresh processor with the default configuration
    (press window 200, long-press delay 700), written out record by record. */
module Scenarios {
  import opened TouchEvents
  import opened Races
  import opened TouchEngine
  import opened Traces

  function Fresh(): Engine {
    Initial(DefaultPressBefore, DefaultLongPressAfter, [])
  }

  /** The first move after a start is measured from the start event. */
  lemma MoveDeltaFromStart(e0: TouchEvent, e1: TouchEvent, dt: nat)
    requires e1.identifier == e0.identifier && dt <= DefaultLongPressAfter
    ensures Run(Fresh(), [Feed("start", e0), Wait(dt), Feed("move", e1)]).touches ==
        [Record(e0.identifier, StartType, e0, None),
         Record(e0.identifier, MoveType, e1, Some(Diff(e0, e1)))]
  {
    var s1 := Apply(Fresh(), Feed("start", e0));
    var s2 := Apply(s1, Wait(dt));
    var s3 := Apply(s2, Feed("move", e1));
    assert ParseKind("start") == Some(Start);
    assert ParseKind("move") == Some(Move);
    assert s1.longPresses == [Race(e0, DefaultLongPressAfter)];
    assert Select(s1.longPresses, DueBefore(dt)) == [];
    assert s2.last == map[e0.identifier := Seen(Start, e0)];
    assert s3.touches == [Record(e0.identifier, StartType, e0, None),
         Record(e0.identifier, MoveType, e1, Some(Diff(e0, e1)))];
    RunCons(s2, Feed("move", e1), []);
    RunCons(s1, Wait(dt), [Feed("move", e1)]);
    RunCons(Fresh(), Feed("start", e0), [Wait(dt), Feed("move", e1)]);
  }

  /** A second move is measured from the first move, not from the start. */
  lemma MoveDeltaFromMove(e0: TouchEvent, e1: TouchEvent, e2: TouchEvent)
    requires e1.identifier == e0.identifier && e2.identifier == e0.identifier
    ensures Run(Fresh(), [Feed("start", e0), Feed("move", e1), Feed("move", e2)]).touches ==
        [Record(e0.identifier, StartType, e0, None),
         Record(e0.identifier, MoveType, e1, Some(Diff(e0, e1))),
         Record(e0.identifier, MoveType, e2, Some(Diff(e1, e2)))]
  {
    var id := e0.identifier;
    var s1 := Apply(Fresh(), Feed("start", e0));
    var s2 := Apply(s1, Feed("move", e1));
    var s3 := Apply(s2, Feed("move", e2));
    FeedIsStep(Fresh(), Start, e0);
    FeedIsStep(s1, Move, e1);
    FeedIsStep(s2, Move, e2);
    assert s1.touches == [Record(id, StartType, e0, None)];
    assert s1.last[id] == Seen(Start, e0);
    assert s2.touches == s1.touches + [Record(id, MoveType, e1, Some(Diff(e0, e1)))];
    assert s2.last[id] == Seen(Move, e1);
    assert s3.touches == s2.touches + [Record(id, MoveType, e2, Some(Diff(e1, e2)))];
    RunThree(Fresh(), Feed("start", e0), Feed("move", e1), Feed("move", e2));
  }

  /** A move after the contact ended gives no move record: a quick tap, then
      a stray move of the same identifier, leaves start, end and press. */
  lemma NoMoveAfterEnd(e0: TouchEvent, e1: TouchEvent, e2: TouchEvent)
    requires e1.identifier == e0.identifier && e2.identifier == e0.identifier
    ensures Run(Fresh(), [Feed("start", e0), Feed("end", e1), Feed("move", e2)]).touches ==
        [Record(e0.identifier, StartType, e0, None),
         Record(e0.identifier, EndType, e1, None),
         Record(e0.identifier, PressType, e1, None)]
  {
    var id := e0.identifier;
    var s1 := Apply(Fresh(), Feed("start", e0));
    var s2 := Apply(s1, Feed("end", e1));
    var s3 := Apply(s2, Feed("move", e2));
    FeedIsStep(Fresh(), Start, e0);
    FeedIsStep(s1, End, e1);
    FeedIsStep(s2, Move, e2);
    assert s1.presses == [Race(e0, DefaultPressBefore)];
    assert Select(Select(s1.presses, IdIs(id)), DueAfter(0)) == [Race(e0, DefaultPressBefore)];
    assert PressRecords([Race(e0, DefaultPressBefore)], e1) == [Record(id, PressType, e1, None)];
    assert s2.touches == [Record(id, StartType, e0, None),
         Record(id, EndType, e1, None),
         Record(id, PressType, e1, None)];
    assert s2.last[id] == Seen(End, e1);
    assert s3.touches == s2.touches + MoveRecords(s2.last, e2) == s2.touches;
    RunThree(Fresh(), Feed("start", e0), Feed("end", e1), Feed("move", e2));
  }

  /** A tap released inside the press window: the end record, then the
      press record carrying the end event; waiting afterwards adds nothing. */
  lemma Tap(e0: TouchEvent, e1: TouchEvent, dt: nat, after: nat)
    requires e1.identifier == e0.identifier && dt < DefaultPressBefore
    ensures Run(Fresh(), [Feed("start", e0), Wait(dt), Feed("end", e1), Wait(after)]).touches ==
        [Record(e0.identifier, StartType, e0, None),
         Record(e0.identifier, EndType, e1, None),
         Record(e0.identifier, PressType, e1, None)]
  {
    var id := e0.identifier;
    var s1 := Apply(Fresh(), Feed("start", e0));
    var s2 := Apply(s1, Wait(dt));
    var s3 := Apply(s2, Feed("end", e1));
    var s4 := Apply(s3, Wait(after));
    assert ParseKind("start") == Some(Start);
    assert ParseKind("end") == Some(End);
    assert s1.presses == [Race(e0, DefaultPressBefore)];
    assert s1.longPresses == [Race(e0, DefaultLongPressAfter)];
    assert Select(s1.longPresses, DueBefore(dt)) == [];
    assert s2.longPresses == [Race(e0, DefaultLongPressAfter)];
    assert s2.presses == [Race(e0, DefaultPressBefore)];
    assert Select(Select(s2.presses, IdIs(id)), DueAfter(dt)) == [Race(e0, DefaultPressBefore)];
    assert PressRecords([Race(e0, DefaultPressBefore)], e1) == [Record(id, PressType, e1, None)];
    SelectNone(s2.longPresses, Not(IdIs(id)));
    assert s3.longPresses == [];
    assert Select(s3.longPresses, DueBefore(dt + after)) == [];
    assert s4.touches == [Record(id, StartType, e0, None),
         Record(id, EndType, e1, None),
         Record(id, PressType, e1, None)];
    RunCons(s3, Wait(after), []);
    RunCons(s2, Feed("end", e1), [Wait(after)]);
    RunCons(s1, Wait(dt), [Feed("end", e1), Wait(after)]);
    RunCons(Fresh(), Feed("start", e0), [Wait(dt), Feed("end", e1), Wait(after)]);
  }

  /** An end at or after the press deadline (and before any long-press)
      gives only the end record: at exactly the deadline the timer wins. */
  lemma LateRelease(e0: TouchEvent, e1: TouchEvent, dt: nat)
    requires e1.identifier == e0.identifier
    requires DefaultPressBefore <= dt <= DefaultLongPressAfter
    ensures Run(Fresh(), [Feed("start", e0), Wait(dt), Feed("end", e1)]).touches ==
        [Record(e0.identifier, StartType, e0, None), Record(e0.identifier, EndType, e1, None)]
  {
    var id := e0.identifier;
    var s1 := Apply(Fresh(), Feed("start", e0));
    var s2 := Apply(s1, Wait(dt));
    var s3 := Apply(s2, Feed("end", e1));
    assert ParseKind("start") == Some(Start);
    assert ParseKind("end") == Some(End);
    assert s1.presses == [Race(e0, DefaultPressBefore)];
    assert s1.longPresses == [Race(e0, DefaultLongPressAfter)];
    assert Select(s1.longPresses, DueBefore(dt)) == [];
    assert s2.presses == [];
    assert Select(Select(s2.presses, IdIs(id)), DueAfter(dt)) == [];
    assert s3.touches == [Record(id, StartType, e0, None), Record(id, EndType, e1, None)];
    RunCons(s2, Feed("end", e1), []);
    RunCons(s1, Wait(dt), [Feed("end", e1)]);
    RunCons(Fresh(), Feed("start", e0), [Wait(dt), Feed("end", e1)]);
  }

  /** A held contact: the long-press record, carrying the start event,
      appears exactly when the clock has passed the delay. */
  lemma Hold(e0: TouchEvent, dt: nat)
    ensures Run(Fresh(), [Feed("start", e0), Wait(dt)]).touches ==
        [Record(e0.identifier, StartType, e0, None)] +
        (if dt > DefaultLongPressAfter then [Record(e0.identifier, LongPressType, e0, None)] else [])
  {
    var id := e0.identifier;
    var s1 := Apply(Fresh(), Feed("start", e0));
    var s2 := Apply(s1, Wait(dt));
    assert ParseKind("start") == Some(Start);
    assert s1.touches == [Record(id, StartType, e0, None)];
    assert s1.longPresses == [Race(e0, DefaultLongPressAfter)];
    if dt > DefaultLongPressAfter {
      assert Select(s1.longPresses, DueBefore(dt)) == [Race(e0, DefaultLongPressAfter)];
      assert LongPressRecords([Race(e0, DefaultLongPressAfter)]) == [Record(id, LongPressType, e0, None)];
    } else {
      assert Select(s1.longPresses, DueBefore(dt)) == [];
    }
    RunCons(s1, Wait(dt), []);
    RunCons(Fresh(), Feed("start", e0), [Wait(dt)]);
  }

  /** A move before the delay cancels the hold; released after the press
      window, the contact leaves start, move and end records only. */
  lemma MoveCancelsHold(e0: TouchEvent, e1: TouchEvent, e2: TouchEvent, d1: nat, d2: nat)
    requires e1.identifier == e0.identifier && e2.identifier == e0.identifier
    requires d1 <= DefaultLongPressAfter && d1 + d2 >= DefaultPressBefore
    ensures Run(Fresh(), [Feed("start", e0), Wait(d1), Feed("move", e1), Wait(d2), Feed("end", e2)]).touches ==
        [Record(e0.identifier, StartType, e0, None),
         Record(e0.identifier, MoveType, e1, Some(Diff(e0, e1))),
         Record(e0.identifier, EndType, e2, None)]
  {
    var id := e0.identifier;
    var s1 := Step(Fresh(), Start, e0);
    var s2 := Advance(s1, d1);
    FeedIsStep(Fresh(), Start, e0);
    assert s1.presses == [Race(e0, DefaultPressBefore)];
    assert s1.longPresses == [Race(e0, DefaultLongPressAfter)];
    AdvanceQuiet(s1, d1);
    assert s2.touches == [Record(id, StartType, e0, None)];
    assert s2.last == map[id := Seen(Start, e0)];
    assert forall x :: x in s2.presses ==> x in s1.presses;
    var rest := [Feed("move", e1), Wait(d2), Feed("end", e2)];
    MoveThenLateEnd(s2, e0, e1, e2, d2);
    RunCons(s1, Wait(d1), rest);
    RunCons(Fresh(), Feed("start", e0), [Wait(d1)] + rest);
    assert [Feed("start", e0)] + ([Wait(d1)] + rest) ==
      [Feed("start", e0), Wait(d1), Feed("move", e1), Wait(d2), Feed("end", e2)];
  }

  /** A move cancels the pending hold; an end once the press window has
      closed adds only its end record. */
  lemma MoveThenLateEnd(s: Engine, e0: TouchEvent, e1: TouchEvent, e2: TouchEvent, d2: nat)
    requires e1.identifier == e0.identifier && e2.identifier == e0.identifier
    requires !s.disposed && s.last == map[e0.identifier := Seen(Start, e0)]
    requires forall x :: x in s.longPresses ==> x.start.identifier == e0.identifier
    requires forall x :: x in s.presses ==> x.due <= s.now + d2
    ensures Run(s, [Feed("move", e1), Wait(d2), Feed("end", e2)]).touches ==
      s.touches + [Record(e0.identifier, MoveType, e1, Some(Diff(e0, e1))),
                   Record(e0.identifier, EndType, e2, None)]
  {
    var id := e0.identifier;
    var s3 := Step(s, Move, e1);
    var s4 := Advance(s3, d2);
    var s5 := Step(s4, End, e2);
    FeedIsStep(s, Move, e1);
    FeedIsStep(s4, End, e2);
    SelectNone(s.longPresses, Not(IdIs(id)));
    assert s3.touches == s.touches + [Record(id, MoveType, e1, Some(Diff(e0, e1)))];
    assert s3.longPresses == [] && s3.presses == s.presses;
    AdvanceQuiet(s3, d2);
    SelectNone(s3.presses, DueAfter(s3.now + d2));
    assert s4.presses == [];
    assert Select(Select(s4.presses, IdIs(id)), DueAfter(s4.now)) == [];
    assert s5.touches == s4.touches + [Record(id, EndType, e2, None)];
    RunThree(s, Feed("move", e1), Wait(d2), Feed("end", e2));
  }

  /** Two contacts race independently: the second contact's tap does not
      cancel the first contact's hold, which fires after the tap's records. */
  lemma TwoContacts(a0: TouchEvent, b0: TouchEvent, b1: TouchEvent, d1: nat, d2: nat)
    requires a0.identifier != b0.identifier && b1.identifier == b0.identifier
    requires d1 < DefaultPressBefore && d1 + d2 > DefaultLongPressAfter
    ensures Run(Fresh(), [Feed("start", a0), Feed("start", b0), Wait(d1), Feed("end", b1), Wait(d2)]).touches ==
        [Record(a0.identifier, StartType, a0, None),
         Record(b0.identifier, StartType, b0, None),
         Record(b0.identifier, EndType, b1, None),
         Record(b0.identifier, PressType, b1, None),
         Record(a0.identifier, LongPressType, a0, None)]
  {
    var s1 := Step(Fresh(), Start, a0);
    var s2 := Step(s1, Start, b0);
    FeedIsStep(Fresh(), Start, a0);
    FeedIsStep(s1, Start, b0);
    assert s2.now == 0 && !s2.disposed;
    assert s2.touches == [Record(a0.identifier, StartType, a0, None), Record(b0.identifier, StartType, b0, None)];
    assert s2.presses == [Race(a0, DefaultPressBefore), Race(b0, DefaultPressBefore)];
    assert s2.longPresses == [Race(a0, DefaultLongPressAfter), Race(b0, DefaultLongPressAfter)];
    var rest := [Wait(d1), Feed("end", b1), Wait(d2)];
    TapBesideHold(s2, a0, b0, b1, d1, d2);
    RunCons(s1, Feed("start", b0), rest);
    RunCons(Fresh(), Feed("start", a0), [Feed("start", b0)] + rest);
    assert [Feed("start", a0)] + ([Feed("start", b0)] + rest) ==
      [Feed("start", a0), Feed("start", b0), Wait(d1), Feed("end", b1), Wait(d2)];
  }

  lemma TapBesideHold(s: Engine, a0: TouchEvent, b0: TouchEvent, b1: TouchEvent, d1: nat, d2: nat)
    requires a0.identifier != b0.identifier && b1.identifier == b0.identifier
    requires d1 < DefaultPressBefore && d1 + d2 > DefaultLongPressAfter
    requires s.now == 0 && !s.disposed
    requires s.presses == [Race(a0, DefaultPressBefore), Race(b0, DefaultPressBefore)]
    requires s.longPresses == [Race(a0, DefaultLongPressAfter), Race(b0, DefaultLongPressAfter)]
    ensures Run(s, [Wait(d1), Feed("end", b1), Wait(d2)]).touches ==
      s.touches + [Record(b0.identifier, EndType, b1, None),
         Record(b0.identifier, PressType, b1, None),
         Record(a0.identifier, LongPressType, a0, None)]
  {
    var s3 := Apply(s, Wait(d1));
    AdvanceQuiet(s, d1);
    SelectAll(s.presses, DueAfter(d1));
    TapBeside(s3, a0, b0, b1);
    var s4 := Apply(s3, Feed("end", b1));
    LateHold(s4, a0, d2);
    RunThree(s, Wait(d1), Feed("end", b1), Wait(d2));
  }

  /** The tap's end resolves its own press race only. */
  lemma TapBeside(s: Engine, a0: TouchEvent, b0: TouchEvent, b1: TouchEvent)
    requires a0.identifier != b0.identifier && b1.identifier == b0.identifier
    requires s.now < DefaultPressBefore && !s.disposed
    requires s.presses == [Race(a0, DefaultPressBefore), Race(b0, DefaultPressBefore)]
    requires s.longPresses == [Race(a0, DefaultLongPressAfter), Race(b0, DefaultLongPressAfter)]
    ensures var r := Apply(s, Feed("end", b1));
      r.touches == s.touches + [Record(b0.identifier, EndType, b1, None), Record(b0.identifier, PressType, b1, None)] &&
      r.longPresses == [Race(a0, DefaultLongPressAfter)] && r.now == s.now && !r.disposed
  {
    var b := b0.identifier;
    var ra := Race(a0, DefaultLongPressAfter);
    var rb := Race(b0, DefaultLongPressAfter);
    var pa := Race(a0, DefaultPressBefore);
    var pb := Race(b0, DefaultPressBefore);
    FeedIsStep(s, End, b1);
    SelectPair(pa, pb, IdIs(b));
    SelectOne(pa, IdIs(b));
    SelectOne(pb, IdIs(b));
    SelectOne(pb, DueAfter(s.now));
    assert PressRecords([pb], b1) == [Record(b, PressType, b1, None)];
    SelectPair(ra, rb, Not(IdIs(b)));
    SelectOne(ra, Not(IdIs(b)));
    SelectOne(rb, Not(IdIs(b)));
  }

  /** The hold left pending fires once the clock passes its delay. */
  lemma LateHold(s: Engine, a0: TouchEvent, d: nat)
    requires s.longPresses == [Race(a0, DefaultLongPressAfter)] && s.now + d > DefaultLongPressAfter
    ensures Apply(s, Wait(d)).touches == s.touches + [Record(a0.identifier, LongPressType, a0, None)]
  {
    SelectOne(Race(a0, DefaultLongPressAfter), DueBefore(s.now + d));
    assert LongPressRecords([Race(a0, DefaultLongPressAfter)]) == [Record(a0.identifier, LongPressType, a0, None)];
  }

  /** An unknown type string appends nothing, and after `end()` neither the
      pending timers nor later events append anything. */
  lemma StoppedIsSilent(e0: TouchEvent, other: string, e1: TouchEvent, dt: nat, late: string, e2: TouchEvent)
    requires ParseKind(other).None?
    ensures Run(Fresh(), [Feed("start", e0), Feed(other, e1), Stop, Wait(dt), Feed(late, e2)]).touches ==
        [Record(e0.identifier, StartType, e0, None)]
  {
    var s1 := Apply(Fresh(), Feed("start", e0));
    var s2 := Apply(s1, Feed(other, e1));
    var s3 := Apply(s2, Stop);
    var s4 := Apply(s3, Wait(dt));
    var s5 := Apply(s4, Feed(late, e2));
    assert ParseKind("start") == Some(Start);
    assert s2 == s1;
    assert s3.longPresses == [];
    assert Select(s3.longPresses, DueBefore(dt)) == [];
    assert s4.disposed;
    assert s5.touches == s1.touches;
    RunCons(s4, Feed(late, e2), []);
    RunCons(s3, Wait(dt), [Feed(late, e2)]);
    RunCons(s2, Stop, [Wait(dt), Feed(late, e2)]);
    RunCons(s1, Feed(other, e1), [Stop, Wait(dt), Feed(late, e2)]);
    RunCons(Fresh(), Feed("start", e0), [Feed(other, e1), Stop, Wait(dt), Feed(late, e2)]);
  }
}
