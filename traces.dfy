/** Runs of the engine over a sequence of host calls: `process` with a type
    string, the clock moving forward, and `end()`. The properties here relate
    a start to the press or long-press it does or does not produce, however
    many other calls come between. */
module Traces {
  import opened TouchEvents
  import opened Races
  import opened TouchEngine

  datatype Input = Feed(typeName: string, event: TouchEvent) | Wait(dt: nat) | Stop

  function Apply(s: Engine, input: Input): (r: Engine)
    ensures s.touches <= r.touches
    ensures r.origin == s.origin
    ensures r.now == s.now + (if input.Wait? then input.dt else 0)
  {
    match input
    case Feed(n, e) => Dispatch(s, n, e)
    case Wait(dt) => Advance(s, dt)
    case Stop => Teardown(s)
  }

  function Run(s: Engine, ins: seq<Input>): Engine
    decreases |ins|
  {
    if ins == [] then s else Run(Apply(s, ins[0]), ins[1..])
  }

  lemma RunCons(s: Engine, input: Input, rest: seq<Input>)
    ensures Run(s, [input] + rest) == Run(Apply(s, input), rest)
  {
    assert ([input] + rest)[1..] == rest;
  }

  /** Short runs, written out one input at a time. */
  lemma RunTwo(s: Engine, x: Input, y: Input)
    ensures Run(s, [x, y]) == Apply(Apply(s, x), y)
  {
    RunCons(s, x, [y]);
    RunCons(Apply(s, x), y, []);
    assert [x] + [y] == [x, y];
    assert [y] + [] == [y];
  }

  lemma RunThree(s: Engine, x: Input, y: Input, z: Input)
    ensures Run(s, [x, y, z]) == Apply(Apply(Apply(s, x), y), z)
  {
    RunCons(s, x, [y, z]);
    RunTwo(Apply(s, x), y, z);
    assert [x] + [y, z] == [x, y, z];
  }

  /** Feeding the name of a known kind is that kind's step. */
  lemma FeedIsStep(s: Engine, k: Kind, e: TouchEvent)
    ensures Apply(s, Feed(KindName(k), e)) == Step(s, k, e)
  {
    assert ParseKind(KindName(k)) == Some(k);
  }

  /** The time the clock moves forward during `ins`. */
  function TotalWait(ins: seq<Input>): nat {
    if ins == [] then 0
    else (if ins[0].Wait? then ins[0].dt else 0) + TotalWait(ins[1..])
  }

  /** The records appended between state `s` and the later state `r`. */
  function Added(s: Engine, r: Engine): seq<Record>
    requires s.touches <= r.touches
  {
    r.touches[|s.touches|..]
  }

  lemma ApplyInv(s: Engine, input: Input)
    requires Inv(s)
    ensures Inv(Apply(s, input))
  {
    match input
    case Feed(n, e) => DispatchInv(s, n, e);
    case Wait(dt) => AdvanceInv(s, dt);
    case Stop => TeardownInv(s);
  }

  /** Every reachable state keeps the invariant, so at no point has an
      identifier produced more presses or long-presses than starts. */
  lemma {:induction false} RunInv(s: Engine, ins: seq<Input>)
    requires Inv(s)
    ensures Inv(Run(s, ins))
    decreases |ins|
  {
    if ins != [] {
      ApplyInv(s, ins[0]);
      RunInv(Apply(s, ins[0]), ins[1..]);
    }
  }

  /** `touches` is only ever appended to: what was there stays there. */
  lemma {:induction false} RunAppendOnly(s: Engine, ins: seq<Input>)
    ensures s.touches <= Run(s, ins).touches
    ensures Run(s, ins).origin == s.origin
    decreases |ins|
  {
    if ins != [] {
      RunAppendOnly(Apply(s, ins[0]), ins[1..]);
    }
  }

  lemma {:induction false} RunClock(s: Engine, ins: seq<Input>)
    ensures Run(s, ins).now == s.now + TotalWait(ins)
    decreases |ins|
  {
    if ins != [] {
      RunClock(Apply(s, ins[0]), ins[1..]);
    }
  }

  /** After `end()`, whatever the host calls next appends nothing, including
      timers that were pending at teardown. */
  lemma {:induction false} NothingAfterStop(s: Engine, ins: seq<Input>)
    requires Inv(s)
    ensures Run(s, [Stop] + ins).touches == s.touches
  {
    assert ([Stop] + ins)[1..] == ins;
    TeardownInv(s);
    SilentWhenDisposed(Teardown(s), ins);
  }

  lemma {:induction false} SilentWhenDisposed(s: Engine, ins: seq<Input>)
    requires Inv(s) && s.disposed
    ensures Run(s, ins).touches == s.touches
    decreases |ins|
  {
    if ins != [] {
      var s1 := Apply(s, ins[0]);
      assert s1.touches == s.touches && s1.disposed;
      ApplyInv(s, ins[0]);
      SilentWhenDisposed(s1, ins[1..]);
    }
  }

  /** No call reads the output: run on a state whose output list is
      replaced by `t`, it appends the same records after `t` and ends in the
      same state otherwise. */
  lemma ApplyIgnoresTouches(s: Engine, input: Input, t: seq<Record>)
    ensures var r := Apply(s, input);
      Apply(s.(touches := t), input) == r.(touches := t + Added(s, r))
  {
    match input
    case Feed(n, e) =>
      if ParseKind(n).Some? {
        StepIgnoresTouches(s, ParseKind(n).value, e, t);
      } else {
        assert Added(s, s) == [];
      }
    case Wait(dt) =>
      AdvanceIgnoresTouches(s, dt, t);
    case Stop =>
      assert Added(s, Teardown(s)) == [];
  }

  lemma AdvanceIgnoresTouches(s: Engine, dt: nat, t: seq<Record>)
    ensures var r := Advance(s, dt);
      Advance(s.(touches := t), dt) == r.(touches := t + r.touches[|s.touches|..])
  {
    var r := Advance(s, dt);
    assert r.touches[|s.touches|..] == LongPressRecords(Select(s.longPresses, DueBefore(s.now + dt)));
  }

  lemma StepIgnoresTouches(s: Engine, k: Kind, e: TouchEvent, t: seq<Record>)
    ensures var r := Step(s, k, e);
      Step(s.(touches := t), k, e) == r.(touches := t + r.touches[|s.touches|..])
  {
    var r := Step(s, k, e);
    var id := e.identifier;
    if s.disposed {
      assert r.touches[|s.touches|..] == [];
    } else {
      match k
      case Start =>
        assert r.touches[|s.touches|..] == [Record(id, StartType, e, None)];
      case Move =>
        assert r.touches[|s.touches|..] == MoveRecords(s.last, e);
      case End =>
        var w := PressRecords(Select(Select(s.presses, IdIs(id)), DueAfter(s.now)), e);
        assert r.touches == s.touches + ([Record(id, EndType, e, None)] + w);
        assert r.touches[|s.touches|..] == [Record(id, EndType, e, None)] + w;
        assert t + [Record(id, EndType, e, None)] + w == t + ([Record(id, EndType, e, None)] + w);
    }
  }

  /** The same over any call sequence: what the processor appends never
      depends on what the list already held. */
  lemma {:induction false} RunIgnoresTouches(s: Engine, ins: seq<Input>, t: seq<Record>)
    ensures s.touches <= Run(s, ins).touches
    ensures var r := Run(s, ins);
      Run(s.(touches := t), ins) == r.(touches := t + Added(s, r))
    decreases |ins|
  {
    RunAppendOnly(s, ins);
    if ins != [] {
      var s1 := Apply(s, ins[0]);
      var r := Run(s, ins);
      ApplyIgnoresTouches(s, ins[0], t);
      var t1 := t + Added(s, s1);
      assert Apply(s.(touches := t), ins[0]) == s1.(touches := t1);
      RunIgnoresTouches(s1, ins[1..], t1);
      RunAppendOnly(s1, ins[1..]);
      AddedConcat(s, s1, r);
      assert t1 + Added(s1, r) == t + Added(s, r);
    }
  }

  /** `input` is `process(name, e)` for an event `e` of identifier `i`. */
  predicate Feeds(input: Input, name: string, i: int) {
    input.Feed? && input.typeName == name && input.event.identifier == i
  }

  lemma {:induction false} RunConcat(s: Engine, a: seq<Input>, b: seq<Input>)
    ensures Run(s, a + b) == Run(Run(s, a), b)
    decreases |a|
  {
    if a == [] {
      assert a + b == b;
    } else {
      assert (a + b)[1..] == a[1..] + b;
      RunConcat(Apply(s, a[0]), a[1..], b);
    }
  }

  lemma AddedConcat(s: Engine, m: Engine, r: Engine)
    requires s.touches <= m.touches <= r.touches
    ensures Added(s, r) == Added(s, m) + Added(m, r)
  {
  }

  lemma {:induction false} TallyAbsent(out: seq<Record>, t: RecordType, i: int)
    requires forall y :: y in out ==> !(y.recordType == t && y.id == i)
    ensures Tally(out, t, i) == 0
  {
    if out != [] {
      assert out[0] in out;
      assert forall y :: y in out[1..] ==> y in out;
      TallyAbsent(out[1..], t, i);
    }
  }

  /** Where records come from: a start record only from a start, a press
      record only from an end of the same identifier, a long-press record
      only from the clock moving. */
  lemma ApplyAdds(s: Engine, input: Input)
    ensures var added := Added(s, Apply(s, input));
      forall y :: y in added ==>
        (y.recordType == StartType ==> Feeds(input, "start", y.id)) &&
        (y.recordType == PressType ==> Feeds(input, "end", y.id)) &&
        (y.recordType == LongPressType ==> input.Wait?)
  {
    var r := Apply(s, input);
    match input
    case Feed(n, e) =>
      if ParseKind(n).None? || s.disposed {
        assert r.touches == s.touches;
      } else {
        var id := e.identifier;
        match ParseKind(n).value
        case Start =>
          assert Added(s, r) == [Record(id, StartType, e, None)];
        case Move =>
          assert Added(s, r) == MoveRecords(s.last, e);
        case End =>
          var tail := PressRecords(Select(Select(s.presses, IdIs(id)), DueAfter(s.now)), e);
          assert Added(s, r) == [Record(id, EndType, e, None)] + tail;
      }
    case Wait(dt) =>
      AdvanceKeepsRaces(s, dt);
    case Stop =>
      assert r.touches == s.touches;
  }

  /** A call that is not a start of `i` opens no race of `i`. */
  lemma ApplyOpensNoRace(s: Engine, input: Input, i: int)
    requires !Feeds(input, "start", i)
    ensures forall x :: x in Apply(s, input).presses && x.start.identifier == i ==> x in s.presses
    ensures forall x :: x in Apply(s, input).longPresses && x.start.identifier == i ==> x in s.longPresses
  {
  }

  /** Without a start of `i`, no race of `i` appears. */
  lemma {:induction false} RunOpensNoRace(s: Engine, ins: seq<Input>, i: int)
    requires forall k :: 0 <= k < |ins| ==> !Feeds(ins[k], "start", i)
    ensures forall x :: x in Run(s, ins).presses && x.start.identifier == i ==> x in s.presses
    ensures forall x :: x in Run(s, ins).longPresses && x.start.identifier == i ==> x in s.longPresses
    decreases |ins|
  {
    if ins != [] {
      ApplyOpensNoRace(s, ins[0], i);
      RunOpensNoRace(Apply(s, ins[0]), ins[1..], i);
    }
  }

  /** Without an end of `i`, no press record of `i` is appended. */
  lemma {:induction false} RunNoEndNoPress(s: Engine, ins: seq<Input>, i: int)
    requires forall k :: 0 <= k < |ins| ==> !Feeds(ins[k], "end", i)
    ensures s.touches <= Run(s, ins).touches
    ensures Tally(Added(s, Run(s, ins)), PressType, i) == 0
    decreases |ins|
  {
    RunAppendOnly(s, ins);
    if ins == [] {
      assert Added(s, s) == [];
    } else {
      var s1 := Apply(s, ins[0]);
      ApplyAdds(s, ins[0]);
      TallyAbsent(Added(s, s1), PressType, i);
      RunNoEndNoPress(s1, ins[1..], i);
      AddedConcat(s, s1, Run(s, ins));
      TallyAppend(Added(s, s1), Added(s1, Run(s, ins)), PressType, i);
    }
  }

  /** With no press race of `i` pending and no start of `i` to come, no press
      record of `i` is ever appended. */
  lemma {:induction false} RunNoRaceNoPress(s: Engine, ins: seq<Input>, i: int)
    requires Inv(s) && CountOf(s.presses, i) == 0
    requires forall k :: 0 <= k < |ins| ==> !Feeds(ins[k], "start", i)
    ensures s.touches <= Run(s, ins).touches
    ensures Tally(Added(s, Run(s, ins)), PressType, i) == 0
    decreases |ins|
  {
    RunAppendOnly(s, ins);
    if ins == [] {
      assert Added(s, s) == [];
    } else {
      var s1 := Apply(s, ins[0]);
      ApplyAdds(s, ins[0]);
      if Feeds(ins[0], "end", i) && !s.disposed {
        var e := ins[0].event;
        EndResolvesRaces(s, e);
        assert Select(s.presses, IdIs(i)) == [];
        assert Added(s, s1) == [Record(i, EndType, e, None)];
      }
      TallyAbsent(Added(s, s1), PressType, i);
      ApplyInv(s, ins[0]);
      ApplyOpensNoRace(s, ins[0], i);
      NoRaceOf(s.presses, s1.presses, i);
      RunNoRaceNoPress(s1, ins[1..], i);
      AddedConcat(s, s1, Run(s, ins));
      TallyAppend(Added(s, s1), Added(s1, Run(s, ins)), PressType, i);
    }
  }

  /** If `i` has no race in `a` and every race of `i` in `b` is in `a`, `i`
      has no race in `b`. */
  lemma NoRaceOf(a: seq<Race>, b: seq<Race>, i: int)
    requires CountOf(a, i) == 0
    requires forall x :: x in b && x.start.identifier == i ==> x in a
    ensures CountOf(b, i) == 0
  {
    SelectNone(a, IdIs(i));
    SelectNone(b, IdIs(i));
  }

  /** A call that leaves a pending press race of identifier `i` in place
      (while the clock stays before its deadline): anything but an end of `i`
      and `end()`. */
  predicate SparesPress(input: Input, i: int) {
    !Feeds(input, "end", i) && !input.Stop?
  }

  /** A call that leaves a pending long-press race of `i` in place (while the
      clock does not pass its fire time): anything but a move or an end of
      `i` and `end()`. */
  predicate SparesLongPress(input: Input, i: int) {
    !Feeds(input, "move", i) && !Feeds(input, "end", i) && !input.Stop?
  }

  /** A call that leaves the remembered previous event of `i` in place:
      anything but `process` of a start, a move or an end of `i`, and
      `end()`. */
  predicate SparesLast(input: Input, i: int) {
    !Feeds(input, "start", i) && !Feeds(input, "move", i) && !Feeds(input, "end", i) &&
    !input.Stop?
  }

  /** A call that spares `i` leaves its previous event, and whether the
      processor is disposed, as they were. */
  lemma ApplyKeepsLast(s: Engine, input: Input, i: int)
    requires SparesLast(input, i)
    ensures var r := Apply(s, input);
      r.disposed == s.disposed && (i in r.last <==> i in s.last) &&
      (i in s.last ==> r.last[i] == s.last[i])
  {
    if input.Feed? && !s.disposed {
      match ParseKind(input.typeName)
      case None =>
      case Some(k) =>
        assert input.typeName == KindName(k);
        assert input.event.identifier != i;
    }
  }

  lemma {:induction false} RunKeepsLast(s: Engine, ins: seq<Input>, i: int)
    requires forall k :: 0 <= k < |ins| ==> SparesLast(ins[k], i)
    ensures var r := Run(s, ins);
      r.disposed == s.disposed && (i in r.last <==> i in s.last) &&
      (i in s.last ==> r.last[i] == s.last[i])
    decreases |ins|
  {
    if ins != [] {
      assert SparesLast(ins[0], i);
      ApplyKeepsLast(s, ins[0], i);
      RunKeepsLast(Apply(s, ins[0]), ins[1..], i);
    }
  }

  /** The move composer remembers the previous event of each identifier: after
      `process` of a start, move or end `e`, and any calls that spare `e`'s
      identifier, a move of that identifier appends exactly one move record
      with the delta from `e` when `e` was not an end, and nothing when it
      was. */
  lemma MoveFollowsPrevious(s: Engine, k: Kind, e: TouchEvent, ins: seq<Input>, e2: TouchEvent)
    requires !s.disposed && e2.identifier == e.identifier
    requires forall j :: 0 <= j < |ins| ==> SparesLast(ins[j], e.identifier)
    ensures var m := Run(s, [Feed(KindName(k), e)] + ins);
      var r := Apply(m, Feed("move", e2));
      Added(m, r) ==
        if k == End then []
        else [Record(e.identifier, MoveType, e2, Some(Diff(e, e2)))]
  {
    var id := e.identifier;
    var s1 := Apply(s, Feed(KindName(k), e));
    FeedIsStep(s, k, e);
    assert s1.last[id] == Seen(k, e) && !s1.disposed;
    RunCons(s, Feed(KindName(k), e), ins);
    var m := Run(s1, ins);
    RunKeepsLast(s1, ins, id);
    assert m.last[id] == Seen(k, e) && !m.disposed;
    FeedIsStep(m, Move, e2);
    var r := Apply(m, Feed("move", e2));
    assert r.touches == m.touches + MoveRecords(m.last, e2);
  }

  lemma ApplyKeepsPress(s: Engine, input: Input, x: Race)
    requires x in s.presses && SparesPress(input, x.start.identifier)
    requires input.Wait? ==> s.now + input.dt < x.due
    ensures x in Apply(s, input).presses
  {
    if input.Feed? && ParseKind(input.typeName) == Some(End) && !s.disposed {
      assert input.event.identifier != x.start.identifier;
    }
  }

  lemma ApplyKeepsLongPress(s: Engine, input: Input, x: Race)
    requires x in s.longPresses && SparesLongPress(input, x.start.identifier)
    requires input.Wait? ==> s.now + input.dt <= x.due
    ensures x in Apply(s, input).longPresses
  {
    if input.Feed? && !s.disposed {
      var id := input.event.identifier;
      match ParseKind(input.typeName)
      case None =>
      case Some(k) =>
        assert Apply(s, input) == Step(s, k, input.event);
        if k != Start {
          assert id != x.start.identifier;
          assert Step(s, k, input.event).longPresses == Select(s.longPresses, Not(IdIs(id)));
          assert Holds(Not(IdIs(id)), x);
          assert x in Select(s.longPresses, Not(IdIs(id)));
        }
    }
  }

  lemma {:induction false} PressRacePending(s: Engine, ins: seq<Input>, x: Race)
    requires Inv(s) && x in s.presses
    requires forall k :: 0 <= k < |ins| ==> SparesPress(ins[k], x.start.identifier)
    requires s.now + TotalWait(ins) < x.due
    ensures Inv(Run(s, ins)) && x in Run(s, ins).presses
    decreases |ins|
  {
    if ins != [] {
      assert SparesPress(ins[0], x.start.identifier);
      ApplyKeepsPress(s, ins[0], x);
      ApplyInv(s, ins[0]);
      PressRacePending(Apply(s, ins[0]), ins[1..], x);
    }
  }

  lemma {:induction false} LongPressRacePending(s: Engine, ins: seq<Input>, x: Race)
    requires Inv(s) && x in s.longPresses
    requires forall k :: 0 <= k < |ins| ==> SparesLongPress(ins[k], x.start.identifier)
    requires s.now + TotalWait(ins) <= x.due
    ensures Inv(Run(s, ins)) && x in Run(s, ins).longPresses
    decreases |ins|
  {
    if ins != [] {
      assert SparesLongPress(ins[0], x.start.identifier);
      ApplyKeepsLongPress(s, ins[0], x);
      ApplyInv(s, ins[0]);
      LongPressRacePending(Apply(s, ins[0]), ins[1..], x);
    }
  }

  /** The state right after a start of `e0`. */
  lemma ApplyStart(s: Engine, e0: TouchEvent)
    requires Inv(s) && !s.disposed
    ensures var s1 := Apply(s, Feed("start", e0));
      Inv(s1) && !s1.disposed && s1.now == s.now &&
      s1.pressBefore == s.pressBefore && s1.longPressAfter == s.longPressAfter &&
      Added(s, s1) == [Record(e0.identifier, StartType, e0, None)] &&
      s1.presses == s.presses + [Race(e0, s.now + s.pressBefore)] &&
      s1.longPresses == s.longPresses + [Race(e0, s.now + s.longPressAfter)]
  {
    ApplyInv(s, Feed("start", e0));
    StartOpensRaces(s, e0);
  }

  /** The run of a start, then `ins`, then one more call `last`, split at
      its three parts. */
  lemma SplitRun(s: Engine, e0: TouchEvent, ins: seq<Input>, last: Input)
    ensures var s1 := Apply(s, Feed("start", e0));
      Run(s, [Feed("start", e0)] + ins + [last]) == Apply(Run(s1, ins), last)
  {
    var s1 := Apply(s, Feed("start", e0));
    RunConcat(s, [Feed("start", e0)] + ins, [last]);
    RunConcat(s, [Feed("start", e0)], ins);
    assert Run(s, [Feed("start", e0)]) == s1;
  }

  /** An end of `i` with a press race `x` of `i` pending appends a press
      record carrying the end event. */
  lemma EndWinsPendingPress(s: Engine, e: TouchEvent, x: Race)
    requires Inv(s) && x in s.presses && x.start.identifier == e.identifier
    ensures var r := Apply(s, Feed("end", e));
      s.touches <= r.touches && Record(e.identifier, PressType, e, None) in Added(s, r)
  {
    var i := e.identifier;
    var r := Apply(s, Feed("end", e));
    assert r == Step(s, End, e);
    EndResolvesRaces(s, e);
    var w := Select(s.presses, IdIs(i));
    assert x in w;
    var press := Record(i, PressType, e, None);
    assert PressRecords(w, e)[0] == press;
    assert Added(s, r) == [Record(i, EndType, e, None)] + PressRecords(w, e);
    assert Added(s, r)[1] == press;
  }

  /** Press, one direction: a start of `i`, then calls that spare its press
      race and let less than `triggerPressEventBefore` elapse, then an end of
      `i` appends a press record carrying that end event. */
  lemma QuickEndIsPress(s: Engine, e0: TouchEvent, ins: seq<Input>, e1: TouchEvent)
    requires Inv(s) && !s.disposed
    requires e1.identifier == e0.identifier
    requires forall k :: 0 <= k < |ins| ==> SparesPress(ins[k], e0.identifier)
    requires TotalWait(ins) < s.pressBefore
    ensures var r := Run(s, [Feed("start", e0)] + ins + [Feed("end", e1)]);
      s.touches <= r.touches && Record(e0.identifier, PressType, e1, None) in Added(s, r)
  {
    ApplyStart(s, e0);
    var s1 := Apply(s, Feed("start", e0));
    var x := Race(e0, s.now + s.pressBefore);
    assert x in s1.presses;
    PressRacePending(s1, ins, x);
    RunAppendOnly(s1, ins);
    var s2 := Run(s1, ins);
    SplitRun(s, e0, ins, Feed("end", e1));
    EndWinsPendingPress(s2, e1, x);
    AddedConcat(s, s2, Apply(s2, Feed("end", e1)));
  }

  lemma TallyAcross(s: Engine, m: Engine, r: Engine, t: RecordType, i: int)
    requires s.touches <= m.touches <= r.touches
    ensures Tally(Added(s, r), t, i) == Tally(Added(s, m), t, i) + Tally(Added(m, r), t, i)
  {
    AddedConcat(s, m, r);
    TallyAppend(Added(s, m), Added(m, r), t, i);
  }

  lemma NoneOf(rs: seq<Race>, i: int)
    requires CountOf(rs, i) == 0
    ensures forall x :: x in rs ==> x.start.identifier != i
  {
  }

  /** After a start `x` of `i` is appended to races with none of `i`, `x` is
      the only race of `i`. */
  lemma OnlyRaceOf(rs: seq<Race>, x: Race, i: int)
    requires CountOf(rs, i) == 0 && x.start.identifier == i
    ensures forall y :: y in rs + [x] && y.start.identifier == i ==> y == x
  {
    SelectNone(rs, IdIs(i));
  }

  /** The run of a start followed by `a` and then `b`, split at its parts. */
  lemma SplitRun3(s: Engine, e0: TouchEvent, a: seq<Input>, b: seq<Input>)
    ensures Run(s, [Feed("start", e0)] + a + b) == Run(Run(Apply(s, Feed("start", e0)), a), b)
  {
    RunConcat(s, [Feed("start", e0)] + a, b);
    RunConcat(s, [Feed("start", e0)], a);
    assert Run(s, [Feed("start", e0)]) == Apply(s, Feed("start", e0));
  }

  /** The press race a start opens has expired once its window has elapsed
      without an end of its identifier. */
  lemma PressWindowElapses(s: Engine, e0: TouchEvent, ins: seq<Input>)
    requires Inv(s) && !s.disposed && CountOf(s.presses, e0.identifier) == 0
    requires forall k :: 0 <= k < |ins| ==>
      !Feeds(ins[k], "start", e0.identifier) && !Feeds(ins[k], "end", e0.identifier)
    requires TotalWait(ins) >= s.pressBefore
    ensures var s1 := Apply(s, Feed("start", e0));
      var s2 := Run(s1, ins);
      s.touches <= s1.touches <= s2.touches &&
      Inv(s2) && CountOf(s2.presses, e0.identifier) == 0 &&
      Tally(Added(s, s1), PressType, e0.identifier) == 0 &&
      Tally(Added(s1, s2), PressType, e0.identifier) == 0
  {
    var i := e0.identifier;
    ApplyStart(s, e0);
    var s1 := Apply(s, Feed("start", e0));
    var x := Race(e0, s.now + s.pressBefore);
    OnlyRaceOf(s.presses, x, i);
    RunOpensNoRace(s1, ins, i);
    RunInv(s1, ins);
    RunClock(s1, ins);
    var s2 := Run(s1, ins);
    assert x !in s2.presses;
    SelectNone(s2.presses, IdIs(i));
    RunNoEndNoPress(s1, ins, i);
  }

  /** Press, other direction: if `triggerPressEventBefore` elapses after a
      start of `i` (with no other start of `i` pending or to come) before any
      end of `i`, no press record of `i` is ever appended. */
  lemma LateEndIsNoPress(s: Engine, e0: TouchEvent, ins1: seq<Input>, ins2: seq<Input>)
    requires Inv(s) && !s.disposed && CountOf(s.presses, e0.identifier) == 0
    requires forall k :: 0 <= k < |ins1| ==>
      !Feeds(ins1[k], "start", e0.identifier) && !Feeds(ins1[k], "end", e0.identifier)
    requires TotalWait(ins1) >= s.pressBefore
    requires forall k :: 0 <= k < |ins2| ==> !Feeds(ins2[k], "start", e0.identifier)
    ensures var r := Run(s, [Feed("start", e0)] + ins1 + ins2);
      s.touches <= r.touches && Tally(Added(s, r), PressType, e0.identifier) == 0
  {
    var i := e0.identifier;
    PressWindowElapses(s, e0, ins1);
    var s1 := Apply(s, Feed("start", e0));
    var s2 := Run(s1, ins1);
    RunNoRaceNoPress(s2, ins2, i);
    var r := Run(s2, ins2);
    SplitRun3(s, e0, ins1, ins2);
    TallyAcross(s, s1, s2, PressType, i);
    TallyAcross(s, s2, r, PressType, i);
  }

  /** The clock moving past the fire time of a pending long-press race
      appends a long-press record carrying its start event. */
  lemma ClockFiresPendingLongPress(s: Engine, dt: nat, x: Race)
    requires x in s.longPresses && s.now + dt > x.due
    ensures var r := Apply(s, Wait(dt));
      s.touches <= r.touches &&
      Record(x.start.identifier, LongPressType, x.start, None) in Added(s, r)
  {
    AdvanceFiresLongPresses(s, dt);
  }

  /** Long-press, one direction: a start of `i`, then calls that spare its
      long-press race and keep the clock within `triggerLongPressEventAfter`,
      then the clock moving past that delay appends a long-press record
      carrying the start event. */
  lemma UndisturbedHoldIsLongPress(s: Engine, e0: TouchEvent, ins: seq<Input>, dt: nat)
    requires Inv(s) && !s.disposed
    requires forall k :: 0 <= k < |ins| ==> SparesLongPress(ins[k], e0.identifier)
    requires TotalWait(ins) <= s.longPressAfter < TotalWait(ins) + dt
    ensures var r := Run(s, [Feed("start", e0)] + ins + [Wait(dt)]);
      s.touches <= r.touches && Record(e0.identifier, LongPressType, e0, None) in Added(s, r)
  {
    ApplyStart(s, e0);
    var s1 := Apply(s, Feed("start", e0));
    var x := Race(e0, s.now + s.longPressAfter);
    assert x in s1.longPresses;
    LongPressRacePending(s1, ins, x);
    RunClock(s1, ins);
    RunAppendOnly(s1, ins);
    var s2 := Run(s1, ins);
    SplitRun(s, e0, ins, Wait(dt));
    ClockFiresPendingLongPress(s2, dt, x);
    AddedConcat(s, s2, Apply(s2, Wait(dt)));
  }

  /** With every pending long-press of `i` due no earlier than the time the
      clock reaches during `ins`, and no start of `i` in `ins`, no long-press
      record of `i` is appended. */
  lemma {:induction false} RunLongPressQuiet(s: Engine, ins: seq<Input>, i: int)
    requires Inv(s)
    requires forall k :: 0 <= k < |ins| ==> !Feeds(ins[k], "start", i)
    requires forall x :: x in s.longPresses && x.start.identifier == i ==>
      x.due >= s.now + TotalWait(ins)
    ensures s.touches <= Run(s, ins).touches
    ensures Tally(Added(s, Run(s, ins)), LongPressType, i) == 0
    decreases |ins|
  {
    RunAppendOnly(s, ins);
    if ins == [] {
      assert Added(s, s) == [];
    } else {
      var s1 := Apply(s, ins[0]);
      ApplyLongPressQuiet(s, ins[0], i);
      ApplyInv(s, ins[0]);
      ApplyOpensNoRace(s, ins[0], i);
      RunLongPressQuiet(s1, ins[1..], i);
      AddedConcat(s, s1, Run(s, ins));
      TallyAppend(Added(s, s1), Added(s1, Run(s, ins)), LongPressType, i);
    }
  }

  /** One step of `RunLongPressQuiet`. */
  lemma ApplyLongPressQuiet(s: Engine, input: Input, i: int)
    requires !Feeds(input, "start", i)
    requires input.Wait? ==> forall x :: x in s.longPresses && x.start.identifier == i ==>
      x.due >= s.now + input.dt
    ensures Tally(Added(s, Apply(s, input)), LongPressType, i) == 0
  {
    var s1 := Apply(s, input);
    if input.Wait? {
      var t := s.now + input.dt;
      var fired := Select(s.longPresses, DueBefore(t));
      SelectNone(fired, IdIs(i));
      TallyLongPressRecords(fired, LongPressType, i);
      assert Added(s, s1) == LongPressRecords(fired);
    } else {
      ApplyAdds(s, input);
      TallyAbsent(Added(s, s1), LongPressType, i);
    }
  }

  lemma RunSnoc(s: Engine, a: seq<Input>, f: Input)
    ensures Run(s, a + [f]) == Apply(Run(s, a), f)
  {
    RunConcat(s, a, [f]);
    assert Run(Run(s, a), [f]) == Apply(Run(s, a), f);
  }

  /** The run of a start, then `a`, then `f`, then `b`, split at its parts. */
  lemma SplitRun4(s: Engine, e0: TouchEvent, a: seq<Input>, f: Input, b: seq<Input>)
    ensures Run(s, [Feed("start", e0)] + a + [f] + b)
         == Run(Apply(Run(Apply(s, Feed("start", e0)), a), f), b)
  {
    assert [Feed("start", e0)] + a + [f] + b == [Feed("start", e0)] + (a + [f]) + b;
    SplitRun3(s, e0, a + [f], b);
    RunSnoc(Apply(s, Feed("start", e0)), a, f);
  }

  /** A start of `i`, then calls that keep the clock within
      `triggerLongPressEventAfter` and start no other contact `i`: no
      long-press record of `i` yet. */
  lemma LongPressHeld(s: Engine, e0: TouchEvent, ins: seq<Input>)
    requires Inv(s) && !s.disposed && CountOf(s.longPresses, e0.identifier) == 0
    requires forall k :: 0 <= k < |ins| ==> !Feeds(ins[k], "start", e0.identifier)
    requires TotalWait(ins) <= s.longPressAfter
    ensures var s1 := Apply(s, Feed("start", e0));
      var s2 := Run(s1, ins);
      s.touches <= s1.touches <= s2.touches && Inv(s2) &&
      Tally(Added(s, s1), LongPressType, e0.identifier) == 0 &&
      Tally(Added(s1, s2), LongPressType, e0.identifier) == 0
  {
    var i := e0.identifier;
    ApplyStart(s, e0);
    var s1 := Apply(s, Feed("start", e0));
    var x := Race(e0, s.now + s.longPressAfter);
    OnlyRaceOf(s.longPresses, x, i);
    RunLongPressQuiet(s1, ins, i);
    RunInv(s1, ins);
  }

  /** A move or an end of `i` leaves no long-press race of `i` pending and
      appends no long-press record. */
  lemma Interrupt(s: Engine, name: string, e: TouchEvent)
    requires Inv(s)
    requires name == "move" || name == "end"
    ensures var r := Apply(s, Feed(name, e));
      s.touches <= r.touches && Inv(r) &&
      CountOf(r.longPresses, e.identifier) == 0 &&
      Tally(Added(s, r), LongPressType, e.identifier) == 0
  {
    var r := Apply(s, Feed(name, e));
    if !s.disposed {
      if name == "move" {
        MoveRecordExactly(s, e);
      } else {
        EndResolvesRaces(s, e);
      }
    }
    ApplyAdds(s, Feed(name, e));
    TallyAbsent(Added(s, r), LongPressType, e.identifier);
    ApplyInv(s, Feed(name, e));
  }

  /** Once a move or an end of `i` has been seen, no long-press record of
      `i` is appended until a new start of `i`. */
  lemma AfterInterrupt(s: Engine, name: string, e: TouchEvent, ins: seq<Input>)
    requires Inv(s)
    requires name == "move" || name == "end"
    requires forall k :: 0 <= k < |ins| ==> !Feeds(ins[k], "start", e.identifier)
    ensures var r := Run(Apply(s, Feed(name, e)), ins);
      s.touches <= r.touches && Tally(Added(s, r), LongPressType, e.identifier) == 0
  {
    var i := e.identifier;
    Interrupt(s, name, e);
    var s1 := Apply(s, Feed(name, e));
    NoneOf(s1.longPresses, i);
    RunLongPressQuiet(s1, ins, i);
    var r := Run(s1, ins);
    TallyAcross(s, s1, r, LongPressType, i);
    assert s.touches <= r.touches && Tally(Added(s, r), LongPressType, i) == 0;
  }

  /** Long-press, other direction: a move or an end of `i` that arrives no
      later than `triggerLongPressEventAfter` after a start of `i` (with no
      other start of `i` pending or to come) cancels it: no long-press record
      of `i` is ever appended. */
  lemma InterruptedHoldIsNoLongPress(
    s: Engine, e0: TouchEvent, ins1: seq<Input>, name: string, e1: TouchEvent, ins2: seq<Input>)
    requires Inv(s) && !s.disposed && CountOf(s.longPresses, e0.identifier) == 0
    requires name == "move" || name == "end"
    requires e1.identifier == e0.identifier
    requires forall k :: 0 <= k < |ins1| ==> !Feeds(ins1[k], "start", e0.identifier)
    requires TotalWait(ins1) <= s.longPressAfter
    requires forall k :: 0 <= k < |ins2| ==> !Feeds(ins2[k], "start", e0.identifier)
    ensures var r := Run(s, [Feed("start", e0)] + ins1 + [Feed(name, e1)] + ins2);
      s.touches <= r.touches && Tally(Added(s, r), LongPressType, e0.identifier) == 0
  {
    var i := e0.identifier;
    LongPressHeld(s, e0, ins1);
    var s1 := Apply(s, Feed("start", e0));
    var s2 := Run(s1, ins1);
    AfterInterrupt(s2, name, e1, ins2);
    var r := Run(Apply(s2, Feed(name, e1)), ins2);
    SplitRun4(s, e0, ins1, Feed(name, e1), ins2);
    TallyAcross(s, s1, s2, LongPressType, i);
    TallyAcross(s, s2, r, LongPressType, i);
    assert r == Run(s, [Feed("start", e0)] + ins1 + [Feed(name, e1)] + ins2);
    assert s.touches <= r.touches && Tally(Added(s, r), LongPressType, i) == 0;
  }
}
