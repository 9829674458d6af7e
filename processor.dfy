/** The object the factory returns: one processor bound to the caller's
    `touches` list, with `process(type, event)` and `end()`, plus the clock
    that drives its timers. Each field is one part of the pipeline's hidden
    state; every method is proved to do exactly what the pure `Engine` step
    does, so the properties proved about `Engine` hold for the object. */
module DefaultTouchProcessor {
  import opened TouchEvents
  import opened Races
  import opened TouchEngine

  /** The options object. A missing (undefined) option takes its default. */
  datatype Options = Options(
    triggerPressEventBefore: Option<int>,
    triggerLongPressEventAfter: Option<int>)

  /** The press window after defaulting: 200 when the option is missing. */
  function PressBefore(o: Options): (p: int)
    ensures o.triggerPressEventBefore.None? ==> p == DefaultPressBefore
    ensures o.triggerPressEventBefore.Some? ==> p == o.triggerPressEventBefore.value
  {
    match o.triggerPressEventBefore
    case None => DefaultPressBefore
    case Some(v) => v
  }

  /** The long-press delay after defaulting: 700 when the option is missing. */
  function LongPressAfter(o: Options): (l: int)
    ensures o.triggerLongPressEventAfter.None? ==> l == DefaultLongPressAfter
    ensures o.triggerLongPressEventAfter.Some? ==> l == o.triggerLongPressEventAfter.value
  {
    match o.triggerLongPressEventAfter
    case None => DefaultLongPressAfter
    case Some(v) => v
  }

  class TouchProcessor {
    const triggerPressEventBefore: int
    const triggerLongPressEventAfter: int
    /** Where this processor's appends to `touches` begin. */
    const origin: nat
    /** The logical clock that the timers of the races run on. */
    var now: int
    /** The caller's output list. */
    var touches: seq<Record>
    /** The previous event of each identifier (`groupBy` + `pairwise`). */
    var last: map<int, Seen>
    /** Pending `touchPress` races, in the order of their starts. */
    var pressRaces: seq<Race>
    /** Pending `longTouch` races, in the order of their starts. */
    var longPressRaces: seq<Race>
    /** Set by `end()`. */
    var disposed: bool

    /** The object's state as an `Engine` value. */
    ghost function State(): Engine
      reads this
    {
      Engine(triggerPressEventBefore, triggerLongPressEventAfter, now, origin,
             touches, last, pressRaces, longPressRaces, disposed)
    }

    ghost predicate Valid()
      reads this
    {
      Inv(State())
    }

    /** `factory(options)(touches)`: the subjects and subscriptions are set
        up; nothing is appended yet and no race is pending. */
    constructor (options: Options, touches: seq<Record>)
      requires PressBefore(options) > 0 && LongPressAfter(options) > 0
      ensures Valid()
      ensures State() == Initial(PressBefore(options), LongPressAfter(options), touches)
    {
      triggerPressEventBefore := PressBefore(options);
      triggerLongPressEventAfter := LongPressAfter(options);
      origin := |touches|;
      now := 0;
      this.touches := touches;
      last := map[];
      pressRaces := [];
      longPressRaces := [];
      disposed := false;
      new;
      InitialInv(PressBefore(options), LongPressAfter(options), touches);
    }

    /** `process(type, event)`: the switch selects a subject; each
        subscriber of that subject runs in subscription order. */
    method Process(typeName: string, event: TouchEvent)
      requires Valid()
      modifies this
      ensures Valid()
      ensures State() == Dispatch(old(State()), typeName, event)
    {
      ghost var before := State();
      DispatchInv(before, typeName, event);
      var kind := ParseKind(typeName);
      if kind.None? || disposed {
        return;
      }
      var id := event.identifier;
      match kind.value
      case Start =>
        touches := touches + [Record(id, StartType, event, None)];
        last := last[id := Seen(Start, event)];
        pressRaces := pressRaces + [Race(event, now + triggerPressEventBefore)];
        longPressRaces := longPressRaces + [Race(event, now + triggerLongPressEventAfter)];
      case Move =>
        if id in last && last[id].kind != Kind.End {
          touches := touches + [Record(id, MoveType, event, Some(Diff(last[id].event, event)))];
        } else {
          assert touches == before.touches + MoveRecords(before.last, event);
        }
        last := last[id := Seen(Move, event)];
        longPressRaces := Select(longPressRaces, Not(IdIs(id)));
      case End =>
        touches := touches + [Record(id, EndType, event, None)];
        last := last[id := Seen(Kind.End, event)];
        var winners := Select(Select(pressRaces, IdIs(id)), DueAfter(now));
        touches := touches + PressRecords(winners, event);
        pressRaces := Select(pressRaces, Not(IdIs(id)));
        longPressRaces := Select(longPressRaces, Not(IdIs(id)));
    }

    /** The clock moves forward by `dt`: long-presses due before the new
        time fire, expired press races are dropped. */
    method AdvanceBy(dt: nat)
      requires Valid()
      modifies this
      ensures Valid()
      ensures State() == Advance(old(State()), dt)
    {
      ghost var before := State();
      AdvanceInv(before, dt);
      var t := now + dt;
      var fired := Select(longPressRaces, DueBefore(t));
      touches := touches + LongPressRecords(fired);
      longPressRaces := Select(longPressRaces, Not(DueBefore(t)));
      pressRaces := Select(pressRaces, DueAfter(t));
      now := t;
    }

    /** `end()`: the subjects and every subscription are disposed. */
    method End()
      requires Valid()
      modifies this
      ensures Valid()
      ensures State() == Teardown(old(State()))
    {
      ghost var before := State();
      TeardownInv(before);
      disposed := true;
      last := map[];
      pressRaces := [];
      longPressRaces := [];
    }
  }
}
