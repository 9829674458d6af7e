/** Raw touch events as a host hands them in, the records the processor
    appends to its output, the `switch` on the type name and the move delta. */
module TouchEvents {

  datatype Option<+T> = None | Some(value: T)

  /** The three raw kinds a host can feed in. */
  datatype Kind = Start | Move | End

  /** The type string a host passes to `process` for each kind. */
  function KindName(k: Kind): string {
    match k
    case Start => "start"
    case Move => "move"
    case End => "end"
  }

  /** The `switch (type)` of `process`: exactly the three known names select a
      stream; every other string selects nothing. */
  function ParseKind(typeName: string): (k: Option<Kind>)
    ensures k.Some? ==> KindName(k.value) == typeName
    ensures k.None? <==> forall c: Kind :: KindName(c) != typeName
  {
    if typeName == "start" then Some(Start)
    else if typeName == "move" then Some(Move)
    else if typeName == "end" then Some(End)
    else None
  }

  /** A raw event. Coordinates and the timestamp are integers here. */
  datatype TouchEvent = TouchEvent(
    identifier: int,
    locationX: int,
    locationY: int,
    pageX: int,
    pageY: int,
    timestamp: int)

  /** The `delta` attached to a move record. */
  datatype Delta = Delta(
    locationX: int,
    locationY: int,
    pageX: int,
    pageY: int,
    timestamp: int)

  /** Moves an event by a delta, keeping its identifier. */
  function Shift(e: TouchEvent, d: Delta): TouchEvent {
    e.(locationX := e.locationX + d.locationX,
       locationY := e.locationY + d.locationY,
       pageX := e.pageX + d.pageX,
       pageY := e.pageY + d.pageY,
       timestamp := e.timestamp + d.timestamp)
  }

  /** The field-wise difference `cur - prev` of a move record: shifting the
      previous event by it gives the current one (identifier aside). */
  function Diff(prev: TouchEvent, cur: TouchEvent): (d: Delta)
    ensures Shift(prev, d) == cur.(identifier := prev.identifier)
  {
    Delta(cur.locationX - prev.locationX,
          cur.locationY - prev.locationY,
          cur.pageX - prev.pageX,
          cur.pageY - prev.pageY,
          cur.timestamp - prev.timestamp)
  }

  /** The other direction: the delta between an event and its shift is the
      delta it was shifted by, so Diff is the only delta with the property. */
  lemma DiffOfShift(e: TouchEvent, d: Delta)
    ensures Diff(e, Shift(e, d)) == d
  {
  }

  /** The `type` field of a record. */
  datatype RecordType = StartType | MoveType | EndType | PressType | LongPressType

  /** One entry of `touches`: `{id, type, event}` and, on moves only, `delta`. */
  datatype Record = Record(id: int, recordType: RecordType, event: TouchEvent, delta: Option<Delta>)
}
