/** Pending timer races. A press race (`touchPress`) and a long-press race
    (`longTouch`) are each started by one start event and resolve at a logical
    time `due`: the press timeout, or the long-press delay. Pending races are
    kept in the order they were started, and every way the engine resolves or
    cancels races is a selection from that list. */
module Races {
  import opened TouchEvents

  datatype Race = Race(start: TouchEvent, due: int)

  /** Tests applied to pending races. */
  datatype Cond = IdIs(id: int) | DueBefore(t: int) | DueAfter(t: int) | Not(c: Cond)

  predicate Holds(c: Cond, r: Race) {
    match c
    case IdIs(id) => r.start.identifier == id
    case DueBefore(t) => r.due < t
    case DueAfter(t) => r.due > t
    case Not(c') => !Holds(c', r)
  }

  /** The races of `rs` that pass `c`, in their original order. */
  function Select(rs: seq<Race>, c: Cond): (r: seq<Race>)
    ensures |r| <= |rs|
    ensures forall x :: x in r <==> x in rs && Holds(c, x)
  {
    if rs == [] then []
    else if Holds(c, rs[0]) then [rs[0]] + Select(rs[1..], c)
    else Select(rs[1..], c)
  }

  /** The number of pending races started by identifier `id`. */
  function CountOf(rs: seq<Race>, id: int): nat {
    |Select(rs, IdIs(id))|
  }

  lemma {:induction false} SelectAppend(a: seq<Race>, b: seq<Race>, c: Cond)
    ensures Select(a + b, c) == Select(a, c) + Select(b, c)
  {
    if a == [] {
      assert a + b == b;
    } else {
      assert (a + b)[1..] == a[1..] + b;
      SelectAppend(a[1..], b, c);
    }
  }

  lemma {:induction false} SelectCommutes(rs: seq<Race>, c1: Cond, c2: Cond)
    ensures Select(Select(rs, c1), c2) == Select(Select(rs, c2), c1)
  {
    if rs != [] {
      SelectCommutes(rs[1..], c1, c2);
    }
  }

  /** Selecting with a test every race passes changes nothing. */
  lemma {:induction false} SelectAll(rs: seq<Race>, c: Cond)
    requires forall x :: x in rs ==> Holds(c, x)
    ensures Select(rs, c) == rs
  {
    if rs != [] {
      assert forall x :: x in rs[1..] ==> x in rs;
      SelectAll(rs[1..], c);
    }
  }

  /** Selecting with a test no race passes leaves nothing. */
  lemma {:induction false} SelectNone(rs: seq<Race>, c: Cond)
    requires forall x :: x in rs ==> !Holds(c, x)
    ensures Select(rs, c) == []
  {
    if rs != [] {
      assert rs[0] in rs;
      SelectNone(rs[1..], c);
    }
  }

  /** A test and its negation split the races between them. */
  lemma {:induction false} SelectSplit(rs: seq<Race>, c: Cond)
    ensures |Select(rs, c)| + |Select(rs, Not(c))| == |rs|
  {
    if rs != [] {
      SelectSplit(rs[1..], c);
    }
  }

  /** Removing the races of identifier `j` leaves the races of every other
      identifier exactly as they were, and none of `j`'s. */
  lemma WithoutId(rs: seq<Race>, j: int, i: int)
    ensures Select(Select(rs, Not(IdIs(j))), IdIs(i)) ==
            if i == j then [] else Select(rs, IdIs(i))
  {
    SelectCommutes(rs, Not(IdIs(j)), IdIs(i));
    if i == j {
      SelectNone(Select(rs, IdIs(i)), Not(IdIs(j)));
    } else {
      SelectAll(Select(rs, IdIs(i)), Not(IdIs(j)));
    }
  }

  /** Filtering by time never adds races of an identifier. */
  lemma SelectCountOf(rs: seq<Race>, c: Cond, i: int)
    ensures CountOf(Select(rs, c), i) <= CountOf(rs, i)
  {
    SelectCommutes(rs, c, IdIs(i));
  }

  /** Splitting by time keeps the number of races of each identifier. */
  lemma SplitCountOf(rs: seq<Race>, c: Cond, i: int)
    ensures CountOf(Select(rs, c), i) + CountOf(Select(rs, Not(c)), i) == CountOf(rs, i)
  {
    SelectCommutes(rs, c, IdIs(i));
    SelectCommutes(rs, Not(c), IdIs(i));
    SelectSplit(Select(rs, IdIs(i)), c);
  }

  /** Selection from one or two races, written out. */
  lemma SelectOne(x: Race, c: Cond)
    ensures Select([x], c) == if Holds(c, x) then [x] else []
  {
    assert [x][1..] == [];
  }

  lemma SelectPair(x: Race, y: Race, c: Cond)
    ensures Select([x, y], c) == Select([x], c) + Select([y], c)
  {
    SelectAppend([x], [y], c);
    assert [x] + [y] == [x, y];
  }
}
