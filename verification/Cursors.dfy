/** internal/cursor/cursor.go: how far one container's log has been read. */
module Cursors {
  import opened Records

  /** A position: the last timestamp handed over, and how many records carrying it. */
  datatype Cursor = Cursor(ts: nat, delivered: nat) {
    predicate IsZero() {
      ts == 0
    }

    predicate After(other: Cursor) {
      if ts == other.ts then delivered > other.delivered else ts > other.ts
    }

    /** Whether a record stamped t moves this cursor. */
    predicate Moves(t: nat) {
      t > 0 && t >= ts
    }

    /** The cursor once a record stamped t has been folded in. */
    function Recorded(t: nat): Cursor {
      if t == 0 then this
      else if t > ts then Cursor(t, 1)
      else if t == ts then Cursor(ts, delivered + 1)
      else this
    }
  }

  const ZERO := Cursor(0, 0)

  /** The stored forms: what current versions write, and the bare timestamp of older ones. */
  datatype Wire = Timestamp(ts: nat) | Counted(ts: nat, delivered: nat)

  function Marshal(c: Cursor): Wire {
    Counted(c.ts, c.delivered)
  }

  function Unmarshal(w: Wire): Cursor {
    match w
    case Timestamp(t) => Cursor(t, 0)
    case Counted(t, n) => Cursor(t, n)
  }

  /** A cursor variable, for the code that updates one in place. */
  class CursorCell {
    var value: Cursor

    constructor (from: Cursor)
      ensures value == from
    {
      value := from;
    }

    method Record(t: nat) returns (moved: bool)
      modifies this
      ensures value == old(value).Recorded(t)
      ensures moved == old(value).Moves(t)
      ensures moved <==> value.After(old(value))
      ensures !moved ==> value == old(value)
    {
      if t == 0 {
        return false;
      } else if t > value.ts {
        value := Cursor(t, 1);
      } else if t == value.ts {
        value := value.(delivered := value.delivered + 1);
      } else {
        return false;
      }
      return true;
    }

    method UnmarshalJSON(w: Wire)
      modifies this
      ensures value == Unmarshal(w)
    {
      if w.Timestamp? {
        value := Cursor(w.ts, 0);
        return;
      }
      value := Cursor(w.ts, w.delivered);
    }
  }

  /** What is written out is read back; an older value comes back with the count
      that repeats its own timestamp and skips nothing. */
  lemma StoredFormsRoundTrip(c: Cursor, t: nat)
    ensures Unmarshal(Marshal(c)) == c
    ensures forall d: Cursor :: d.ts == t && d.delivered > 0 ==> d.After(Unmarshal(Timestamp(t)))
  {
  }

  /** After is a strict total order on cursors. */
  lemma AfterIsStrictTotalOrder(a: Cursor, b: Cursor, c: Cursor)
    ensures !a.After(a)
    ensures a.After(b) && b.After(c) ==> a.After(c)
    ensures a == b || a.After(b) || b.After(a)
    ensures a.After(b) ==> !b.After(a)
  {
  }

  /** The cursor of a container whose first n records have been handed over. */
  function CursorAt(log: seq<Record>, n: nat): Cursor
    requires n <= |log|
  {
    if n == 0 then ZERO else CursorAt(log, n - 1).Recorded(log[n - 1].ts)
  }

  /** Cursor c stands at q: everything it covers lies before index q and nothing
      it does not cover does. A zero cursor covers nothing and stands wherever
      the backfill begins, which is never in the middle of a timestamp. */
  ghost predicate Stands(log: seq<Record>, c: Cursor, q: nat) {
    if c.IsZero() then Boundary(log, q)
    else
      && q <= |log|
      && (forall i :: 0 <= i < q && Stamped(log[i]) ==> log[i].ts <= c.ts)
      && (forall i :: q <= i < |log| && Stamped(log[i]) ==> log[i].ts >= c.ts)
      && CountAt(log, q, c.ts) == c.delivered
      && (c.delivered > 0 ==> q > 0 && log[q - 1].ts == c.ts)
      && (c.delivered == 0 ==> q == |log| || Stamped(log[q]))
  }

  /** Where a cursor stands is determined by the log. */
  lemma StandsUnique(log: seq<Record>, c: Cursor, q: nat, p: nat)
    requires !c.IsZero() && Stands(log, c, q) && Stands(log, c, p)
    ensures q == p
  {
    if q < p {
      StandsOnce(log, c, q, p);
    } else if p < q {
      StandsOnce(log, c, p, q);
    }
  }

  lemma StandsOnce(log: seq<Record>, c: Cursor, q: nat, p: nat)
    requires !c.IsZero() && Stands(log, c, q) && Stands(log, c, p) && q <= p
    ensures q == p
  {
    if q < p {
      var i := if c.delivered > 0 then p - 1 else q;
      assert log[i].ts == c.ts;
      CountAtMonotone(log, q, i, c.ts);
      CountAtMonotone(log, i + 1, p, c.ts);
    }
  }

  /** In a log where every record is stamped, a cursor stands after the records
      before its timestamp plus the ones it counts at it. */
  lemma PositionFormula(log: seq<Record>, c: Cursor, q: nat)
    requires AllStamped(log) && !c.IsZero() && Stands(log, c, q)
    ensures q == CountBelow(log, |log|, c.ts) + c.delivered
  {
    CountsFill(log, q, c.ts);
    CountBelowStops(log, q, |log|, c.ts);
  }

  lemma {:induction false} CountsFill(log: seq<Record>, n: nat, t: nat)
    requires n <= |log| && AllStamped(log)
    requires forall i :: 0 <= i < n ==> log[i].ts <= t
    ensures CountBelow(log, n, t) + CountAt(log, n, t) == n
    decreases n
  {
    if n > 0 {
      CountsFill(log, n - 1, t);
    }
  }

  lemma {:induction false} CountBelowStops(log: seq<Record>, m: nat, n: nat, t: nat)
    requires m <= n <= |log|
    requires forall i :: m <= i < n && Stamped(log[i]) ==> log[i].ts >= t
    ensures CountBelow(log, n, t) == CountBelow(log, m, t)
    decreases n
  {
    if m < n {
      CountBelowStops(log, m, n - 1, t);
    }
  }

  /** One stamped record further: the cursor moves, and stands right behind it. */
  lemma RecordAdvances(log: seq<Record>, c: Cursor, q: nat, e: nat)
    requires Ordered(log) && Stands(log, c, q)
    requires q <= e < |log| && NoneStamped(log, q, e) && Stamped(log[e])
    ensures c.Moves(log[e].ts) && c.Recorded(log[e].ts).After(c)
    ensures Stands(log, c.Recorded(log[e].ts), e + 1)
  {
    var t := log[e].ts;
    var d := c.Recorded(t);
    assert t >= c.ts;
    assert forall i :: 0 <= i <= e && Stamped(log[i]) ==> log[i].ts <= t;
    if t == c.ts {
      CountAtNone(log, q, e, t);
    } else {
      CountAtNone(log, 0, e, t);
    }
  }

  /** Folding the first n records gives a cursor that stands after the last
      stamped one of them. */
  lemma {:induction false} CursorAtStands(log: seq<Record>, n: nat) returns (q: nat)
    requires Ordered(log) && n <= |log|
    ensures q <= n && NoneStamped(log, q, n)
    ensures Stands(log, CursorAt(log, n), q)
    ensures CursorAt(log, n).IsZero() ==> q == 0
    ensures CursorAt(log, n).delivered == 0 <==> CursorAt(log, n).IsZero()
    ensures q > 0 ==> Stamped(log[q - 1])
    decreases n
  {
    q := 0;
    if n > 0 {
      q := CursorAtStands(log, n - 1);
      if Stamped(log[n - 1]) {
        RecordAdvances(log, CursorAt(log, n - 1), q, n - 1);
        q := n;
      }
    }
  }
}
