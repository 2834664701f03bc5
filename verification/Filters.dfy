/** internal/cursor/filter.go: dropping the records a previous connection
    already delivered. */
module Filters {
  import opened Records
  import opened Cursors

  datatype FilterState = FilterState(ts: nat, skip: nat, done: bool) {
    /** Whether a record stamped t is forwarded. */
    predicate Keeps(t: nat) {
      done || t == 0 || t > ts || (t == ts && skip == 0)
    }

    /** The filter once a record stamped t has gone past it. */
    function Seen(t: nat): FilterState {
      if done || t == 0 || t < ts then this
      else if t > ts then this.(done := true)
      else if skip > 0 then this.(skip := skip - 1)
      else this
    }
  }

  function NewFilter(from: Cursor): FilterState {
    FilterState(from.ts, from.delivered, from.IsZero())
  }

  class Filter {
    var ts: nat
    var skip: nat
    var done: bool

    ghost function State(): FilterState
      reads this
    {
      FilterState(ts, skip, done)
    }

    constructor (from: Cursor)
      ensures State() == NewFilter(from)
    {
      ts := from.ts;
      skip := from.delivered;
      done := from.IsZero();
    }

    method Keep(t: nat) returns (keep: bool)
      modifies this
      ensures keep == old(State()).Keeps(t)
      ensures State() == old(State()).Seen(t)
    {
      if done {
        return true;
      } else if t == 0 {
        return true;
      } else if t < ts {
        return false;
      } else if t > ts {
        done := true;
        return true;
      } else if skip > 0 {
        skip := skip - 1;
        return false;
      } else {
        return true;
      }
    }
  }

  /** What filter f forwards of the records s. */
  function Kept(f: FilterState, s: seq<Record>): seq<Record>
    decreases |s|
  {
    if s == [] then []
    else (if f.Keeps(s[0].ts) then [s[0]] else []) + Kept(f.Seen(s[0].ts), s[1..])
  }

  /** What the filter of a connection resumed from c must look like once the
      records before index e have been read, c standing at q. */
  ghost predicate FilterTracks(log: seq<Record>, c: Cursor, q: nat, e: nat, f: FilterState)
    requires e <= |log|
  {
    if c.IsZero() then f.done && q <= e
    else
      && f.ts == c.ts
      && (e <= q ==> !f.done && f.skip + CountAt(log, e, c.ts) == c.delivered)
      && (e > q ==> f.done || f.skip == 0)
  }

  lemma FilterStarts(log: seq<Record>, c: Cursor, q: nat, r: nat)
    requires Stands(log, c, q) && r <= q
    requires c.IsZero() ==> r == q
    requires !c.IsZero() ==> forall i :: 0 <= i < r ==> log[i].ts < c.ts
    ensures FilterTracks(log, c, q, r, NewFilter(c))
  {
    if !c.IsZero() {
      CountAtNone(log, 0, r, c.ts);
    }
  }

  /** The filter forwards exactly the records past the cursor and the unstamped ones. */
  lemma FilterStep(log: seq<Record>, c: Cursor, q: nat, e: nat, f: FilterState)
    requires Ordered(log) && Stands(log, c, q) && e < |log|
    requires FilterTracks(log, c, q, e, f)
    ensures f.Keeps(log[e].ts) <==> e >= q || !Stamped(log[e])
    ensures FilterTracks(log, c, q, e + 1, f.Seen(log[e].ts))
  {
    if !c.IsZero() && e < q {
      CountAtMonotone(log, e + 1, q, c.ts);
    }
  }

  lemma KeptInFront(log: seq<Record>, q: nat, e: nat)
    requires e < |log|
    ensures KeptIn(log, q, e, |log|)
         == (if e >= q || !Stamped(log[e]) then [log[e]] else []) + KeptIn(log, q, e + 1, |log|)
  {
    KeptInSplit(log, q, e, e + 1, |log|);
    assert KeptIn(log, q, e, e) == [];
  }

  lemma {:induction false} KeptExactly(log: seq<Record>, c: Cursor, q: nat, e: nat, f: FilterState)
    requires Ordered(log) && Stands(log, c, q) && e <= |log|
    requires FilterTracks(log, c, q, e, f)
    ensures Kept(f, log[e..]) == KeptIn(log, q, e, |log|)
    decreases |log| - e
  {
    if e < |log| {
      FilterStep(log, c, q, e, f);
      KeptExactly(log, c, q, e + 1, f.Seen(log[e].ts));
      KeptInFront(log, q, e);
      KeptUnfold(f, log, e);
    }
  }

  lemma KeptUnfold(f: FilterState, log: seq<Record>, e: nat)
    requires e < |log|
    ensures Kept(f, log[e..])
         == (if f.Keeps(log[e].ts) then [log[e]] else []) + Kept(f.Seen(log[e].ts), log[e + 1..])
  {
    assert log[e..][1..] == log[e + 1..];
  }

  /** A replay that reaches back to before the cursor's timestamp is forwarded as
      the unstamped records it repeats, then everything past the cursor. */
  lemma FilterKeepsRest(log: seq<Record>, c: Cursor, q: nat, r: nat)
    requires Ordered(log) && !c.IsZero() && Stands(log, c, q) && r <= q
    requires forall i :: 0 <= i < r ==> log[i].ts < c.ts
    ensures Kept(NewFilter(c), log[r..]) == UnstampedOf(log[r..q]) + log[q..]
  {
    FilterStarts(log, c, q, r);
    KeptExactly(log, c, q, r, NewFilter(c));
    KeptInSplit(log, q, r, q, |log|);
    KeptInBefore(log, q, r, q);
    KeptInPast(log, q, q, |log|);
    assert log[q..|log|] == log[q..];
  }

  /** Fold and filter undo each other: after any k records of a stamped log, a
      replay from anywhere up to the cursor's second is cut back to the rest. */
  lemma FilterUndoesFold(log: seq<Record>, k: nat, r: nat)
    requires Ordered(log) && AllStamped(log) && k <= |log|
    requires r <= FirstFrom(log, FloorSecond(CursorAt(log, k).ts))
    ensures Kept(NewFilter(CursorAt(log, k)), log[r..]) == log[k..]
  {
    var c := CursorAt(log, k);
    CursorAtStandsStamped(log, k);
    if k == 0 {
      assert r == 0;
      KeepsEverything(NewFilter(c), log[0..]);
    } else {
      assert Stamped(log[k - 1]);
      FilterKeepsRest(log, c, k, r);
      UnstampedOfNone(log[r..k]);
    }
  }

  lemma CursorAtStandsStamped(log: seq<Record>, k: nat)
    requires Ordered(log) && AllStamped(log) && k <= |log|
    ensures Stands(log, CursorAt(log, k), k)
    ensures CursorAt(log, k).IsZero() <==> k == 0
    ensures k > 0 ==> log[k - 1].ts == CursorAt(log, k).ts && CursorAt(log, k).delivered > 0
  {
    var q := CursorAtStands(log, k);
    assert q < |log| ==> Stamped(log[q]);
    assert q == k;
    if k > 0 {
      assert Stamped(log[k - 1]);
      assert CursorAt(log, k) == CursorAt(log, k - 1).Recorded(log[k - 1].ts);
    }
  }

  /** The index at which a filter that is still to skip n records stamped t
      starts forwarding a stamped replay from r: past the records before t, and
      past as many at t as it is still to skip. */
  ghost function KeptStart(log: seq<Record>, t: nat, n: nat, r: nat): int
    requires r <= |log|
  {
    r + (CountBelow(log, |log|, t) - CountBelow(log, r, t))
      + Min(n, CountAt(log, |log|, t) - CountAt(log, r, t))
  }

  lemma {:induction false} KeptIsSuffix(log: seq<Record>, f: FilterState, r: nat)
    requires Ordered(log) && AllStamped(log) && r <= |log| && !f.done
    ensures r <= KeptStart(log, f.ts, f.skip, r) <= |log|
    ensures Kept(f, log[r..]) == log[KeptStart(log, f.ts, f.skip, r)..]
    decreases |log| - r
  {
    if r < |log| {
      assert Stamped(log[r]);
      if f.Keeps(log[r].ts) {
        KeptFromHere(log, f, r);
      } else {
        KeptUnfold(f, log, r);
        StartUnmoved(log, f, r);
        KeptIsSuffix(log, f.Seen(log[r].ts), r + 1);
      }
    }
  }

  lemma StartUnmoved(log: seq<Record>, f: FilterState, r: nat)
    requires r < |log| && Stamped(log[r]) && !f.done && !f.Keeps(log[r].ts)
    ensures var seen := f.Seen(log[r].ts);
            !seen.done && KeptStart(log, seen.ts, seen.skip, r + 1) == KeptStart(log, f.ts, f.skip, r)
  {
    CountAtMonotone(log, r + 1, |log|, f.ts);
  }

  lemma KeptFromHere(log: seq<Record>, f: FilterState, r: nat)
    requires Ordered(log) && AllStamped(log) && r < |log| && !f.done
    requires Stamped(log[r]) && f.Keeps(log[r].ts)
    ensures Kept(f, log[r..]) == log[r..] && KeptStart(log, f.ts, f.skip, r) == r
  {
    OrderedFrom(log, r);
    KeepsEverything(f, log[r..]);
    CountBelowStops(log, r, |log|, f.ts);
    CountAtMonotone(log, r, |log|, f.ts);
    if log[r].ts > f.ts {
      CountAtNone(log, r, |log|, f.ts);
    }
  }

  lemma OrderedFrom(log: seq<Record>, r: nat)
    requires Ordered(log) && AllStamped(log) && r < |log|
    ensures forall i :: r <= i < |log| ==> log[i].ts >= log[r].ts
  {
    assert Stamped(log[r]);
    forall i | r <= i < |log| ensures log[i].ts >= log[r].ts {
      assert Stamped(log[i]);
    }
  }

  /** The assumption on log retention, exactly: a replay of a stamped log that
      starts at r comes out right if and only if it starts no later than the
      cursor, and either no record at the cursor's own timestamp has been lost
      or every record at it had been delivered already. */
  lemma FilterExactWhen(log: seq<Record>, k: nat, r: nat)
    requires Ordered(log) && AllStamped(log) && k <= |log| && r <= |log|
    ensures Kept(NewFilter(CursorAt(log, k)), log[r..]) == log[k..]
       <==> r <= k && (CountAt(log, r, CursorAt(log, k).ts) == 0 || k == |log| || log[k].ts > CursorAt(log, k).ts)
  {
    var c := CursorAt(log, k);
    var f := NewFilter(c);
    CursorAtStandsStamped(log, k);
    if k == 0 {
      KeepsEverything(f, log[r..]);
      CountAtNone(log, 0, r, 0);
      assert Kept(f, log[r..]) == log[r..];
      assert |log[r..]| == |log| - r && |log[0..]| == |log|;
    } else {
      FilterExactPositive(log, c, k, r);
    }
  }

  lemma FilterExactPositive(log: seq<Record>, c: Cursor, k: nat, r: nat)
    requires Ordered(log) && AllStamped(log) && 0 < k <= |log| && r <= |log|
    requires !c.IsZero() && Stands(log, c, k) && log[k - 1].ts == c.ts
    ensures Kept(NewFilter(c), log[r..]) == log[k..]
       <==> r <= k && (CountAt(log, r, c.ts) == 0 || k == |log| || log[k].ts > c.ts)
  {
    KeptIsSuffix(log, NewFilter(c), r);
    SuffixesEqual(log, KeptStart(log, c.ts, c.delivered, r), k);
    KeptStartExact(log, c, k, r);
  }

  lemma SuffixesEqual(log: seq<Record>, x: int, k: nat)
    requires 0 <= x <= |log| && k <= |log|
    ensures log[x..] == log[k..] <==> x == k
  {
    assert |log[x..]| == |log| - x && |log[k..]| == |log| - k;
  }

  lemma KeptStartExact(log: seq<Record>, c: Cursor, k: nat, r: nat)
    requires Ordered(log) && AllStamped(log) && 0 < k <= |log| && r <= |log|
    requires !c.IsZero() && Stands(log, c, k) && log[k - 1].ts == c.ts
    ensures KeptStart(log, c.ts, c.delivered, r) == k
       <==> r <= k && (CountAt(log, r, c.ts) == 0 || k == |log| || log[k].ts > c.ts)
  {
    PositionFormula(log, c, k);
    CountBelowStops(log, k, |log|, c.ts);
    CountAtMonotone(log, k, |log|, c.ts);
    if r <= k {
      CountsFill(log, r, c.ts);
      CountAtMonotone(log, r, |log|, c.ts);
      if k < |log| {
        if log[k].ts > c.ts {
          CountAtNone(log, k, |log|, c.ts);
        } else {
          CountAtMonotone(log, k + 1, |log|, c.ts);
        }
      }
    } else {
      CountBelowStops(log, k, r, c.ts);
      CountAtMonotone(log, r, |log|, c.ts);
    }
  }

  lemma {:induction false} UnstampedOfNone(s: seq<Record>)
    requires AllStamped(s)
    ensures UnstampedOf(s) == []
    decreases |s|
  {
    if s != [] {
      UnstampedOfNone(s[..|s| - 1]);
    }
  }

  lemma {:induction false} KeepsEverything(f: FilterState, s: seq<Record>)
    requires f.done || forall i :: 0 <= i < |s| ==> f.Keeps(s[i].ts)
    ensures Kept(f, s) == s
    decreases |s|
  {
    if s != [] {
      KeepsEverything(f.Seen(s[0].ts), s[1..]);
    }
  }
}
