/** The log of one container as the kubelet serves it, and the counting and
    slicing vocabulary every other module speaks in. */
module Records {

  datatype Option<+T> = None | Some(value: T)

  /** One log record. A timestamp of 0 is Go's zero time: the kubelet gave none.
      Timestamps are nanoseconds. */
  datatype Record = Record(ts: nat, body: string)

  function Min(a: int, b: int): int {
    if a <= b then a else b
  }

  function Max(a: int, b: int): int {
    if a <= b then b else a
  }

  /** a is how b begins. */
  ghost predicate Prefix<T>(a: seq<T>, b: seq<T>) {
    |a| <= |b| && a == b[..|a|]
  }

  const SECOND: nat := 1_000_000_000

  /** RFC 3339 with whole seconds, the precision a metav1.Time survives with. */
  function FloorSecond(t: nat): (s: nat)
    ensures s <= t < s + SECOND && s % SECOND == 0
  {
    t - t % SECOND
  }

  predicate Stamped(r: Record) {
    r.ts > 0
  }

  ghost predicate AllStamped(log: seq<Record>) {
    forall i :: 0 <= i < |log| ==> Stamped(log[i])
  }

  /** The timestamps that are there never go back. */
  ghost predicate Ordered(log: seq<Record>) {
    forall i, j :: 0 <= i <= j < |log| && Stamped(log[i]) && Stamped(log[j]) ==> log[i].ts <= log[j].ts
  }

  ghost predicate NoneStamped(log: seq<Record>, lo: nat, hi: nat) {
    forall i :: lo <= i < hi && i < |log| ==> !Stamped(log[i])
  }

  /** No timestamp occurs on both sides of index b. */
  ghost predicate Boundary(log: seq<Record>, b: nat) {
    b <= |log| &&
    forall i, j :: 0 <= i < b <= j < |log| && Stamped(log[i]) && Stamped(log[j]) ==> log[i].ts < log[j].ts
  }

  /** How many of the first n records carry exactly timestamp t. */
  function CountAt(log: seq<Record>, n: nat, t: nat): (c: nat)
    requires n <= |log|
    ensures c <= n
  {
    if n == 0 then 0 else CountAt(log, n - 1, t) + (if log[n - 1].ts == t then 1 else 0)
  }

  /** How many of the first n records carry a timestamp before t. */
  function CountBelow(log: seq<Record>, n: nat, t: nat): (c: nat)
    requires n <= |log|
    ensures c <= n
  {
    if n == 0 then 0
    else CountBelow(log, n - 1, t) + (if Stamped(log[n - 1]) && log[n - 1].ts < t then 1 else 0)
  }

  lemma {:induction false} CountAtMonotone(log: seq<Record>, m: nat, n: nat, t: nat)
    requires m <= n <= |log|
    ensures CountAt(log, m, t) <= CountAt(log, n, t)
    decreases n
  {
    if m < n {
      CountAtMonotone(log, m, n - 1, t);
    }
  }

  lemma {:induction false} CountAtNone(log: seq<Record>, m: nat, n: nat, t: nat)
    requires m <= n <= |log|
    requires forall i :: m <= i < n ==> log[i].ts != t
    ensures CountAt(log, n, t) == CountAt(log, m, t)
    decreases n
  {
    if m < n {
      CountAtNone(log, m, n - 1, t);
    }
  }

  /** The index the kubelet starts serving from when asked for everything since t. */
  function FirstFrom(log: seq<Record>, t: nat): (r: nat)
    ensures r <= |log|
    ensures r < |log| ==> Stamped(log[r]) && log[r].ts >= t
    ensures forall i :: 0 <= i < r && Stamped(log[i]) ==> log[i].ts < t
  {
    FirstFromAt(log, t, 0)
  }

  function FirstFromAt(log: seq<Record>, t: nat, k: nat): (r: nat)
    requires k <= |log|
    ensures k <= r <= |log|
    ensures r < |log| ==> Stamped(log[r]) && log[r].ts >= t
    ensures forall i :: k <= i < r && Stamped(log[i]) ==> log[i].ts < t
    decreases |log| - k
  {
    if k == |log| || (Stamped(log[k]) && log[k].ts >= t) then k else FirstFromAt(log, t, k + 1)
  }

  lemma FirstFromUnique(log: seq<Record>, t: nat, r: nat)
    requires r <= |log| && (r < |log| ==> Stamped(log[r]) && log[r].ts >= t)
    requires forall i :: 0 <= i < r && Stamped(log[i]) ==> log[i].ts < t
    ensures FirstFrom(log, t) == r
    ensures t % SECOND == 0 ==> FloorSecond(t) == t
  {
  }

  lemma FirstFromIsBoundary(log: seq<Record>, t: nat)
    requires Ordered(log)
    ensures Boundary(log, FirstFrom(log, t))
  {
    var r := FirstFrom(log, t);
    forall i, j | 0 <= i < r <= j < |log| && Stamped(log[i]) && Stamped(log[j])
      ensures log[i].ts < log[j].ts
    {
      assert log[r].ts <= log[j].ts;
    }
  }

  /** The stamped records of s, in order. */
  function StampedOf(s: seq<Record>): seq<Record> {
    if s == [] then []
    else StampedOf(s[..|s| - 1]) + (if Stamped(s[|s| - 1]) then [s[|s| - 1]] else [])
  }

  /** The unstamped records of s, in order. */
  function UnstampedOf(s: seq<Record>): seq<Record> {
    if s == [] then []
    else UnstampedOf(s[..|s| - 1]) + (if Stamped(s[|s| - 1]) then [] else [s[|s| - 1]])
  }

  lemma {:induction false} StampedOfConcat(a: seq<Record>, b: seq<Record>)
    ensures StampedOf(a + b) == StampedOf(a) + StampedOf(b)
    decreases |b|
  {
    if b == [] {
      assert a + b == a;
    } else {
      var front := b[..|b| - 1];
      assert (a + b)[..|a + b| - 1] == a + front;
      StampedOfConcat(a, front);
    }
  }

  lemma {:induction false} StampedOfAll(s: seq<Record>)
    requires AllStamped(s)
    ensures StampedOf(s) == s
    decreases |s|
  {
    if s != [] {
      StampedOfAll(s[..|s| - 1]);
    }
  }

  lemma {:induction false} StampedOfNone(s: seq<Record>)
    requires NoneStamped(s, 0, |s|)
    ensures StampedOf(s) == []
    decreases |s|
  {
    if s != [] {
      StampedOfNone(s[..|s| - 1]);
    }
  }

  /** Trailing unstamped records do not change which stamped records a slice holds. */
  lemma StampedOfSlice(log: seq<Record>, lo: nat, mid: nat, hi: nat)
    requires lo <= mid <= hi <= |log| && NoneStamped(log, mid, hi)
    ensures StampedOf(log[lo..hi]) == StampedOf(log[lo..mid])
  {
    SlicesJoin(log, lo, mid, hi);
    StampedOfConcat(log[lo..mid], log[mid..hi]);
    StampedOfNone(log[mid..hi]);
  }

  lemma SlicesJoin(log: seq<Record>, lo: nat, mid: nat, hi: nat)
    requires lo <= mid <= hi <= |log|
    ensures log[lo..hi] == log[lo..mid] + log[mid..hi]
  {
  }

  /** The records of log[lo..hi] that lie at or past q, or carry no timestamp. */
  function KeptIn(log: seq<Record>, q: nat, lo: nat, hi: nat): seq<Record>
    requires hi <= |log|
    decreases hi
  {
    if hi <= lo then []
    else KeptIn(log, q, lo, hi - 1) + (if hi > q || !Stamped(log[hi - 1]) then [log[hi - 1]] else [])
  }

  lemma {:induction false} KeptInSplit(log: seq<Record>, q: nat, lo: nat, mid: nat, hi: nat)
    requires lo <= mid <= hi <= |log|
    ensures KeptIn(log, q, lo, hi) == KeptIn(log, q, lo, mid) + KeptIn(log, q, mid, hi)
    decreases hi
  {
    if mid < hi {
      KeptInSplit(log, q, lo, mid, hi - 1);
    }
  }

  lemma {:induction false} KeptInPast(log: seq<Record>, q: nat, lo: nat, hi: nat)
    requires q <= lo <= hi <= |log|
    ensures KeptIn(log, q, lo, hi) == log[lo..hi]
    decreases hi
  {
    if lo < hi {
      KeptInPast(log, q, lo, hi - 1);
    }
  }

  lemma {:induction false} KeptInBefore(log: seq<Record>, q: nat, lo: nat, hi: nat)
    requires lo <= hi <= q && hi <= |log|
    ensures KeptIn(log, q, lo, hi) == UnstampedOf(log[lo..hi])
    decreases hi
  {
    if lo < hi {
      KeptInBefore(log, q, lo, hi - 1);
      assert log[lo..hi][..hi - lo - 1] == log[lo..hi - 1];
    }
  }

  lemma {:induction false} UnstampedOfIsUnstamped(s: seq<Record>)
    ensures NoneStamped(UnstampedOf(s), 0, |UnstampedOf(s)|)
    decreases |s|
  {
    if s != [] {
      UnstampedOfIsUnstamped(s[..|s| - 1]);
    }
  }

  /** Batches one after another. */
  function Flat(batches: seq<seq<Record>>): seq<Record> {
    if batches == [] then []
    else Flat(batches[..|batches| - 1]) + batches[|batches| - 1]
  }

  lemma FlatSnoc(batches: seq<seq<Record>>, b: seq<Record>)
    ensures Flat(batches + [b]) == Flat(batches) + b
  {
    assert (batches + [b])[..|batches|] == batches;
  }

  lemma {:induction false} FlatConcat(a: seq<seq<Record>>, b: seq<seq<Record>>)
    ensures Flat(a + b) == Flat(a) + Flat(b)
    decreases |b|
  {
    if b == [] {
      assert a + b == a;
    } else {
      var front := b[..|b| - 1];
      FlatConcat(a, front);
      assert (a + b)[..|a + b| - 1] == a + front;
    }
  }
}
