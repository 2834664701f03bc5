/** From bytes to records: how a line's timestamp is read off it, what a torn line
    does to the cursor, and exactly-once for the byte streams the kubelet serves. */
module ByteStreams {
  import opened Records
  import opened Cursors
  import opened Filters
  import opened Connections
  import opened Streams
  import opened Runs
  import opened Tokenizers
  import opened Cuts

  // ---------------------------------------------------------------------
  // One line
  // ---------------------------------------------------------------------

  const SPACE: byte := 32

  function FirstSpace(s: Bytes): (i: nat)
    ensures i <= |s|
    ensures i < |s| ==> s[i] == SPACE
    ensures forall j :: 0 <= j < i ==> s[j] != SPACE
  {
    SpaceFrom(s, 0)
  }

  function SpaceFrom(s: Bytes, k: nat): (i: nat)
    requires k <= |s|
    ensures k <= i <= |s|
    ensures i < |s| ==> s[i] == SPACE
    ensures forall j :: k <= j < i ==> s[j] != SPACE
    decreases |s| - k
  {
    if k == |s| || s[k] == SPACE then k else SpaceFrom(s, k + 1)
  }

  /** ParseLeadingTimestamp: stamp reads a timestamp, 0 if it is none; text turns
      bytes into a body. */
  function ParseLine(stamp: Bytes -> nat, text: Bytes -> string, line: Bytes): Record {
    var i := FirstSpace(line);
    if i == |line| || stamp(line[..i]) == 0 then Record(0, text(line))
    else Record(stamp(line[..i]), text(line[i + 1..]))
  }

  /** The front of a line has the line's timestamp if it reaches past it, and none
      otherwise. */
  lemma FrontStamp(stamp: Bytes -> nat, text: Bytes -> string, line: Bytes, front: Bytes)
    requires |front| <= |line| && front == line[..|front|]
    ensures ParseLine(stamp, text, front).ts
         == if FirstSpace(line) < |front| then ParseLine(stamp, text, line).ts else 0
  {
    var i := FirstSpace(line);
    if i < |front| {
      assert front[i] == SPACE && forall j :: 0 <= j < i ==> front[j] == line[j];
      assert FirstSpace(front) == i;
      assert front[..i] == line[..i];
    } else {
      assert forall j :: 0 <= j < |front| ==> front[j] == line[j];
      assert FirstSpace(front) == |front|;
    }
  }

  lemma {:induction false} CursorAtSamePrefix(a: seq<Record>, b: seq<Record>, k: nat)
    requires k <= |a| && k <= |b|
    requires forall i :: 0 <= i < k ==> a[i] == b[i]
    ensures CursorAt(a, k) == CursorAt(b, k)
    decreases k
  {
    if k > 0 {
      CursorAtSamePrefix(a, b, k - 1);
    }
  }

  lemma CursorOfTornRecord(log: seq<Record>, k: nat, part: Record)
    requires k < |log| && (part.ts == log[k].ts || part.ts == 0)
    ensures CursorAt(log[..k] + [part], k + 1) == CursorAt(log, if part.ts == 0 && Stamped(log[k]) then k else k + 1)
  {
    var torn := log[..k] + [part];
    CursorAtSamePrefix(torn, log, k);
    assert torn[k] == part;
  }

  /** What handing on part of record k does: with its timestamp, the cursor moves as
      if the whole record had been handed on, and however much of the log is served
      again, everything up to and including record k is dropped as a replay. Without
      it the cursor stays, and the whole record comes back. */
  lemma TornRecordReplay(log: seq<Record>, k: nat, part: Record, r: nat)
    requires Ordered(log) && AllStamped(log) && k < |log|
    requires part.ts == log[k].ts || part.ts == 0
    requires r <= FirstFrom(log, FloorSecond(CursorAt(log[..k] + [part], k + 1).ts))
    ensures Kept(NewFilter(CursorAt(log[..k] + [part], k + 1)), log[r..])
         == if part.ts == 0 then log[k..] else log[k + 1..]
  {
    assert Stamped(log[k]);
    CursorOfTornRecord(log, k, part);
    FilterUndoesFold(log, if part.ts == 0 then k else k + 1, r);
  }

  /** A line torn behind its first byte comes back in full exactly when the tear was
      not past its timestamp. */
  lemma TornLineComesBackWhen(stamp: Bytes -> nat, text: Bytes -> string, log: seq<Record>, k: nat,
                              line: Bytes, front: Bytes, r: nat)
    requires Ordered(log) && AllStamped(log) && k < |log| && log[k] == ParseLine(stamp, text, line)
    requires |front| <= |line| && front == line[..|front|]
    requires r <= FirstFrom(log, FloorSecond(CursorAt(log[..k] + [ParseLine(stamp, text, front)], k + 1).ts))
    ensures var kept := Kept(NewFilter(CursorAt(log[..k] + [ParseLine(stamp, text, front)], k + 1)), log[r..]);
            && (|front| <= FirstSpace(line) ==> kept == log[k..])
            && (|front| > FirstSpace(line) ==> kept == log[k + 1..])
            && (kept == log[k..] <==> |front| <= FirstSpace(line))
  {
    assert Stamped(log[k]);
    FrontStamp(stamp, text, line, front);
    TornRecordReplay(log, k, ParseLine(stamp, text, front), r);
    assert |log[k..]| != |log[k + 1..]|;
  }

  // ---------------------------------------------------------------------
  // A stream
  // ---------------------------------------------------------------------

  predicate AtLineStart(x: Bytes) {
    x != [] ==> x[|x| - 1] == LF
  }

  /** At a newline the tokenizer holds nothing and is not skipping. */
  lemma {:induction false} NothingHeldAtNewline(max: nat, behavior: Behavior, skipping: bool, x: Bytes)
    requires 0 < max && x != [] && x[|x| - 1] == LF
    ensures HeldAfter(max, behavior, skipping, x) == Held(false, [])
    decreases |x|
  {
    IndexOfFirst(x);
    var b := BiteOf(max, behavior, skipping, x);
    if b.rest != [] {
      NothingHeldAtNewline(max, behavior, b.skipping, b.rest);
    }
  }

  /** So the records of a stream are those up to a line start and those from there. */
  lemma RecordsFromLineStart(max: nat, behavior: Behavior, x: Bytes, y: Bytes)
    requires 0 < max && AtLineStart(x)
    ensures Remaining(max, behavior, false, x + y)
         == Remaining(max, behavior, false, x) + Remaining(max, behavior, false, y)
  {
    CutRecords(max, behavior, false, x, y);
    if x != [] {
      NothingHeldAtNewline(max, behavior, false, x);
    }
    assert [] + y == y;
    var done := Complete(max, behavior, false, x);
    assert done + [] == done;
  }

  /** The records of a byte stream, as parse reads them off its tokens. */
  function RecordsOf(parse: Bytes -> Record, tokens: seq<Bytes>): seq<Record> {
    seq(|tokens|, i requires 0 <= i < |tokens| => parse(tokens[i]))
  }

  datatype Scanner = Scanner(parse: Bytes -> Record, max: nat, behavior: Behavior) {
    function Log(bytes: Bytes): seq<Record>
      requires 0 < max
    {
      RecordsOf(parse, Remaining(max, behavior, false, bytes))
    }

    /** The stream can end after y, where z follows, without tearing a record. */
    predicate MayEnd(y: Bytes, z: Bytes)
      requires 0 < max
    {
      CutsCleanly(max, HeldAfter(max, behavior, false, y), z)
    }
  }

  /** The records of what is served from a line start, and ends cleanly, are a
      stretch of the log's. */
  lemma ServedIsStretch(sc: Scanner, x: Bytes, y: Bytes, z: Bytes)
    requires 0 < sc.max && AtLineStart(x) && sc.MayEnd(y, z)
    ensures sc.Log(x + (y + z)) == sc.Log(x) + sc.Log(y + z)
    ensures Prefix(sc.Log(y), sc.Log(y + z))
  {
    RecordsFromLineStart(sc.max, sc.behavior, x, y + z);
    CutKeepsRecordsWhen(sc.max, sc.behavior, y, z);
  }

  /** The kubelet, asked for everything since a time, starts at the first line that is
      not older: x is skipped, and rest is what there is from there. */
  ghost predicate StartsAt(sc: Scanner, since: Option<nat>, x: Bytes, rest: Bytes)
    requires 0 < sc.max
  {
    match since
    case None => x == []
    case Some(t) =>
      && AtLineStart(x)
      && (forall i :: 0 <= i < |sc.Log(x)| && Stamped(sc.Log(x)[i]) ==> sc.Log(x)[i].ts < t)
      && (sc.Log(rest) != [] ==> Stamped(sc.Log(rest)[0]) && sc.Log(rest)[0].ts >= t)
  }

  lemma StartIsKubeletStart(sc: Scanner, point: StartPoint, kubeletNow: nat, x: Bytes, rest: Bytes)
    requires 0 < sc.max && StartsAt(sc, SinceOf(point, kubeletNow), x, rest)
    requires sc.Log(x + rest) == sc.Log(x) + sc.Log(rest)
    ensures KubeletStart(sc.Log(x + rest), point, kubeletNow) == |sc.Log(x)|
  {
    var since, log, r := SinceOf(point, kubeletNow), sc.Log(x + rest), |sc.Log(x)|;
    if since.Some? {
      assert forall i :: 0 <= i < r ==> log[i] == sc.Log(x)[i];
      assert r < |log| ==> log[r] == sc.Log(rest)[0];
      FirstFromUnique(log, since.value, r);
    }
  }

  /** A connection is served y of the stream: from the line the kubelet starts at, and
      cut, or not written on yet, where no record is torn. */
  ghost predicate ServedAs(sc: Scanner, bytes: Bytes, point: StartPoint, kubeletNow: nat, conn: Connection,
                           x: Bytes, y: Bytes, z: Bytes)
    requires 0 < sc.max
  {
    && bytes == x + (y + z)
    && StartsAt(sc, SinceOf(point, kubeletNow), x, y + z)
    && sc.MayEnd(y, z)
    && Arrivals(conn.events) == sc.Log(y)
  }

  ghost predicate ServesBytes(sc: Scanner, bytes: Bytes, point: StartPoint, kubeletNow: nat, conn: Connection)
    requires 0 < sc.max
  {
    exists x, y, z :: ServedAs(sc, bytes, point, kubeletNow, conn, x, y, z)
  }

  /** What is assumed of connections holds of such a stream. */
  lemma BytesServeConnection(sc: Scanner, bytes: Bytes, point: StartPoint, kubeletNow: nat, conn: Connection)
    requires 0 < sc.max && ServesBytes(sc, bytes, point, kubeletNow, conn)
    ensures ServesConnection(sc.Log(bytes), point, kubeletNow, conn)
  {
    var x, y, z :| ServedAs(sc, bytes, point, kubeletNow, conn, x, y, z);
    ServedIsStretch(sc, x, y, z);
    StartIsKubeletStart(sc, point, kubeletNow, x, y + z);
    assert sc.Log(bytes)[|sc.Log(x)|..] == sc.Log(y + z);
  }

  ghost predicate ServesTurnBytes(sc: Scanner, bytes: Bytes, cfg: StreamConfig, p: Progress, a: Attempt)
    requires 0 < sc.max
  {
    a.Followed? ==>
      && ServesBytes(sc, bytes, FollowPoint(cfg, p, a), a.kubeletNow, a.conn)
      && (a.drain.Some? ==>
            ServesBytes(sc, bytes, DrainStartPoint(Consumed(cfg, p, a.conn).resume.ts), a.kubeletNow, a.drain.value))
  }

  ghost predicate ServesRunBytes(sc: Scanner, bytes: Bytes, cfg: StreamConfig, p: Progress, script: seq<Attempt>)
    requires 0 < sc.max
  {
    forall i :: 0 <= i < |script| ==> ServesTurnBytes(sc, bytes, cfg, Turns(cfg, p, script[..i]), script[i])
  }

  lemma BytesServeRun(sc: Scanner, bytes: Bytes, cfg: StreamConfig, p: Progress, script: seq<Attempt>)
    requires 0 < sc.max && ServesRunBytes(sc, bytes, cfg, p, script)
    ensures ServesRun(sc.Log(bytes), cfg, p, script)
  {
    forall i | 0 <= i < |script| ensures Serves(sc.Log(bytes), cfg, Turns(cfg, p, script[..i]), script[i]) {
      var q, a := Turns(cfg, p, script[..i]), script[i];
      assert ServesTurnBytes(sc, bytes, cfg, q, a);
      if a.Followed? {
        BytesServeConnection(sc, bytes, FollowPoint(cfg, q, a), a.kubeletNow, a.conn);
        if a.drain.Some? {
          BytesServeConnection(sc, bytes, DrainStartPoint(Consumed(cfg, q, a.conn).resume.ts), a.kubeletNow, a.drain.value);
        }
      }
    }
  }

  /** Exactly once, down to the bytes: over any run of connections that serve the
      stream from line starts and end without tearing a record, what is handed on is
      a stretch of the records the whole stream would be cut into. */
  lemma ExactlyOnceInBytes(sc: Scanner, bytes: Bytes, cfg: StreamConfig, script: seq<Attempt>, p: Progress)
    returns (base: nat, here: nat)
    requires 0 < sc.max && Ordered(sc.Log(bytes)) && AllStamped(sc.Log(bytes))
    requires ServesRunBytes(sc, bytes, cfg, Started(cfg, ZERO), script)
    requires p == Turns(cfg, Started(cfg, ZERO), script)
    ensures base == BackfillStart(sc.Log(bytes), cfg, 0, Started(cfg, ZERO), script)
    ensures base <= here <= |sc.Log(bytes)| && Stands(sc.Log(bytes), p.resume, here)
    ensures Flat(p.batches) == sc.Log(bytes)[base..here]
  {
    BytesServeRun(sc, bytes, cfg, Started(cfg, ZERO), script);
    base, here := ExactlyOnce(sc.Log(bytes), cfg, script, p);
  }
}
