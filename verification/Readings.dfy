/** What one connection keeps, whatever arrives, whenever it flushes and however
    the pipeline answers. */
module Readings {
  import opened Records
  import opened Cursors
  import opened Filters
  import opened Retries
  import opened Connections

  /** How far the connection's progress has been published: the last report, or
      the cursor it resumed from while there is none. */
  function Committed(resume: Cursor, st: ConnState): Cursor {
    if st.delivered.IsZero() then resume else st.delivered
  }

  // ---------------------------------------------------------------------
  // For every input: reports, batch sizes, batch contents
  // ---------------------------------------------------------------------

  ghost predicate Increasing(resume: Cursor, reports: seq<Cursor>) {
    && (forall i :: 0 <= i < |reports| ==> reports[i].After(resume) && !reports[i].IsZero())
    && (forall i, j :: 0 <= i < j < |reports| ==> reports[j].After(reports[i]))
  }

  ghost predicate Reports(resume: Cursor, st: ConnState) {
    && Increasing(resume, st.reports)
    && (st.reports == [] ==> st.delivered == ZERO)
    && (st.reports != [] ==> st.delivered == st.reports[|st.reports| - 1])
    && (st.advanced ==> st.pending.After(Committed(resume, st)) && !st.pending.IsZero() && st.pending.delivered > 0)
    && (st.delivered.IsZero() || st.delivered.delivered > 0)
    && (!st.advanced && !st.refused ==> st.pending == Committed(resume, st))
  }

  ghost predicate Sizes(cfg: Config, st: ConnState) {
    && (forall i :: 0 <= i < |st.batches| ==> 1 <= |st.batches[i]| <= cfg.maxBatch)
    && |st.batch| < cfg.maxBatch
    && |st.reports| <= |st.batches|
  }

  lemma FlushReports(cfg: Config, resume: Cursor, st: ConnState, rounds: seq<Round>)
    requires Reports(resume, st) && !st.refused
    ensures Reports(resume, Flush(cfg, st, rounds))
  {
    if st.batch != [] && st.advanced && OutcomeOf(Consume(cfg.retry, st.batch, rounds).answer) != Refused {
      IncreasingSnoc(resume, st.reports, st.pending);
      ReportsSnoc(resume, st, Flush(cfg, st, rounds));
    }
  }

  lemma ReportsSnoc(resume: Cursor, st: ConnState, out: ConnState)
    requires Reports(resume, st) && st.advanced && !out.advanced && out.pending == st.pending == out.delivered
    requires out.reports == st.reports + [st.pending] && Increasing(resume, out.reports)
    ensures Reports(resume, out)
  {
  }

  lemma IncreasingSnoc(resume: Cursor, reports: seq<Cursor>, c: Cursor)
    requires Increasing(resume, reports) && !c.IsZero()
    requires c.After(if reports == [] then resume else reports[|reports| - 1])
    ensures Increasing(resume, reports + [c])
  {
    if reports != [] {
      var last := reports[|reports| - 1];
      forall i | 0 <= i < |reports| ensures c.After(reports[i]) && c.After(resume) {
        assert i < |reports| - 1 ==> last.After(reports[i]);
        assert last.After(resume);
      }
    }
  }

  lemma AppendReports(resume: Cursor, st: ConnState, record: Record)
    requires Reports(resume, st) && !st.refused
    ensures Reports(resume, Append(st, record))
  {
  }

  lemma StepReports(cfg: Config, resume: Cursor, st: ConnState, event: Event)
    requires Reports(resume, st)
    ensures Reports(resume, Step(cfg, st, event))
  {
    if !st.refused {
      match event
      case Tick(rounds) =>
        FlushReports(cfg, resume, st, rounds);
      case Arrive(record, rounds) =>
        var seen := st.(filter := st.filter.Seen(record.ts));
        assert Reports(resume, seen);
        if st.filter.Keeps(record.ts) {
          AppendReports(resume, seen, record);
          FlushReports(cfg, resume, Append(seen, record), rounds);
        }
    }
  }

  lemma {:induction false} StepsReports(cfg: Config, resume: Cursor, events: seq<Event>)
    ensures Reports(resume, Steps(cfg, Opened(resume), events))
    decreases |events|
  {
    if events != [] {
      var front := events[..|events| - 1];
      StepsReports(cfg, resume, front);
      StepReports(cfg, resume, Steps(cfg, Opened(resume), front), events[|events| - 1]);
    }
  }

  lemma {:induction false} StepsSizes(cfg: Config, resume: Cursor, events: seq<Event>)
    requires cfg.maxBatch > 0
    ensures Sizes(cfg, Steps(cfg, Opened(resume), events))
    decreases |events|
  {
    if events != [] {
      StepsSizes(cfg, resume, events[..|events| - 1]);
    }
  }

  /** What a flush does with a batch: it counts as handed on when the pipeline took
      all of it, or rejected for good what it had not taken; otherwise the cursor
      stays where it was, and what was taken out of the batch has leaked. */
  lemma FlushConserves(cfg: Config, st: ConnState, rounds: seq<Round>)
    requires Honest(st.batch, rounds) && st.batch != [] && !st.refused
    ensures var out, v := Flush(cfg, st, rounds), Consume(cfg.retry, st.batch, rounds);
            && v.accepted + multiset(v.held) == multiset(st.batch)
            && out.batch == []
            && (!out.refused ==>
                  && out.batches == st.batches + [st.batch] && out.leaked == st.leaked
                  && out.delivered == (if st.advanced then st.pending else st.delivered)
                  && (v.held == [] || PermanentlyDropped(st.batch, rounds, 0, v.held)))
            && (out.refused ==>
                  && out.batches == st.batches && out.leaked == st.leaked + v.accepted
                  && out.delivered == st.delivered && out.reports == st.reports)
  {
    SendConserves(cfg.retry, st.batch, rounds);
  }

  ghost predicate WholeEvents(events: seq<Event>) {
    forall i :: 0 <= i < |events| ==> Whole(events[i].rounds)
  }

  lemma FlushLeaksNothing(cfg: Config, st: ConnState, rounds: seq<Round>)
    requires Whole(rounds)
    ensures Flush(cfg, st, rounds).leaked == st.leaked
  {
    WholeTakesAllOrNothing(cfg.retry, st.batch, rounds);
  }

  lemma {:induction false} StepsLeakNothing(cfg: Config, resume: Cursor, events: seq<Event>)
    requires WholeEvents(events)
    ensures Steps(cfg, Opened(resume), events).leaked == multiset{}
    decreases |events|
  {
    if events != [] {
      var front, event := events[..|events| - 1], events[|events| - 1];
      StepsLeakNothing(cfg, resume, front);
      var st := Steps(cfg, Opened(resume), front);
      FlushLeaksNothing(cfg, st, event.rounds);
      if event.Arrive? {
        FlushLeaksNothing(cfg, Append(st.(filter := st.filter.Seen(event.record.ts)), event.record), event.rounds);
      }
    }
  }

  /** Nothing leaks from a pipeline that takes batches whole. */
  lemma ConnectionLeaksNothing(cfg: Config, resume: Cursor, conn: Connection)
    requires WholeEvents(conn.events) && Whole(conn.last)
    ensures Finished(cfg, resume, conn).leaked == multiset{}
  {
    StepsLeakNothing(cfg, resume, conn.events);
    FlushLeaksNothing(cfg, Steps(cfg, Opened(resume), conn.events), conn.last);
  }

  /** The filter once the records s have gone past it. */
  function FilterAfter(f: FilterState, s: seq<Record>): FilterState {
    if s == [] then f else FilterAfter(f, s[..|s| - 1]).Seen(s[|s| - 1].ts)
  }

  lemma {:induction false} KeptSnoc(f: FilterState, s: seq<Record>, x: Record)
    ensures Kept(f, s + [x]) == Kept(f, s) + (if FilterAfter(f, s).Keeps(x.ts) then [x] else [])
    ensures FilterAfter(f, s + [x]) == FilterAfter(f, s).Seen(x.ts)
    decreases |s|
  {
    assert (s + [x])[..|s|] == s;
    if s != [] {
      assert (s + [x])[1..] == s[1..] + [x];
      KeptSnoc(f.Seen(s[0].ts), s[1..], x);
      FilterAfterFront(f, s);
    } else {
      assert s + [x] == [x];
    }
  }

  lemma {:induction false} FilterAfterFront(f: FilterState, s: seq<Record>)
    requires s != []
    ensures FilterAfter(f, s) == FilterAfter(f.Seen(s[0].ts), s[1..])
    decreases |s|
  {
    if |s| > 1 {
      FilterAfterFront(f, s[..|s| - 1]);
      assert s[..|s| - 1][1..] == s[1..][..|s| - 2];
    }
  }

  /** What a flush does with the batch: all of it follows the earlier batches, or
      the flush was refused and they stay as they are. */
  ghost predicate MovesBatch(st: ConnState, out: ConnState) {
    && out.filter == st.filter && out.batch == []
    && Flat(out.batches) == (if out.refused then Flat(st.batches) else Flat(st.batches) + st.batch)
  }

  lemma FlushMovesBatch(cfg: Config, st: ConnState, rounds: seq<Round>)
    requires !st.refused
    ensures MovesBatch(st, Flush(cfg, st, rounds))
    ensures Flush(cfg, st, rounds).refused ==> st.batch != []
  {
    FlatSnoc(st.batches, st.batch);
    assert Flat(st.batches) + [] == Flat(st.batches);
  }

  /** What a flush does with the cursors: the pending one is reported if the batch
      moved it, unless the flush was refused. */
  ghost predicate MovesCursor(st: ConnState, out: ConnState) {
    && out.pending == st.pending && !out.advanced
    && (if st.advanced && !out.refused then
          out.delivered == st.pending && out.reports == st.reports + [st.pending]
        else
          out.delivered == st.delivered && out.reports == st.reports)
  }

  lemma FlushMovesCursor(cfg: Config, st: ConnState, rounds: seq<Round>)
    requires !st.refused && (st.advanced ==> st.batch != [])
    ensures MovesCursor(st, Flush(cfg, st, rounds))
  {
  }

  ghost predicate Contents(st: ConnState, resume: Cursor, arrived: seq<Record>) {
    var kept := Kept(NewFilter(resume), arrived);
    && Prefix(Flat(st.batches), kept)
    && (!st.refused ==> Flat(st.batches) + st.batch == kept && st.filter == FilterAfter(NewFilter(resume), arrived))
  }

  lemma {:induction false} StepsContents(cfg: Config, resume: Cursor, events: seq<Event>)
    ensures Contents(Steps(cfg, Opened(resume), events), resume, Arrivals(events))
    decreases |events|
  {
    if events != [] {
      var front := events[..|events| - 1];
      StepsContents(cfg, resume, front);
      var st := Steps(cfg, Opened(resume), front);
      match events[|events| - 1] {
        case Arrive(record, rounds) =>
          ArriveContents(cfg, resume, st, record, rounds, Arrivals(front));
        case Tick(rounds) =>
          assert Arrivals(events) == Arrivals(front);
          if !st.refused {
            FlushContents(cfg, resume, st, rounds, Arrivals(front));
          }
      }
    }
  }

  lemma ArriveContents(cfg: Config, resume: Cursor, st: ConnState, record: Record, rounds: seq<Round>, arrived: seq<Record>)
    requires Contents(st, resume, arrived)
    ensures Contents(Step(cfg, st, Arrive(record, rounds)), resume, arrived + [record])
  {
    KeptSnoc(NewFilter(resume), arrived, record);
    if !st.refused && st.filter.Keeps(record.ts) {
      var appended := Append(st.(filter := st.filter.Seen(record.ts)), record);
      assert Flat(appended.batches) + appended.batch == Flat(st.batches) + st.batch + [record];
      FlushContents(cfg, resume, appended, rounds, arrived + [record]);
    }
  }

  lemma FlushContents(cfg: Config, resume: Cursor, st: ConnState, rounds: seq<Round>, arrived: seq<Record>)
    requires !st.refused && Contents(st, resume, arrived)
    ensures Contents(Flush(cfg, st, rounds), resume, arrived)
  {
    FlushMovesBatch(cfg, st, rounds);
  }

  /** Within one connection, for every interleaving of arrivals, ticks and end of
      stream and every answer of the pipeline: the batches handed on are the kept
      lines in order, cut short only by a refusal; none is empty or over the
      limit. */
  lemma ConnectionKeepsOrder(cfg: Config, resume: Cursor, conn: Connection)
    requires cfg.maxBatch > 0
    ensures var st := Finished(cfg, resume, conn);
            var kept := Kept(NewFilter(resume), Arrivals(conn.events));
            && Prefix(Flat(st.batches), kept)
            && (!st.refused ==> Flat(st.batches) == kept)
            && Sizes(cfg, st)
  {
    FinishedSizes(cfg, resume, conn);
    FinishedContents(cfg, resume, conn);
    HandedOn(Finished(cfg, resume, conn), resume, Arrivals(conn.events));
  }

  lemma FinishedSizes(cfg: Config, resume: Cursor, conn: Connection)
    requires cfg.maxBatch > 0
    ensures Sizes(cfg, Finished(cfg, resume, conn))
  {
    StepsSizes(cfg, resume, conn.events);
  }

  lemma FinishedContents(cfg: Config, resume: Cursor, conn: Connection)
    ensures var st := Finished(cfg, resume, conn);
            Contents(st, resume, Arrivals(conn.events)) && (!st.refused ==> st.batch == [])
  {
    var st := Steps(cfg, Opened(resume), conn.events);
    StepsContents(cfg, resume, conn.events);
    if !st.refused {
      FlushContents(cfg, resume, st, conn.last, Arrivals(conn.events));
      FlushMovesBatch(cfg, st, conn.last);
    }
  }

  lemma HandedOn(st: ConnState, resume: Cursor, arrived: seq<Record>)
    requires Contents(st, resume, arrived) && (!st.refused ==> st.batch == [])
    ensures Prefix(Flat(st.batches), Kept(NewFilter(resume), arrived))
    ensures !st.refused ==> Flat(st.batches) == Kept(NewFilter(resume), arrived)
  {
  }

  lemma FinishedReports(cfg: Config, resume: Cursor, conn: Connection)
    ensures Reports(resume, Finished(cfg, resume, conn))
  {
    StepsReports(cfg, resume, conn.events);
    var st := Steps(cfg, Opened(resume), conn.events);
    if !st.refused {
      FlushReports(cfg, resume, st, conn.last);
    }
  }

  /** Progress only ever grows, from the cursor resumed from onwards, and the
      cursor a connection returns is its last report. */
  lemma ConnectionProgresses(cfg: Config, resume: Cursor, conn: Connection, st: ConnState)
    requires st == Finished(cfg, resume, conn)
    ensures Increasing(resume, st.reports)
    ensures st.delivered == (if st.reports == [] then ZERO else st.reports[|st.reports| - 1])
  {
    FinishedReports(cfg, resume, conn);
  }

  // ---------------------------------------------------------------------
  // Against the log: what has been handed on, and where the cursor stands
  // ---------------------------------------------------------------------

  /** Where a connection is in the log: it was served from start on; the cursor it
      resumed from stands at home; it has read up to read and handed on up to cut;
      its pending cursor stands at mark and its committed one at stand. */
  datatype View = View(start: nat, home: nat, read: nat, cut: nat, mark: nat, stand: nat)

  ghost predicate InRange(log: seq<Record>, v: View) {
    && v.start <= v.home <= |log|
    && v.start <= v.cut <= v.read <= |log|
    && v.home <= v.mark <= Max(v.home, v.read)
    && v.home <= v.stand <= Max(v.home, v.cut) && v.stand <= v.mark
    && NoneStamped(log, v.mark, Max(v.home, v.read))
    && NoneStamped(log, v.stand, Max(v.home, v.cut))
  }

  ghost predicate CursorsTrack(log: seq<Record>, resume: Cursor, v: View, st: ConnState) {
    && Stands(log, resume, v.home)
    && Stands(log, st.pending, v.mark)
    && Stands(log, Committed(resume, st), v.stand)
    && (st.delivered.IsZero() ==> v.stand == v.home)
    && (!st.refused && !st.advanced ==> st.pending == Committed(resume, st) && v.mark == v.stand)
    && (st.advanced ==> !st.pending.IsZero() && st.batch != [])
  }

  ghost predicate BatchesTrack(log: seq<Record>, v: View, st: ConnState)
    requires InRange(log, v)
  {
    && Flat(st.batches) == KeptIn(log, v.home, v.start, v.cut)
    && (!st.refused ==> st.batch == KeptIn(log, v.home, v.cut, v.read))
    && (st.refused ==> KeptIn(log, v.home, v.cut, v.read) != [])
  }

  /** A cursor that stands somewhere from lo to hi. */
  ghost predicate StandsWithin(log: seq<Record>, c: Cursor, lo: nat, hi: nat) {
    !c.IsZero() && exists q :: lo <= q <= hi && Stands(log, c, q)
  }

  ghost predicate ReportsWithin(log: seq<Record>, reports: seq<Cursor>, lo: nat, hi: nat) {
    forall i :: 0 <= i < |reports| ==> StandsWithin(log, reports[i], lo, hi)
  }

  /** Every cursor reported so far stands between where the connection resumed and
      where it is committed to. */
  ghost predicate ReportsTrack(log: seq<Record>, v: View, st: ConnState) {
    (st.delivered.IsZero() <==> st.reports == []) && ReportsWithin(log, st.reports, v.home, v.stand)
  }

  ghost predicate Tracks(log: seq<Record>, resume: Cursor, v: View, st: ConnState) {
    && InRange(log, v)
    && FilterTracks(log, resume, v.home, v.read, st.filter)
    && CursorsTrack(log, resume, v, st)
    && BatchesTrack(log, v, st)
    && ReportsTrack(log, v, st)
  }

  /** A connection resumed from a cursor standing at home, served from start on,
      is on track when it opens. */
  lemma OpensOnTrack(log: seq<Record>, resume: Cursor, start: nat, home: nat)
    requires Stands(log, resume, home) && start <= home
    requires resume.IsZero() ==> start == home
    requires !resume.IsZero() ==> forall i :: 0 <= i < start ==> log[i].ts < resume.ts
    ensures Tracks(log, resume, View(start, home, start, start, home, home), Opened(resume))
  {
    FilterStarts(log, resume, home, start);
  }

  lemma FlushOnTrack(log: seq<Record>, cfg: Config, resume: Cursor, v: View, st: ConnState, rounds: seq<Round>)
    returns (w: View)
    requires Tracks(log, resume, v, st) && !st.refused
    ensures Tracks(log, resume, w, Flush(cfg, st, rounds))
    ensures w.start == v.start && w.home == v.home && w.read == v.read
    ensures !Flush(cfg, st, rounds).refused ==> w.cut == w.read
  {
    var out := Flush(cfg, st, rounds);
    FlushMovesBatch(cfg, st, rounds);
    FlushMovesCursor(cfg, st, rounds);
    if out.refused {
      w := v;
      RefusedOnTrack(log, resume, v, st, out);
    } else {
      w := v.(cut := v.read, stand := v.mark);
      FlushedBatchesTrack(log, v, st, w, out);
      FlushedCursorsTrack(log, resume, v, st, w, out);
      ReportsGrow(log, resume, v, st, w, out);
    }
  }

  lemma RefusedOnTrack(log: seq<Record>, resume: Cursor, v: View, st: ConnState, out: ConnState)
    requires Tracks(log, resume, v, st) && !st.refused && st.batch != [] && out.refused
    requires MovesBatch(st, out) && MovesCursor(st, out)
    ensures Tracks(log, resume, v, out)
  {
  }

  lemma FlushedBatchesTrack(log: seq<Record>, v: View, st: ConnState, w: View, out: ConnState)
    requires InRange(log, v) && BatchesTrack(log, v, st) && !st.refused
    requires MovesBatch(st, out) && !out.refused && w == v.(cut := v.read, stand := v.mark)
    ensures InRange(log, w) && BatchesTrack(log, w, out)
  {
    KeptInSplit(log, v.home, v.start, v.cut, v.read);
    assert KeptIn(log, v.home, v.read, v.read) == [];
  }

  lemma FlushedCursorsTrack(log: seq<Record>, resume: Cursor, v: View, st: ConnState, w: View, out: ConnState)
    requires InRange(log, v) && CursorsTrack(log, resume, v, st) && !st.refused
    requires MovesCursor(st, out) && !out.refused && w == v.(cut := v.read, stand := v.mark)
    ensures CursorsTrack(log, resume, w, out)
  {
    assert Committed(resume, out) == st.pending;
  }

  /** A flush reports the pending cursor, which stands where the flush gets to. */
  lemma ReportsGrow(log: seq<Record>, resume: Cursor, v: View, st: ConnState, w: View, out: ConnState)
    requires InRange(log, v) && CursorsTrack(log, resume, v, st) && ReportsTrack(log, v, st)
    requires w == v.(cut := v.read, stand := v.mark)
    requires (out.delivered == st.delivered && out.reports == st.reports)
          || (st.advanced && out.delivered == st.pending && out.reports == st.reports + [st.pending])
    ensures ReportsTrack(log, w, out)
  {
    forall i | 0 <= i < |out.reports| ensures StandsWithin(log, out.reports[i], w.home, w.stand) {
      if i < |st.reports| {
        assert StandsWithin(log, st.reports[i], v.home, v.stand);
      } else {
        assert Stands(log, st.pending, v.mark);
      }
    }
  }

  /** A line the filter drops moves nothing but the filter. */
  lemma SkipOnTrack(log: seq<Record>, resume: Cursor, v: View, st: ConnState) returns (w: View)
    requires Ordered(log) && Tracks(log, resume, v, st) && !st.refused && v.read < |log|
    requires !st.filter.Keeps(log[v.read].ts)
    ensures Tracks(log, resume, w, st.(filter := st.filter.Seen(log[v.read].ts)))
    ensures w == v.(read := v.read + 1)
  {
    w := v.(read := v.read + 1);
    FilterStep(log, resume, v.home, v.read, st.filter);
  }

  /** The pending cursor covers a line the filter kept. */
  lemma AppendCursors(log: seq<Record>, resume: Cursor, v: View, st: ConnState) returns (w: View)
    requires Ordered(log) && InRange(log, v) && CursorsTrack(log, resume, v, st) && !st.refused
    requires v.read < |log| && (v.read >= v.home || !Stamped(log[v.read]))
    ensures InRange(log, w) && CursorsTrack(log, resume, w, Append(st, log[v.read]))
    ensures w == v.(read := v.read + 1, mark := w.mark)
  {
    if Stamped(log[v.read]) {
      RecordAdvances(log, st.pending, v.mark, v.read);
      w := v.(read := v.read + 1, mark := v.read + 1);
    } else {
      w := v.(read := v.read + 1);
      UnstampedUnmoved(st, log[v.read]);
    }
    ReadInRange(log, v, w);
  }

  lemma ReadInRange(log: seq<Record>, v: View, w: View)
    requires InRange(log, v) && v.read < |log|
    requires if Stamped(log[v.read]) then v.read >= v.home && w == v.(read := v.read + 1, mark := v.read + 1)
             else w == v.(read := v.read + 1)
    ensures InRange(log, w)
  {
  }

  lemma UnstampedUnmoved(st: ConnState, record: Record)
    requires !Stamped(record)
    ensures Append(st, record) == st.(batch := st.batch + [record])
  {
  }

  /** A line the filter keeps joins the batch, and the pending cursor covers it. */
  lemma AppendOnTrack(log: seq<Record>, resume: Cursor, v: View, st: ConnState) returns (w: View)
    requires Ordered(log) && Tracks(log, resume, v, st) && !st.refused && v.read < |log|
    requires st.filter.Keeps(log[v.read].ts)
    ensures Tracks(log, resume, w, Append(st.(filter := st.filter.Seen(log[v.read].ts)), log[v.read]))
    ensures w.start == v.start && w.home == v.home && w.read == v.read + 1
  {
    FilterStep(log, resume, v.home, v.read, st.filter);
    var seen := st.(filter := st.filter.Seen(log[v.read].ts));
    w := AppendCursors(log, resume, v, seen);
    AppendBatches(log, v, seen, w);
    AppendKeepsReports(log, v, seen, w);
  }

  lemma AppendBatches(log: seq<Record>, v: View, st: ConnState, w: View)
    requires InRange(log, v) && InRange(log, w) && BatchesTrack(log, v, st) && !st.refused && v.read < |log|
    requires v.read >= v.home || !Stamped(log[v.read])
    requires w == v.(read := v.read + 1, mark := w.mark)
    ensures BatchesTrack(log, w, Append(st, log[v.read]))
  {
  }

  lemma AppendKeepsReports(log: seq<Record>, v: View, st: ConnState, w: View)
    requires ReportsTrack(log, v, st) && v.read < |log| && w == v.(read := v.read + 1, mark := w.mark)
    ensures ReportsTrack(log, w, Append(st, log[v.read]))
  {
  }

  lemma ArriveOnTrack(log: seq<Record>, cfg: Config, resume: Cursor, v: View, st: ConnState, rounds: seq<Round>)
    returns (w: View)
    requires Ordered(log) && Tracks(log, resume, v, st) && !st.refused && v.read < |log|
    requires st.filter.Keeps(log[v.read].ts)
    ensures Tracks(log, resume, w, Step(cfg, st, Arrive(log[v.read], rounds)))
    ensures w.start == v.start && w.home == v.home && w.read == v.read + 1
  {
    var appended := Append(st.(filter := st.filter.Seen(log[v.read].ts)), log[v.read]);
    w := AppendOnTrack(log, resume, v, st);
    w := FlushIfFullOnTrack(log, cfg, resume, w, appended, rounds);
  }

  lemma FlushIfFullOnTrack(log: seq<Record>, cfg: Config, resume: Cursor, v: View, st: ConnState, rounds: seq<Round>)
    returns (w: View)
    requires Tracks(log, resume, v, st) && !st.refused
    ensures Tracks(log, resume, w, if |st.batch| >= cfg.maxBatch then Flush(cfg, st, rounds) else st)
    ensures w.start == v.start && w.home == v.home && w.read == v.read
  {
    w := v;
    if |st.batch| >= cfg.maxBatch {
      w := FlushOnTrack(log, cfg, resume, v, st, rounds);
    }
  }

  lemma StepOnTrack(log: seq<Record>, cfg: Config, resume: Cursor, v: View, st: ConnState, event: Event)
    returns (w: View)
    requires Ordered(log) && Tracks(log, resume, v, st) && !st.refused
    requires event.Arrive? ==> v.read < |log| && event.record == log[v.read]
    ensures Tracks(log, resume, w, Step(cfg, st, event))
    ensures w.start == v.start && w.home == v.home
    ensures w.read == v.read + (if event.Arrive? then 1 else 0)
  {
    match event
    case Tick(rounds) =>
      w := FlushOnTrack(log, cfg, resume, v, st, rounds);
    case Arrive(record, rounds) =>
      if st.filter.Keeps(record.ts) {
        w := ArriveOnTrack(log, cfg, resume, v, st, rounds);
      } else {
        w := SkipOnTrack(log, resume, v, st);
      }
  }

  lemma {:induction false} StepsOnTrack(log: seq<Record>, cfg: Config, resume: Cursor, start: nat, home: nat, events: seq<Event>)
    returns (v: View)
    requires Ordered(log) && start <= |log| && Prefix(Arrivals(events), log[start..])
    requires Tracks(log, resume, View(start, home, start, start, home, home), Opened(resume))
    ensures Tracks(log, resume, v, Steps(cfg, Opened(resume), events))
    ensures v.start == start && v.home == home
    ensures v.read <= start + |Arrivals(events)|
    ensures !Steps(cfg, Opened(resume), events).refused ==> v.read == start + |Arrivals(events)|
    decreases |events|
  {
    if events == [] {
      v := View(start, home, start, start, home, home);
    } else {
      var front, event := events[..|events| - 1], events[|events| - 1];
      ArrivalsFront(log, start, events);
      v := StepsOnTrack(log, cfg, resume, start, home, front);
      var st := Steps(cfg, Opened(resume), front);
      if !st.refused {
        v := StepOnTrack(log, cfg, resume, v, st, event);
      }
    }
  }

  /** The last event of a prefix served is the next record of the log. */
  lemma ArrivalsFront(log: seq<Record>, start: nat, events: seq<Event>)
    requires start <= |log| && events != [] && Prefix(Arrivals(events), log[start..])
    ensures var front, e, n := events[..|events| - 1], events[|events| - 1], |Arrivals(events[..|events| - 1])|;
            && Prefix(Arrivals(front), log[start..])
            && |Arrivals(events)| == n + (if e.Arrive? then 1 else 0)
            && (e.Arrive? ==> start + n < |log| && e.record == log[start + n])
  {
    var e, n := events[|events| - 1], |Arrivals(events[..|events| - 1])|;
    if e.Arrive? {
      assert e.record == Arrivals(events)[n];
    }
  }

  /** The records a connection served from start on hands over, from the cursor
      standing at home: a slice of the log, plus unstamped records it repeats. */
  ghost predicate HandsOver(log: seq<Record>, resume: Cursor, v: View, st: ConnState) {
    && InRange(log, v)
    && Stands(log, Committed(resume, st), v.stand)
    && (st.delivered.IsZero() ==> v.stand == v.home)
    && Flat(st.batches) == KeptIn(log, v.home, v.start, v.cut)
    && (st.refused ==> KeptIn(log, v.home, v.cut, v.read) != [])
    && ReportsTrack(log, v, st)
  }

  /** A connection resumed from a cursor standing at home may be served from start on. */
  ghost predicate MayStart(log: seq<Record>, resume: Cursor, start: nat, home: nat) {
    && Stands(log, resume, home) && start <= home
    && (resume.IsZero() ==> start == home)
    && (!resume.IsZero() ==> forall i :: 0 <= i < start ==> log[i].ts < resume.ts)
  }

  /** A connection still open, served a prefix of the log from start on. */
  lemma EventsOnTrack(log: seq<Record>, cfg: Config, resume: Cursor, start: nat, home: nat, events: seq<Event>)
    returns (v: View)
    requires Ordered(log) && start <= |log| && Prefix(Arrivals(events), log[start..])
    requires MayStart(log, resume, start, home)
    ensures HandsOver(log, resume, v, Steps(cfg, Opened(resume), events))
    ensures v.start == start && v.home == home
  {
    OpensOnTrack(log, resume, start, home);
    v := StepsOnTrack(log, cfg, resume, start, home, events);
  }

  /** A whole connection, served a prefix of the log from start on. If it was not
      refused, everything it read has been handed over. */
  lemma ConnectionOnTrack(log: seq<Record>, cfg: Config, resume: Cursor, start: nat, home: nat, conn: Connection)
    returns (v: View)
    requires Ordered(log) && start <= |log| && Prefix(Arrivals(conn.events), log[start..])
    requires MayStart(log, resume, start, home)
    ensures HandsOver(log, resume, v, Finished(cfg, resume, conn))
    ensures v.start == start && v.home == home
    ensures !Finished(cfg, resume, conn).refused ==> v.cut == start + |Arrivals(conn.events)|
  {
    OpensOnTrack(log, resume, start, home);
    v := StepsOnTrack(log, cfg, resume, start, home, conn.events);
    var st := Steps(cfg, Opened(resume), conn.events);
    if !st.refused {
      v := FlushOnTrack(log, cfg, resume, v, st, conn.last);
    }
  }

  /** What a connection hands over, in full: the unstamped records it repeats
      from before its cursor, then the log from the cursor on. */
  lemma HandedOverExactly(log: seq<Record>, resume: Cursor, v: View, st: ConnState)
    requires HandsOver(log, resume, v, st)
    ensures Flat(st.batches) == (if v.cut <= v.home then UnstampedOf(log[v.start..v.cut])
                                 else UnstampedOf(log[v.start..v.home]) + log[v.home..v.cut])
  {
    if v.cut <= v.home {
      KeptInBefore(log, v.home, v.start, v.cut);
    } else {
      KeptInSplit(log, v.home, v.start, v.home, v.cut);
      KeptInBefore(log, v.home, v.start, v.home);
      KeptInPast(log, v.home, v.home, v.cut);
    }
  }

  /** A refusal leaves something behind that the cursor has not passed. */
  lemma RefusedShort(log: seq<Record>, resume: Cursor, v: View, st: ConnState)
    requires AllStamped(log) && HandsOver(log, resume, v, st) && st.refused
    ensures v.stand < |log|
  {
    if v.read <= v.home {
      KeptInNone(log, v.home, v.cut, v.read);
    }
  }

  lemma {:induction false} KeptInNone(log: seq<Record>, q: nat, lo: nat, hi: nat)
    requires AllStamped(log) && lo <= hi <= q && hi <= |log|
    ensures KeptIn(log, q, lo, hi) == []
    decreases hi
  {
    if lo < hi {
      KeptInNone(log, q, lo, hi - 1);
    }
  }

  lemma {:induction false} KeptInStamped(log: seq<Record>, q: nat, lo: nat, hi: nat)
    requires AllStamped(log) && hi <= |log|
    ensures AllStamped(KeptIn(log, q, lo, hi))
    decreases hi
  {
    if lo < hi {
      KeptInStamped(log, q, lo, hi - 1);
    }
  }

  /** Its stamped records are exactly those its cursor moved over, and no record
      the cursor moved over is missing. */
  lemma HandedOverCovers(log: seq<Record>, resume: Cursor, v: View, st: ConnState)
    requires HandsOver(log, resume, v, st)
    ensures v.home <= v.stand <= |log|
    ensures StampedOf(Flat(st.batches)) == StampedOf(log[v.home..v.stand])
    ensures multiset(log[v.home..v.stand]) <= multiset(Flat(st.batches))
    ensures AllStamped(log) ==> AllStamped(Flat(st.batches))
  {
    if AllStamped(log) {
      KeptInStamped(log, v.home, v.start, v.cut);
    }
    HandedOverExactly(log, resume, v, st);
    var repeated := UnstampedOf(log[v.start..if v.cut <= v.home then v.cut else v.home]);
    UnstampedOfIsUnstamped(log[v.start..if v.cut <= v.home then v.cut else v.home]);
    StampedOfNone(repeated);
    if v.cut <= v.home {
      assert log[v.home..v.stand] == [];
    } else {
      StampedOfConcat(repeated, log[v.home..v.cut]);
      StampedOfSlice(log, v.home, v.stand, v.cut);
      SlicesJoin(log, v.home, v.stand, v.cut);
    }
  }
}
