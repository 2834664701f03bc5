/** What whole runs of one stream keep: every record once, in order, however the
    connections are cut and however the pipeline answers. */
module Runs {
  import opened Records
  import opened Cursors
  import opened Retries
  import opened Connections
  import opened Readings
  import opened Streams

  // ---------------------------------------------------------------------
  // The kubelet
  // ---------------------------------------------------------------------

  /** The kubelet serves a connection the log from its start point, cut anywhere. */
  ghost predicate ServesConnection(log: seq<Record>, point: StartPoint, kubeletNow: nat, conn: Connection) {
    Prefix(Arrivals(conn.events), log[KubeletStart(log, point, kubeletNow)..])
  }

  ghost predicate Serves(log: seq<Record>, cfg: StreamConfig, p: Progress, a: Attempt) {
    a.Followed? ==>
      && ServesConnection(log, FollowPoint(cfg, p, a), a.kubeletNow, a.conn)
      && (a.drain.Some? ==>
            ServesConnection(log, DrainStartPoint(Consumed(cfg, p, a.conn).resume.ts), a.kubeletNow, a.drain.value))
  }

  ghost predicate ServesRun(log: seq<Record>, cfg: StreamConfig, p: Progress, script: seq<Attempt>) {
    forall i :: 0 <= i < |script| ==> Serves(log, cfg, Turns(cfg, p, script[..i]), script[i])
  }

  /** Where a connection for cursor c may start: on a timestamp boundary while
      nothing has been read, and before the cursor's second otherwise. */
  lemma KubeletStartsRight(log: seq<Record>, c: Cursor, point: StartPoint, kubeletNow: nat)
    requires Ordered(log)
    requires !c.IsZero() ==> point == StartPoint(Some(c.ts), None)
    ensures var r := KubeletStart(log, point, kubeletNow);
            && Boundary(log, r)
            && (!c.IsZero() ==> r == FirstFrom(log, FloorSecond(c.ts)))
  {
    var since := SinceOf(point, kubeletNow);
    if since.Some? {
      FirstFromIsBoundary(log, since.value);
    }
  }

  // ---------------------------------------------------------------------
  // The invariant of a stream
  // ---------------------------------------------------------------------

  /** handed holds each stamped record of log[base..here] exactly once, in order,
      and each unstamped one at least once. */
  ghost predicate Covers(log: seq<Record>, base: nat, here: nat, handed: seq<Record>) {
    && base <= here <= |log|
    && StampedOf(handed) == StampedOf(log[base..here])
    && multiset(log[base..here]) <= multiset(handed)
    && (AllStamped(log) ==> AllStamped(handed))
  }

  /** The stream's cursor stands at here; what has been handed on covers the log
      from the boundary base up to it, and every cursor reported lies in between. */
  ghost predicate Settled(log: seq<Record>, base: nat, here: nat, resume: Cursor,
                          batches: seq<seq<Record>>, reports: seq<Cursor>) {
    && Stands(log, resume, here)
    && (resume.IsZero() ==> base == here && reports == [])
    && Covers(log, base, here, Flat(batches))
    && ReportsWithin(log, reports, base, here)
  }

  ghost predicate SettledBy(log: seq<Record>, base: nat, here: nat, p: Progress) {
    Settled(log, base, here, p.resume, p.batches, p.reports)
  }

  lemma SettledAtStart(log: seq<Record>, resume: Cursor, here: nat)
    requires Stands(log, resume, here)
    ensures Settled(log, here, here, resume, [], [])
  {
    assert log[here..here] == [];
  }

  /** Two stretches handed on one after the other are one stretch handed on. */
  lemma StretchesJoin(a: seq<Record>, b: seq<Record>, first: seq<Record>, second: seq<Record>)
    requires StampedOf(first) == StampedOf(a) && multiset(a) <= multiset(first)
    requires StampedOf(second) == StampedOf(b) && multiset(b) <= multiset(second)
    ensures StampedOf(first + second) == StampedOf(a + b)
    ensures multiset(a + b) <= multiset(first + second)
  {
    StampedOfConcat(first, second);
    StampedOfConcat(a, b);
    MultisetsJoin(a, b, first, second);
  }

  lemma MultisetsJoin(a: seq<Record>, b: seq<Record>, c: seq<Record>, d: seq<Record>)
    requires multiset(a) <= multiset(c) && multiset(b) <= multiset(d)
    ensures multiset(a + b) <= multiset(c + d)
  {
    assert multiset(a + b) == multiset(a) + multiset(b);
    assert multiset(c + d) == multiset(c) + multiset(d);
  }

  lemma CoversMore(log: seq<Record>, base: nat, here: nat, next: nat, first: seq<Record>, second: seq<Record>)
    requires Covers(log, base, here, first) && Covers(log, here, next, second)
    ensures Covers(log, base, next, first + second)
  {
    StretchesJoin(log[base..here], log[here..next], first, second);
    SlicesJoin(log, base, here, next);
  }

  lemma SettledMore(log: seq<Record>, base: nat, here: nat, resume: Cursor,
                    batches: seq<seq<Record>>, reports: seq<Cursor>, v: View, st: ConnState)
    requires Settled(log, base, here, resume, batches, reports) && v.home == here
    requires HandsOver(log, resume, v, st)
    ensures Settled(log, base, v.stand, Committed(resume, st), batches + st.batches, reports + st.reports)
  {
    HandedOverCovers(log, resume, v, st);
    FlatConcat(batches, st.batches);
    CoversMore(log, base, here, v.stand, Flat(batches), Flat(st.batches));
    ReportsJoin(log, base, here, v.stand, reports, st.reports);
  }

  lemma ReportsJoin(log: seq<Record>, lo: nat, mid: nat, hi: nat, first: seq<Cursor>, second: seq<Cursor>)
    requires lo <= mid <= hi && ReportsWithin(log, first, lo, mid) && ReportsWithin(log, second, mid, hi)
    ensures ReportsWithin(log, first + second, lo, hi)
  {
    forall i | 0 <= i < |first + second| ensures StandsWithin(log, (first + second)[i], lo, hi) {
      if i < |first| {
        assert StandsWithin(log, first[i], lo, mid);
      } else {
        assert StandsWithin(log, second[i - |first|], mid, hi);
      }
    }
  }

  /** Where delivery counts from once another read has been opened: where that read
      starts as long as nothing has been delivered, and where it did before after
      that. Nothing remembers where an earlier read started. */
  function Rebased(log: seq<Record>, base: nat, resume: Cursor, point: StartPoint, kubeletNow: nat): nat {
    if resume.IsZero() then KubeletStart(log, point, kubeletNow) else base
  }

  /** A cursor that has read nothing starts over from any boundary. */
  lemma SettledRebased(log: seq<Record>, base: nat, here: nat, resume: Cursor,
                       batches: seq<seq<Record>>, reports: seq<Cursor>, b: nat)
    requires Settled(log, base, here, resume, batches, reports) && resume.IsZero() && Boundary(log, b)
    ensures Settled(log, b, b, resume, batches, reports)
  {
    assert log[base..here] == [] && log[b..b] == [];
  }

  /** A read opened from whatever point the cursor asks for starts on track. */
  lemma ReadOpens(log: seq<Record>, base: nat, here: nat, p: Progress, point: StartPoint, kubeletNow: nat)
    returns (b: nat, home: nat)
    requires Ordered(log) && SettledBy(log, base, here, p)
    requires !p.resume.IsZero() ==> point == StartPoint(Some(p.resume.ts), None)
    ensures b == Rebased(log, base, p.resume, point, kubeletNow)
    ensures home == if p.resume.IsZero() then b else here
    ensures SettledBy(log, b, home, p)
    ensures MayStart(log, p.resume, KubeletStart(log, point, kubeletNow), home)
  {
    var start := KubeletStart(log, point, kubeletNow);
    KubeletStartsRight(log, p.resume, point, kubeletNow);
    if p.resume.IsZero() {
      SettledRebased(log, base, here, p.resume, p.batches, p.reports, start);
      b, home := start, start;
    } else {
      StartsBeforeCursor(log, p.resume, here);
      b, home := base, here;
    }
  }

  /** One connection, from whatever the kubelet serves for the cursor. When it was
      not refused, everything it read has been handed on. */
  lemma ConsumedSettles(log: seq<Record>, cfg: StreamConfig, base: nat, here: nat, p: Progress,
                        point: StartPoint, kubeletNow: nat, conn: Connection)
    returns (b: nat, h: nat, v: View)
    requires Ordered(log) && SettledBy(log, base, here, p)
    requires !p.resume.IsZero() ==> point == StartPoint(Some(p.resume.ts), None)
    requires ServesConnection(log, point, kubeletNow, conn)
    ensures SettledBy(log, b, h, Consumed(cfg, p, conn))
    ensures b == Rebased(log, base, p.resume, point, kubeletNow)
    ensures HandsOver(log, p.resume, v, Finished(cfg.conn, p.resume, conn))
    ensures v.start == KubeletStart(log, point, kubeletNow) && v.stand == h
    ensures SettledBy(log, b, v.home, p)
    ensures v.home == if p.resume.IsZero() then b else here
    ensures !Finished(cfg.conn, p.resume, conn).refused ==> v.cut == v.start + |Arrivals(conn.events)|
  {
    var home;
    b, home := ReadOpens(log, base, here, p, point, kubeletNow);
    v := ConnectionOnTrack(log, cfg.conn, p.resume, KubeletStart(log, point, kubeletNow), home, conn);
    SettledMore(log, b, home, p.resume, p.batches, p.reports, v, Finished(cfg.conn, p.resume, conn));
    h := v.stand;
  }


  lemma StartsBeforeCursor(log: seq<Record>, c: Cursor, here: nat)
    requires Ordered(log) && !c.IsZero() && Stands(log, c, here)
    ensures FirstFrom(log, FloorSecond(c.ts)) <= here
    ensures forall i :: 0 <= i < FirstFrom(log, FloorSecond(c.ts)) ==> log[i].ts < c.ts
  {
    var r := FirstFrom(log, FloorSecond(c.ts));
    if c.delivered == 0 && here < |log| {
      assert log[here].ts >= c.ts;
    }
  }

  /** The same, once follow has reported the cursor a second time. */
  lemma FollowSettles(log: seq<Record>, cfg: StreamConfig, base: nat, here: nat, p: Progress, a: Attempt)
    returns (b: nat, h: nat)
    requires Ordered(log) && SettledBy(log, base, here, p)
    requires a.Followed? && ServesConnection(log, FollowPoint(cfg, p, a), a.kubeletNow, a.conn)
    ensures SettledBy(log, b, h, BeforeDrain(cfg, p, a))
    ensures b == Rebased(log, base, p.resume, FollowPoint(cfg, p, a), a.kubeletNow)
  {
    var v;
    b, h, v := ConsumedSettles(log, cfg, base, here, p, FollowPoint(cfg, p, a), a.kubeletNow, a.conn);
    ReportedTwice(log, cfg, b, h, p, a);
  }

  lemma ReportedTwice(log: seq<Record>, cfg: StreamConfig, base: nat, here: nat, p: Progress, a: Attempt)
    requires a.Followed? && SettledBy(log, base, here, Consumed(cfg, p, a.conn))
    ensures SettledBy(log, base, here, BeforeDrain(cfg, p, a))
  {
    var once, last := Consumed(cfg, p, a.conn), Finished(cfg.conn, p.resume, a.conn).delivered;
    if !last.IsZero() {
      assert StandsWithin(log, last, base, here);
      ReportsJoin(log, base, here, here, once.reports, []);
      assert ReportsWithin(log, once.reports + [last], base, here);
    }
  }

  /** Where delivery counts from after one turn. */
  function BaseAfter(log: seq<Record>, cfg: StreamConfig, base: nat, p: Progress, a: Attempt): nat {
    if p.end != AtHead || !a.Followed? then base
    else
      var b := Rebased(log, base, p.resume, FollowPoint(cfg, p, a), a.kubeletNow);
      var d := BeforeDrain(cfg, p, a);
      if Drains(cfg, p, a) then Rebased(log, b, d.resume, DrainStartPoint(d.resume.ts), a.kubeletNow) else b
  }

  /** Where the backfill of a whole run begins: with the last read that was opened
      while nothing had been delivered. */
  function BackfillStart(log: seq<Record>, cfg: StreamConfig, base: nat, p: Progress, script: seq<Attempt>): nat {
    if script == [] then base
    else
      var front := script[..|script| - 1];
      BaseAfter(log, cfg, BackfillStart(log, cfg, base, p, front), Turns(cfg, p, front), script[|script| - 1])
  }

  lemma FollowedSettles(log: seq<Record>, cfg: StreamConfig, base: nat, here: nat, p: Progress, a: Attempt)
    returns (h: nat)
    requires Ordered(log) && SettledBy(log, base, here, p)
    requires p.end == AtHead && a.Followed? && Serves(log, cfg, p, a)
    ensures SettledBy(log, BaseAfter(log, cfg, base, p, a), h, FollowedTo(cfg, p, a))
  {
    var b, v;
    b, h := FollowSettles(log, cfg, base, here, p, a);
    var d := BeforeDrain(cfg, p, a);
    SameAsConsumed(cfg, p, a);
    if Drains(cfg, p, a) {
      b, h, v := ConsumedSettles(log, cfg, b, h, d, DrainStartPoint(d.resume.ts), a.kubeletNow, a.drain.value);
    }
  }

  lemma SameAsConsumed(cfg: StreamConfig, p: Progress, a: Attempt)
    requires a.Followed?
    ensures BeforeDrain(cfg, p, a).resume == Consumed(cfg, p, a.conn).resume
    ensures BeforeDrain(cfg, p, a).batches == Consumed(cfg, p, a.conn).batches
  {
  }

  lemma TurnHandsOn(cfg: StreamConfig, p: Progress, a: Attempt)
    ensures var q := Turn(cfg, p, a);
            var from := if p.end == AtHead && a.Followed? then FollowedTo(cfg, p, a) else p;
            q.resume == from.resume && q.batches == from.batches && q.reports == from.reports
  {
  }

  /** A cursor that has moved stays moved, and so does where delivery counts from. */
  lemma MovedStays(log: seq<Record>, cfg: StreamConfig, base: nat, p: Progress, a: Attempt)
    requires !p.resume.IsZero()
    ensures !Turn(cfg, p, a).resume.IsZero()
    ensures BaseAfter(log, cfg, base, p, a) == base
  {
  }

  lemma TurnSettles(log: seq<Record>, cfg: StreamConfig, base: nat, here: nat, p: Progress, a: Attempt)
    returns (h: nat)
    requires Ordered(log) && SettledBy(log, base, here, p) && Serves(log, cfg, p, a)
    ensures SettledBy(log, BaseAfter(log, cfg, base, p, a), h, Turn(cfg, p, a))
  {
    h := here;
    TurnHandsOn(cfg, p, a);
    if p.end == AtHead && a.Followed? {
      h := FollowedSettles(log, cfg, base, here, p, a);
    }
  }

  /** What every run keeps. */
  lemma {:induction false} RunSettles(log: seq<Record>, cfg: StreamConfig, base: nat, here: nat, p: Progress, script: seq<Attempt>)
    returns (h: nat)
    requires Ordered(log) && SettledBy(log, base, here, p)
    requires ServesRun(log, cfg, p, script)
    ensures SettledBy(log, BackfillStart(log, cfg, base, p, script), h, Turns(cfg, p, script))
    decreases |script|
  {
    h := here;
    if script != [] {
      var front := script[..|script| - 1];
      ServesFront(log, cfg, p, script);
      h := RunSettles(log, cfg, base, here, p, front);
      h := TurnSettles(log, cfg, BackfillStart(log, cfg, base, p, front), h, Turns(cfg, p, front), script[|script| - 1]);
    }
  }

  lemma ServesFront(log: seq<Record>, cfg: StreamConfig, p: Progress, script: seq<Attempt>)
    requires script != [] && ServesRun(log, cfg, p, script)
    ensures ServesRun(log, cfg, p, script[..|script| - 1])
    ensures Serves(log, cfg, Turns(cfg, p, script[..|script| - 1]), script[|script| - 1])
  {
    var front := script[..|script| - 1];
    forall i | 0 <= i < |front| ensures Serves(log, cfg, Turns(cfg, p, front[..i]), front[i]) {
      assert front[..i] == script[..i];
      assert Serves(log, cfg, Turns(cfg, p, script[..i]), script[i]);
    }
  }

  // ---------------------------------------------------------------------
  // Whole runs
  // ---------------------------------------------------------------------

  /** In a log of stamped records, what has been handed on is a stretch of it. */
  lemma SettledExactly(log: seq<Record>, base: nat, here: nat, handed: seq<Record>)
    requires AllStamped(log) && Covers(log, base, here, handed)
    ensures handed == log[base..here]
  {
    StampedOfAll(handed);
    StampedOfAll(log[base..here]);
  }

  /** Once there is a cursor, no read moves where delivery counts from. */
  lemma {:induction false} BackfillFixed(log: seq<Record>, cfg: StreamConfig, base: nat, p: Progress, script: seq<Attempt>)
    requires !p.resume.IsZero()
    ensures !Turns(cfg, p, script).resume.IsZero() && BackfillStart(log, cfg, base, p, script) == base
    decreases |script|
  {
    if script != [] {
      var front := script[..|script| - 1];
      BackfillFixed(log, cfg, base, p, front);
      MovedStays(log, cfg, base, Turns(cfg, p, front), script[|script| - 1]);
    }
  }

  /** A run from any cursor, a zero one included, hands on each stamped record of
      log[base..here] exactly once and in order, and every unstamped one at least
      once: here is where its cursor stands now, and base where it stood at first
      or, from a zero cursor, where the backfill began. */
  lemma RunResumes(log: seq<Record>, cfg: StreamConfig, resume: Cursor, from: nat, script: seq<Attempt>, p: Progress)
    returns (base: nat, here: nat)
    requires Ordered(log) && Stands(log, resume, from)
    requires ServesRun(log, cfg, Started(cfg, resume), script)
    requires p == Turns(cfg, Started(cfg, resume), script)
    ensures base == BackfillStart(log, cfg, from, Started(cfg, resume), script)
    ensures !resume.IsZero() ==> base == from && !p.resume.IsZero()
    ensures base <= here <= |log| && Stands(log, p.resume, here)
    ensures p.resume.IsZero() ==> base == here && p.reports == []
    ensures StampedOf(Flat(p.batches)) == StampedOf(log[base..here])
    ensures multiset(log[base..here]) <= multiset(Flat(p.batches))
    ensures AllStamped(log) ==> Flat(p.batches) == log[base..here]
    ensures ReportsWithin(log, p.reports, base, here)
  {
    SettledAtStart(log, resume, from);
    here := RunSettles(log, cfg, from, from, Started(cfg, resume), script);
    base := BackfillStart(log, cfg, from, Started(cfg, resume), script);
    if !resume.IsZero() {
      BackfillFixed(log, cfg, from, Started(cfg, resume), script);
    }
    if AllStamped(log) {
      SettledExactly(log, base, here, Flat(p.batches));
    }
  }

  ghost predicate WholeScript(script: seq<Attempt>) {
    forall i :: 0 <= i < |script| && script[i].Followed? ==>
      && WholeEvents(script[i].conn.events) && Whole(script[i].conn.last)
      && (script[i].drain.Some? ==> WholeEvents(script[i].drain.value.events) && Whole(script[i].drain.value.last))
  }

  lemma {:induction false} RunLeaksNothing(cfg: StreamConfig, resume: Cursor, script: seq<Attempt>)
    requires WholeScript(script)
    ensures Turns(cfg, Started(cfg, resume), script).leaked == multiset{}
    decreases |script|
  {
    if script != [] {
      var front, a := script[..|script| - 1], script[|script| - 1];
      assert forall i :: 0 <= i < |front| ==> front[i] == script[i];
      RunLeaksNothing(cfg, resume, front);
      var p := Turns(cfg, Started(cfg, resume), front);
      if a.Followed? {
        ConnectionLeaksNothing(cfg.conn, p.resume, a.conn);
        if a.drain.Some? {
          ConnectionLeaksNothing(cfg.conn, BeforeDrain(cfg, p, a).resume, a.drain.value);
        }
      }
    }
  }

  /** What one reconnect hands on, in full: unstamped records read again from the
      start of the cursor's second, and then the log from the cursor on. */
  lemma ReconnectRepeatsOnlyUnstamped(log: seq<Record>, cfg: StreamConfig, p: Progress, here: nat, now: nat, kubeletNow: nat, conn: Connection)
    returns (cut: nat)
    requires Ordered(log) && !p.resume.IsZero() && Stands(log, p.resume, here)
    requires ServesConnection(log, StreamStartPoint(p.resume.ts, cfg.since, now), kubeletNow, conn)
    ensures var second, st := FirstFrom(log, FloorSecond(p.resume.ts)), Finished(cfg.conn, p.resume, conn);
            && second <= here <= |log| && second <= cut <= |log|
            && Flat(st.batches) == (if cut <= here then UnstampedOf(log[second..cut])
                                    else UnstampedOf(log[second..here]) + log[here..cut])
            && (!st.refused ==> cut == second + |Arrivals(conn.events)|)
  {
    StartsBeforeCursor(log, p.resume, here);
    var second := FirstFrom(log, FloorSecond(p.resume.ts));
    var v := ConnectionOnTrack(log, cfg.conn, p.resume, second, here, conn);
    HandedOverExactly(log, p.resume, v, Finished(cfg.conn, p.resume, conn));
    cut := v.cut;
  }

  /** A window of this many seconds reaches back to the first record of the log. */
  predicate Reaches(log: seq<Record>, seconds: nat, kubeletNow: nat) {
    log == [] || kubeletNow <= seconds * SECOND + log[0].ts
  }

  /** The runs that ask for the whole log: with no bound at all, or with one that
      reaches back to its first record at every connect made without a cursor. */
  ghost predicate WholeHistory(log: seq<Record>, cfg: StreamConfig, p: Progress, script: seq<Attempt>) {
    cfg.since.Some? ==>
      && cfg.since.value > 0
      && forall i :: 0 <= i < |script| && script[i].Followed? && Turns(cfg, p, script[..i]).resume.IsZero() ==>
           Reaches(log, cfg.since.value, script[i].kubeletNow)
  }

  lemma WholeHistoryFront(log: seq<Record>, cfg: StreamConfig, p: Progress, script: seq<Attempt>)
    requires WholeHistory(log, cfg, p, script) && script != []
    ensures WholeHistory(log, cfg, p, script[..|script| - 1])
  {
    var front := script[..|script| - 1];
    assert forall i :: 0 <= i < |front| ==> front[..i] == script[..i];
  }

  lemma {:induction false} WholeHistoryFromStart(log: seq<Record>, cfg: StreamConfig, p: Progress, script: seq<Attempt>)
    requires AllStamped(log) && WholeHistory(log, cfg, p, script)
    ensures BackfillStart(log, cfg, 0, p, script) == 0
    decreases |script|
  {
    if script != [] {
      var front, a := script[..|script| - 1], script[|script| - 1];
      WholeHistoryFront(log, cfg, p, script);
      WholeHistoryFromStart(log, cfg, p, front);
      assert log != [] ==> Stamped(log[0]);
    }
  }

  /** Exactly once, for a container never read before: whatever the cuts, flushes
      and refusals, what has been handed on of a stamped log is the stretch from
      where the backfill began up to the cursor. */
  lemma ExactlyOnce(log: seq<Record>, cfg: StreamConfig, script: seq<Attempt>, p: Progress)
    returns (base: nat, here: nat)
    requires Ordered(log) && AllStamped(log)
    requires ServesRun(log, cfg, Started(cfg, ZERO), script)
    requires p == Turns(cfg, Started(cfg, ZERO), script)
    ensures base == BackfillStart(log, cfg, 0, Started(cfg, ZERO), script)
    ensures base <= here <= |log| && Stands(log, p.resume, here)
    ensures Flat(p.batches) == log[base..here]
    ensures WholeHistory(log, cfg, Started(cfg, ZERO), script) ==> base == 0 && Flat(p.batches) == log[..here]
    ensures !p.resume.IsZero() ==> here == CountBelow(log, |log|, p.resume.ts) + p.resume.delivered
    ensures p.resume.IsZero() ==> Flat(p.batches) == []
    ensures WholeScript(script) ==> p.leaked == multiset{}
  {
    if WholeScript(script) {
      RunLeaksNothing(cfg, ZERO, script);
    }
    if WholeHistory(log, cfg, Started(cfg, ZERO), script) {
      WholeHistoryFromStart(log, cfg, Started(cfg, ZERO), script);
    }
    base, here := RunResumes(log, cfg, ZERO, 0, script, p);
    assert log[0..here] == log[..here];
    if !p.resume.IsZero() {
      PositionFormula(log, p.resume, here);
    }
  }
}
