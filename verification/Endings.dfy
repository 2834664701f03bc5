/** How runs end: terminal containers, crashes, older cursors, backoff. */
module Endings {
  import opened Records
  import opened Cursors
  import opened Filters
  import opened Connections
  import opened Readings
  import opened Backoffs
  import opened Streams
  import opened Runs
  import opened Refusals

  // ---------------------------------------------------------------------
  // Terminal containers
  // ---------------------------------------------------------------------

  /** The connection was served to the end of the log, and not refused. */
  ghost predicate ReadsToEnd(log: seq<Record>, cfg: StreamConfig, p: Progress, point: StartPoint, kubeletNow: nat, conn: Connection) {
    && !Refuses(cfg.conn, p.resume, conn)
    && KubeletStart(log, point, kubeletNow) + |Arrivals(conn.events)| == |log|
  }

  /** A connection read to the end completes the log. */
  lemma ConsumedToEnd(log: seq<Record>, cfg: StreamConfig, base: nat, here: nat, p: Progress,
                      point: StartPoint, kubeletNow: nat, conn: Connection)
    returns (b: nat)
    requires Ordered(log) && SettledBy(log, base, here, p)
    requires !p.resume.IsZero() ==> point == StartPoint(Some(p.resume.ts), None)
    requires ServesConnection(log, point, kubeletNow, conn)
    requires ReadsToEnd(log, cfg, p, point, kubeletNow, conn)
    ensures Covers(log, b, |log|, Flat(Consumed(cfg, p, conn).batches))
    ensures b == Rebased(log, base, p.resume, point, kubeletNow)
  {
    var h, v;
    b, h, v := ConsumedSettles(log, cfg, base, here, p, point, kubeletNow, conn);
    var st := Finished(cfg.conn, p.resume, conn);
    ConnectionRefusedWhen(cfg.conn, p.resume, conn);
    HandedOverToEnd(log, p.resume, v, st);
    FlatConcat(p.batches, st.batches);
    CoversMore(log, b, v.home, |log|, Flat(p.batches), Flat(st.batches));
  }

  lemma HandedOverToEnd(log: seq<Record>, resume: Cursor, v: View, st: ConnState)
    requires HandsOver(log, resume, v, st) && v.cut == |log|
    ensures Covers(log, v.home, |log|, Flat(st.batches))
  {
    HandedOverCovers(log, resume, v, st);
    HandedOverExactly(log, resume, v, st);
    StampedOfSlice(log, v.home, v.stand, |log|);
    if v.home == |log| {
      assert log[v.home..|log|] == [];
    }
  }

  /** For a stamped log, exactly when a connection completes it. */
  lemma ConsumedCompletesWhen(log: seq<Record>, cfg: StreamConfig, base: nat, here: nat, p: Progress,
                              point: StartPoint, kubeletNow: nat, conn: Connection)
    returns (b: nat, home: nat)
    requires Ordered(log) && AllStamped(log) && SettledBy(log, base, here, p)
    requires !p.resume.IsZero() ==> point == StartPoint(Some(p.resume.ts), None)
    requires ServesConnection(log, point, kubeletNow, conn)
    ensures b == Rebased(log, base, p.resume, point, kubeletNow)
    ensures home == if p.resume.IsZero() then b else here
    ensures b <= |log|
    ensures Flat(Consumed(cfg, p, conn).batches) == log[b..]
       <==> !Refuses(cfg.conn, p.resume, conn)
            && (home == |log| || KubeletStart(log, point, kubeletNow) + |Arrivals(conn.events)| == |log|)
  {
    var h, v;
    b, h, v := ConsumedSettles(log, cfg, base, here, p, point, kubeletNow, conn);
    home := v.home;
    SettledExactly(log, b, h, Flat(Consumed(cfg, p, conn).batches));
    SliceIsRest(log, b, h);
    StandsAtEndWhen(log, p.resume, v, Finished(cfg.conn, p.resume, conn));
    ConnectionRefusedWhen(cfg.conn, p.resume, conn);
  }

  lemma SliceIsRest(log: seq<Record>, b: nat, h: nat)
    requires b <= h <= |log|
    ensures log[b..h] == log[b..] <==> h == |log|
  {
    assert |log[b..h]| == h - b && |log[b..]| == |log| - b;
  }

  lemma StandsAtEndWhen(log: seq<Record>, resume: Cursor, v: View, st: ConnState)
    requires AllStamped(log) && HandsOver(log, resume, v, st)
    ensures v.stand == |log| <==> !st.refused && (v.home == |log| || v.cut == |log|)
  {
    assert v.stand < |log| ==> Stamped(log[v.stand]);
    if st.refused {
      RefusedShort(log, resume, v, st);
    }
  }

  /** The follow of this turn broke off: the read failed or a batch was refused. */
  ghost predicate BreaksOff(cfg: StreamConfig, p: Progress, a: Attempt)
    requires a.Followed?
  {
    a.conn.broken || Refuses(cfg.conn, p.resume, a.conn)
  }

  lemma BreaksOffWhen(cfg: StreamConfig, p: Progress, a: Attempt)
    requires a.Followed?
    ensures BreaksOff(cfg, p, a) <==> FollowEnding(cfg, p, a) != Clean
  {
    EndingWhen(cfg.conn, p.resume, a.conn);
  }

  /** What a stream has handed on and reported after one read more. */
  ghost predicate Gives(cfg: StreamConfig, p: Progress, conn: Connection, q: Progress, again: bool) {
    var f := Finished(cfg.conn, p.resume, conn);
    && q.batches == p.batches + f.batches
    && q.reports == p.reports + f.reports + (if again && !f.delivered.IsZero() then [f.delivered] else [])
    && q.leaked == p.leaked + f.leaked
    && q.resume == if f.delivered.IsZero() then p.resume else f.delivered
  }

  /** What one turn hands on and reports: the follow's batches and reports and once
      more the cursor it returned; and then those of the final drain, exactly when the
      container is terminal, the follow broke off and the drain can be opened. */
  lemma TurnReadsWhen(cfg: StreamConfig, p: Progress, a: Attempt) returns (d: Progress)
    requires p.end == AtHead && a.Followed?
    ensures Gives(cfg, p, a.conn, d, true)
    ensures if a.terminal && BreaksOff(cfg, p, a) && a.drain.Some? then Gives(cfg, d, a.drain.value, Turn(cfg, p, a), false)
            else Turn(cfg, p, a).batches == d.batches && Turn(cfg, p, a).reports == d.reports
                 && Turn(cfg, p, a).leaked == d.leaked && Turn(cfg, p, a).resume == d.resume
  {
    d := BeforeDrain(cfg, p, a);
    BreaksOffWhen(cfg, p, a);
    TurnKeepsReads(cfg, p, a);
    ReadGives(cfg, p.(failingSince := None), a.conn);
    if Drains(cfg, p, a) {
      ReadGives(cfg, d, a.drain.value);
    }
  }

  lemma ReadGives(cfg: StreamConfig, p: Progress, conn: Connection)
    ensures Gives(cfg, p, conn, ReportedAgain(cfg, p, conn), true) && Gives(cfg, p, conn, Consumed(cfg, p, conn), false)
  {
  }

  lemma TurnKeepsReads(cfg: StreamConfig, p: Progress, a: Attempt)
    requires p.end == AtHead && a.Followed?
    ensures var q, from := Turn(cfg, p, a), FollowedTo(cfg, p, a);
            && q.resume == from.resume && q.batches == from.batches
            && q.reports == from.reports && q.leaked == from.leaked
  {
  }

  /** The last read of this turn got to the end of the log: the follow itself unless
      it broke off, the drain if it did. */
  ghost predicate LastReadReachesEnd(log: seq<Record>, cfg: StreamConfig, p: Progress, a: Attempt)
    requires a.Followed?
  {
    if !BreaksOff(cfg, p, a) then
      KubeletStart(log, FollowPoint(cfg, p, a), a.kubeletNow) + |Arrivals(a.conn.events)| == |log|
    else
      var q := BeforeDrain(cfg, p, a);
      a.drain.Some? && ReadsToEnd(log, cfg, q, DrainStartPoint(q.resume.ts), a.kubeletNow, a.drain.value)
  }

  /** A stream that stops because its container is terminal has handed on the
      whole log if its last read got to the end. */
  lemma TerminalTurnComplete(log: seq<Record>, cfg: StreamConfig, base: nat, here: nat, p: Progress, a: Attempt, q: Progress)
    requires Ordered(log) && SettledBy(log, base, here, p)
    requires a.Followed? && a.terminal && p.end == AtHead && Serves(log, cfg, p, a)
    requires LastReadReachesEnd(log, cfg, p, a)
    requires q == Turn(cfg, p, a)
    ensures q.end == Terminated
    ensures Covers(log, BaseAfter(log, cfg, base, p, a), |log|, Flat(q.batches))
  {
    var b;
    SameAsConsumed(cfg, p, a);
    TurnHandsOn(cfg, p, a);
    BreaksOffWhen(cfg, p, a);
    if FollowEnding(cfg, p, a) == Clean {
      ConnectionRefusedWhen(cfg.conn, p.resume, a.conn);
      b := ConsumedToEnd(log, cfg, base, here, p, FollowPoint(cfg, p, a), a.kubeletNow, a.conn);
    } else {
      var h;
      b, h := FollowSettles(log, cfg, base, here, p, a);
      var d := BeforeDrain(cfg, p, a);
      b := ConsumedToEnd(log, cfg, b, h, d, DrainStartPoint(d.resume.ts), a.kubeletNow, a.drain.value);
    }
  }

  /** Terminal completeness over a whole run, from any cursor: every record has been
      handed on from where the cursor stood or, from a zero cursor, from where the
      backfill began; each stamped one once and in order. */
  lemma TerminalComplete(log: seq<Record>, cfg: StreamConfig, resume: Cursor, from: nat, script: seq<Attempt>,
                         p: Progress, a: Attempt, q: Progress)
    returns (b: nat)
    requires Ordered(log) && Stands(log, resume, from)
    requires ServesRun(log, cfg, Started(cfg, resume), script)
    requires p == Turns(cfg, Started(cfg, resume), script) && p.end == AtHead
    requires a.Followed? && a.terminal && Serves(log, cfg, p, a)
    requires LastReadReachesEnd(log, cfg, p, a)
    requires q == Turn(cfg, p, a)
    ensures q.end == Terminated && b <= |log|
    ensures b == BackfillStart(log, cfg, from, Started(cfg, resume), script + [a])
    ensures !resume.IsZero() ==> b == from
    ensures from == 0 && WholeHistory(log, cfg, Started(cfg, resume), script + [a]) && AllStamped(log) ==> b == 0
    ensures StampedOf(Flat(q.batches)) == StampedOf(log[b..])
    ensures multiset(log[b..]) <= multiset(Flat(q.batches))
    ensures AllStamped(log) ==> Flat(q.batches) == log[b..]
  {
    SettledAtStart(log, resume, from);
    var here := RunSettles(log, cfg, from, from, Started(cfg, resume), script);
    var base := BackfillStart(log, cfg, from, Started(cfg, resume), script);
    TerminalTurnComplete(log, cfg, base, here, p, a, q);
    assert (script + [a])[..|script|] == script;
    b := BackfillStart(log, cfg, from, Started(cfg, resume), script + [a]);
    CoversRest(log, b, Flat(q.batches));
    if !resume.IsZero() {
      BackfillFixed(log, cfg, from, Started(cfg, resume), script + [a]);
    }
    if from == 0 && WholeHistory(log, cfg, Started(cfg, resume), script + [a]) && AllStamped(log) {
      WholeHistoryFromStart(log, cfg, Started(cfg, resume), script + [a]);
    }
  }

  lemma CoversRest(log: seq<Record>, b: nat, handed: seq<Record>)
    requires Covers(log, b, |log|, handed)
    ensures b <= |log| && StampedOf(handed) == StampedOf(log[b..])
    ensures multiset(log[b..]) <= multiset(handed)
    ensures AllStamped(log) ==> handed == log[b..]
  {
    assert log[b..|log|] == log[b..];
    if AllStamped(log) {
      StampedOfAll(handed);
      StampedOfAll(log[b..]);
    }
  }

  /** When the follow of a terminal container breaks off, the one drain decides. A
      stamped log is complete afterwards exactly when nothing was missing, or the
      drain could be opened, reached the end, and had every batch it sent dealt
      with. */
  lemma DrainCompletesWhen(log: seq<Record>, cfg: StreamConfig, base: nat, here: nat, p: Progress, a: Attempt, q: Progress)
    returns (b: nat, home: nat)
    requires Ordered(log) && AllStamped(log) && SettledBy(log, base, here, p)
    requires a.Followed? && a.terminal && p.end == AtHead && Serves(log, cfg, p, a)
    requires BreaksOff(cfg, p, a)
    requires q == Turn(cfg, p, a)
    ensures q.end == Terminated && b == BaseAfter(log, cfg, base, p, a) <= |log|
    ensures var d := BeforeDrain(cfg, p, a);
            && Stands(log, d.resume, home) && (d.resume.IsZero() ==> home == b)
            && (Flat(q.batches) == log[b..] <==>
                  if a.drain.None? then home == |log|
                  else
                    && !Refuses(cfg.conn, d.resume, a.drain.value)
                    && (home == |log| || KubeletStart(log, DrainStartPoint(d.resume.ts), a.kubeletNow)
                                         + |Arrivals(a.drain.value.events)| == |log|))
  {
    b, home := FollowSettles(log, cfg, base, here, p, a);
    SameAsConsumed(cfg, p, a);
    TurnHandsOn(cfg, p, a);
    BreaksOffWhen(cfg, p, a);
    var d := BeforeDrain(cfg, p, a);
    if a.drain.Some? {
      b, home := ConsumedCompletesWhen(log, cfg, b, home, d, DrainStartPoint(d.resume.ts), a.kubeletNow, a.drain.value);
    } else {
      SettledExactly(log, b, home, Flat(d.batches));
      SliceIsRest(log, b, home);
    }
  }

  // ---------------------------------------------------------------------
  // Cursors of older versions
  // ---------------------------------------------------------------------

  /** In a stamped log, a counting cursor is the fold over what it stands after. */
  lemma CountingCursorIsFold(log: seq<Record>, c: Cursor, here: nat)
    requires Ordered(log) && AllStamped(log) && Stands(log, c, here) && c.delivered > 0 && !c.IsZero()
    ensures c == CursorAt(log, here)
  {
    CursorAtStandsStamped(log, here);
  }

  /** Whatever cursor a stream started from, the one it has moved to counts. */
  lemma {:induction false} MovedCursorsCount(cfg: StreamConfig, resume: Cursor, script: seq<Attempt>)
    ensures var c := Turns(cfg, Started(cfg, resume), script).resume;
            c == resume || (!c.IsZero() && c.delivered > 0)
    decreases |script|
  {
    if script != [] {
      var p := Turns(cfg, Started(cfg, resume), script[..|script| - 1]);
      var a := script[|script| - 1];
      MovedCursorsCount(cfg, resume, script[..|script| - 1]);
      if a.Followed? {
        FinishedReports(cfg.conn, p.resume, a.conn);
        if a.drain.Some? {
          FinishedReports(cfg.conn, BeforeDrain(cfg, p, a).resume, a.drain.value);
        }
      }
    }
  }

  lemma LegacyStands(log: seq<Record>, t: nat)
    requires Ordered(log) && t > 0
    ensures Stands(log, Unmarshal(Timestamp(t)), FirstFrom(log, t))
  {
    var r := FirstFrom(log, t);
    CountAtNoneBefore(log, r, t);
  }

  lemma {:induction false} CountAtNoneBefore(log: seq<Record>, n: nat, t: nat)
    requires n <= |log| && t > 0
    requires forall i :: 0 <= i < n && Stamped(log[i]) ==> log[i].ts < t
    ensures CountAt(log, n, t) == 0
    decreases n
  {
    if n > 0 {
      CountAtNoneBefore(log, n - 1, t);
    }
  }

  /** An older version handed on the first k records and stored only the timestamp
      of the last. The next run repeats the records at that very timestamp and no
      other, skips nothing, and counts exactly again once its cursor moves. */
  lemma LegacyRepeatsOwnTimestamp(log: seq<Record>, cfg: StreamConfig, k: nat, t: nat, script: seq<Attempt>, p: Progress)
    returns (saved: nat, next: nat)
    requires Ordered(log) && AllStamped(log) && 0 < k <= |log| && log[k - 1].ts == t
    requires ServesRun(log, cfg, Started(cfg, Unmarshal(Timestamp(t))), script)
    requires p == Turns(cfg, Started(cfg, Unmarshal(Timestamp(t))), script)
    ensures saved < k && saved <= next <= |log|
    ensures forall i :: 0 <= i < |log| ==> (saved <= i < k ==> log[i].ts == t) && (i < saved ==> log[i].ts < t)
    ensures Flat(p.batches) == log[saved..next]
    ensures p.resume == Unmarshal(Timestamp(t)) || p.resume == CursorAt(log, next)
  {
    var c := Unmarshal(Timestamp(t));
    assert Stamped(log[k - 1]);
    LegacyStands(log, t);
    saved := FirstFrom(log, t);
    var base;
    base, next := RunResumes(log, cfg, c, saved, script, p);
    MovedCursorsCount(cfg, c, script);
    if p.resume != c {
      CountingCursorIsFold(log, p.resume, next);
    }
    LegacyWindow(log, k, t);
  }

  lemma LegacyWindow(log: seq<Record>, k: nat, t: nat)
    requires Ordered(log) && AllStamped(log) && 0 < k <= |log| && log[k - 1].ts == t
    ensures FirstFrom(log, t) < k
    ensures forall i :: 0 <= i < |log| ==>
              (FirstFrom(log, t) <= i < k ==> log[i].ts == t) && (i < FirstFrom(log, t) ==> log[i].ts < t)
  {
    var r := FirstFrom(log, t);
    assert Stamped(log[k - 1]);
    forall i | 0 <= i < |log|
      ensures (r <= i < k ==> log[i].ts == t) && (i < r ==> log[i].ts < t)
    {
      assert Stamped(log[i]);
    }
  }

  // ---------------------------------------------------------------------
  // Backoff
  // ---------------------------------------------------------------------

  /** A miss is a connect that failed, or a connection that ended by itself with
      nothing new; a recycle is none, and moving the cursor clears them all. */
  function MissesAfter(cfg: StreamConfig, p: Progress, a: Attempt, misses: nat): nat {
    if a.Followed? && FollowedTo(cfg, p, a).resume.After(p.resume) then 0
    else if a.recycled then misses
    else misses + 1
  }

  /** The misses since the last connection that moved the cursor. */
  function Misses(cfg: StreamConfig, p: Progress, script: seq<Attempt>): nat {
    if script == [] then 0
    else
      var front := script[..|script| - 1];
      MissesAfter(cfg, Turns(cfg, p, front), script[|script| - 1], Misses(cfg, p, front))
  }

  lemma TurnClimbs(cfg: StreamConfig, p: Progress, a: Attempt, misses: nat)
    requires p.end == AtHead && Turn(cfg, p, a).end == AtHead
    requires p.backoff == Climb(cfg.initial, cfg.max, misses)
    ensures Turn(cfg, p, a).backoff == Climb(cfg.initial, cfg.max, MissesAfter(cfg, p, a, misses))
  {
    BackoffAfter(cfg, p, a);
    assert Climb(cfg.initial, cfg.max, misses + 1) == NextBackoff(p.backoff, cfg.max);
  }

  lemma BackoffAfter(cfg: StreamConfig, p: Progress, a: Attempt)
    requires p.end == AtHead && Turn(cfg, p, a).end == AtHead
    ensures Turn(cfg, p, a).backoff
         == if a.Followed? && FollowedTo(cfg, p, a).resume.After(p.resume) then cfg.initial
            else if a.recycled then p.backoff
            else NextBackoff(p.backoff, cfg.max)
  {
  }

  lemma {:induction false} BackoffClimbs(cfg: StreamConfig, resume: Cursor, script: seq<Attempt>)
    requires Turns(cfg, Started(cfg, resume), script).end == AtHead
    ensures Turns(cfg, Started(cfg, resume), script).backoff
         == Climb(cfg.initial, cfg.max, Misses(cfg, Started(cfg, resume), script))
    decreases |script|
  {
    if script != [] {
      var front := script[..|script| - 1];
      EndedNotBefore(cfg, Started(cfg, resume), script);
      BackoffClimbs(cfg, resume, front);
      TurnClimbs(cfg, Turns(cfg, Started(cfg, resume), front), script[|script| - 1],
                 Misses(cfg, Started(cfg, resume), front));
    }
  }

  lemma EndedNotBefore(cfg: StreamConfig, p: Progress, script: seq<Attempt>)
    requires script != [] && Turns(cfg, p, script).end == AtHead
    ensures Turns(cfg, p, script[..|script| - 1]).end == AtHead
  {
  }

  /** The reconnect ladder: at every loop head the wait is initial when nothing has
      gone wrong since the last connection that delivered, and min(initial * 2^n,
      max) after n misses. */
  lemma ReconnectLadder(cfg: StreamConfig, resume: Cursor, script: seq<Attempt>)
    requires cfg.max < TWO_63 && (cfg.initial == 0 || (cfg.initial < TWO_62 && cfg.max < TWO_62))
    requires Turns(cfg, Started(cfg, resume), script).end == AtHead
    ensures Turns(cfg, Started(cfg, resume), script).backoff
         == Rung(cfg.initial, cfg.max, Misses(cfg, Started(cfg, resume), script))
  {
    BackoffClimbs(cfg, resume, script);
    ClimbIsRung(cfg.initial, cfg.max, Misses(cfg, Started(cfg, resume), script));
  }

  /** When the current run of failed connects began: the first one since a stream
      was last open, not counting recycles. */
  function StreakStart(script: seq<Attempt>): Option<nat> {
    if script == [] then None
    else
      var before := StreakStart(script[..|script| - 1]);
      match script[|script| - 1]
      case Followed(_, _, _, _, _, _, _) => None
      case ConnectFailed(recycled, now, _, _) => if recycled || before.Some? then before else Some(now)
  }

  lemma {:induction false} FailingSinceStreak(cfg: StreamConfig, resume: Cursor, script: seq<Attempt>)
    requires Turns(cfg, Started(cfg, resume), script).end == AtHead
    ensures Turns(cfg, Started(cfg, resume), script).failingSince == StreakStart(script)
    decreases |script|
  {
    if script != [] {
      FailingSinceStreak(cfg, resume, script[..|script| - 1]);
    }
  }

  /** A stream gives up exactly when a limit is set, the connect that just failed
      was no recycle, and connects have been failing for longer than the limit. */
  lemma GivesUpWhen(cfg: StreamConfig, resume: Cursor, script: seq<Attempt>, a: Attempt)
    requires Turns(cfg, Started(cfg, resume), script).end == AtHead
    ensures Turn(cfg, Turns(cfg, Started(cfg, resume), script), a).end == GaveUp
       <==> a.ConnectFailed? && !a.recycled && cfg.maxElapsed > 0
            && StreakStart(script + [a]).Some? && a.checked - StreakStart(script + [a]).value > cfg.maxElapsed
  {
    FailingSinceStreak(cfg, resume, script);
    assert (script + [a])[..|script|] == script;
  }

  // ---------------------------------------------------------------------
  // When runs end
  // ---------------------------------------------------------------------

  /** The attempt a, made after these, is a failed connect that reaches the limit. */
  predicate ReachesLimit(cfg: StreamConfig, before: seq<Attempt>, a: Attempt) {
    && a.ConnectFailed? && !a.recycled && cfg.maxElapsed > 0
    && StreakStart(before + [a]).Some? && a.checked - StreakStart(before + [a]).value > cfg.maxElapsed
  }

  /** How the attempt a, made after these, ends the stream, if it does. */
  function EndAfter(cfg: StreamConfig, before: seq<Attempt>, a: Attempt): End {
    if a.Followed? && a.terminal then Terminated
    else if ReachesLimit(cfg, before, a) then GaveUp
    else if a.interrupted && !a.recycled then Cancelled
    else AtHead
  }

  /** One turn ends the stream exactly when its container was found terminal, the
      connects have failed for too long, or the wait that follows was cut short; a
      recycle goes on at once. */
  lemma TurnEndsWhen(cfg: StreamConfig, resume: Cursor, script: seq<Attempt>, a: Attempt)
    requires Turns(cfg, Started(cfg, resume), script).end == AtHead
    ensures Turn(cfg, Turns(cfg, Started(cfg, resume), script), a).end == EndAfter(cfg, script, a)
  {
    GivesUpWhen(cfg, resume, script, a);
  }

  /** No attempt of the script ends the stream. */
  predicate NeverEnds(cfg: StreamConfig, script: seq<Attempt>) {
    forall i :: 0 <= i < |script| ==> EndAfter(cfg, script[..i], script[i]) == AtHead
  }

  /** A whole run is still at its loop head exactly when no attempt ended it. */
  lemma {:induction false} RunGoesOnWhen(cfg: StreamConfig, resume: Cursor, script: seq<Attempt>)
    ensures Turns(cfg, Started(cfg, resume), script).end == AtHead <==> NeverEnds(cfg, script)
    decreases |script|
  {
    if script != [] {
      var front := script[..|script| - 1];
      RunGoesOnWhen(cfg, resume, front);
      NeverEndsSnoc(cfg, script);
      if Turns(cfg, Started(cfg, resume), front).end == AtHead {
        TurnEndsWhen(cfg, resume, front, script[|script| - 1]);
      }
    }
  }

  /** And if one did, the run has ended as the first that did says, and nothing after
      it has happened. */
  lemma RunEndsWhen(cfg: StreamConfig, resume: Cursor, script: seq<Attempt>, i: nat)
    requires i < |script| && NeverEnds(cfg, script[..i]) && EndAfter(cfg, script[..i], script[i]) != AtHead
    ensures Turns(cfg, Started(cfg, resume), script).end == EndAfter(cfg, script[..i], script[i])
    ensures Turns(cfg, Started(cfg, resume), script) == Turns(cfg, Started(cfg, resume), script[..i + 1])
  {
    RunGoesOnWhen(cfg, resume, script[..i]);
    TurnEndsWhen(cfg, resume, script[..i], script[i]);
    OneMoreTurn(cfg, Started(cfg, resume), script, i);
    EndedStays(cfg, Started(cfg, resume), script, i + 1);
  }

  lemma OneMoreTurn(cfg: StreamConfig, p: Progress, script: seq<Attempt>, i: nat)
    requires i < |script|
    ensures Turns(cfg, p, script[..i + 1]) == Turn(cfg, Turns(cfg, p, script[..i]), script[i])
  {
    assert script[..i + 1][..i] == script[..i];
  }

  lemma NeverEndsSnoc(cfg: StreamConfig, script: seq<Attempt>)
    requires script != []
    ensures var front, a := script[..|script| - 1], script[|script| - 1];
            NeverEnds(cfg, script) <==> NeverEnds(cfg, front) && EndAfter(cfg, front, a) == AtHead
  {
    var front := script[..|script| - 1];
    assert forall i :: 0 <= i < |front| ==> front[..i] == script[..i] && front[i] == script[i];
  }

  /** The cursor the stream holds is its last report, or the one it started with. */
  ghost predicate HoldsReported(resume: Cursor, p: Progress) {
    if p.reports == [] then p.resume == resume else p.resume == p.reports[|p.reports| - 1]
  }

  /** So what a stream resumes from has always been published first. */
  lemma {:induction false} HeldCursorIsReported(cfg: StreamConfig, resume: Cursor, script: seq<Attempt>)
    ensures HoldsReported(resume, Turns(cfg, Started(cfg, resume), script))
    decreases |script|
  {
    if script != [] {
      var front, a := script[..|script| - 1], script[|script| - 1];
      HeldCursorIsReported(cfg, resume, front);
      TurnReportsHeld(cfg, resume, Turns(cfg, Started(cfg, resume), front), a);
    }
  }

  lemma TurnReportsHeld(cfg: StreamConfig, resume: Cursor, p: Progress, a: Attempt)
    requires HoldsReported(resume, p)
    ensures HoldsReported(resume, Turn(cfg, p, a))
  {
    TurnHandsOn(cfg, p, a);
    if p.end == AtHead && a.Followed? {
      FollowReportsHeld(cfg, resume, p, a);
    }
  }

  lemma FollowReportsHeld(cfg: StreamConfig, resume: Cursor, p: Progress, a: Attempt)
    requires a.Followed? && HoldsReported(resume, p)
    ensures HoldsReported(resume, FollowedTo(cfg, p, a))
  {
    ReadReportsHeld(cfg, resume, p.(failingSince := None), a.conn);
    assert HoldsReported(resume, BeforeDrain(cfg, p, a));
    if Drains(cfg, p, a) {
      ReadReportsHeld(cfg, resume, BeforeDrain(cfg, p, a), a.drain.value);
    }
  }

  lemma ReadReportsHeld(cfg: StreamConfig, resume: Cursor, p: Progress, conn: Connection)
    requires HoldsReported(resume, p)
    ensures HoldsReported(resume, Consumed(cfg, p, conn)) && HoldsReported(resume, ReportedAgain(cfg, p, conn))
  {
    FinishedReports(cfg.conn, p.resume, conn);
    var st := Finished(cfg.conn, p.resume, conn);
    if st.reports != [] {
      assert (p.reports + st.reports)[|p.reports + st.reports| - 1] == st.delivered;
    }
  }
}
