/** Where a backfill begins, and what a refusal before the first delivery costs:
    while nothing has been delivered there is no cursor, so every reconnect asks for
    the backfill window anew, as it is by then. */
module Backfills {
  import opened Records
  import opened Cursors
  import opened Retries
  import opened Connections
  import opened Streams
  import opened Runs

  lemma BackfillBoundary(log: seq<Record>, c: Cursor, base: nat, point: StartPoint, kubeletNow: nat)
    requires Ordered(log) && Boundary(log, base) && (!c.IsZero() ==> point == StartPoint(Some(c.ts), None))
    ensures Boundary(log, Rebased(log, base, c, point, kubeletNow))
  {
    KubeletStartsRight(log, c, point, kubeletNow);
  }

  lemma TurnBoundary(log: seq<Record>, cfg: StreamConfig, base: nat, p: Progress, a: Attempt)
    requires Ordered(log) && Boundary(log, base)
    ensures Boundary(log, BaseAfter(log, cfg, base, p, a))
  {
    if p.end == AtHead && a.Followed? {
      var d := BeforeDrain(cfg, p, a);
      BackfillBoundary(log, p.resume, base, FollowPoint(cfg, p, a), a.kubeletNow);
      var b := Rebased(log, base, p.resume, FollowPoint(cfg, p, a), a.kubeletNow);
      BackfillBoundary(log, d.resume, b, DrainStartPoint(d.resume.ts), a.kubeletNow);
    }
  }

  /** A backfill never begins in the middle of a timestamp. */
  lemma {:induction false} BackfillStartIsBoundary(log: seq<Record>, cfg: StreamConfig, p: Progress, script: seq<Attempt>)
    requires Ordered(log)
    ensures Boundary(log, BackfillStart(log, cfg, 0, p, script))
    decreases |script|
  {
    if script != [] {
      var front := script[..|script| - 1];
      BackfillStartIsBoundary(log, cfg, p, front);
      TurnBoundary(log, cfg, BackfillStart(log, cfg, 0, p, front), Turns(cfg, p, front), script[|script| - 1]);
    }
  }

  /** Turn k of the run moved the cursor for the first time. */
  predicate DeliversFirst(cfg: StreamConfig, p: Progress, script: seq<Attempt>, k: nat)
    requires k < |script|
  {
    && Turns(cfg, p, script[..k]).resume.IsZero()
    && !Turns(cfg, p, script[..k + 1]).resume.IsZero()
    && script[k].Followed?
  }

  /** The read of a turn that delivered: the follow, or the drain if the follow did
      not deliver anything. */
  function FirstReadStart(log: seq<Record>, cfg: StreamConfig, p: Progress, a: Attempt): nat
    requires a.Followed?
  {
    if BeforeDrain(cfg, p, a).resume.IsZero() then KubeletStart(log, DrainStartPoint(0), a.kubeletNow)
    else KubeletStart(log, FollowPoint(cfg, p, a), a.kubeletNow)
  }

  /** The backfill of a run that has delivered anything begins where the kubelet
      began to serve the read that delivered first. */
  lemma {:induction false} BackfillIsFirstDelivery(log: seq<Record>, cfg: StreamConfig, base: nat, p: Progress, script: seq<Attempt>)
    returns (k: nat)
    requires p.resume.IsZero() && !Turns(cfg, p, script).resume.IsZero()
    ensures k < |script| && DeliversFirst(cfg, p, script, k)
    ensures BackfillStart(log, cfg, base, p, script)
         == FirstReadStart(log, cfg, Turns(cfg, p, script[..k]), script[k])
    decreases |script|
  {
    var front, a := script[..|script| - 1], script[|script| - 1];
    var before := Turns(cfg, p, front);
    assert script[..|script|] == script;
    if before.resume.IsZero() {
      k := |script| - 1;
      TurnHandsOn(cfg, before, a);
    } else {
      k := BackfillIsFirstDelivery(log, cfg, base, p, front);
      assert front[..k] == script[..k] && front[..k + 1] == script[..k + 1];
      MovedStays(log, cfg, BackfillStart(log, cfg, base, p, front), before, a);
    }
  }

  /** Of the n records a read served from s on, each one that lies before here has
      been handed on. */
  ghost predicate NoneSkipped(log: seq<Record>, s: nat, n: nat, here: nat, handed: seq<Record>)
    requires here <= |log|
  {
    forall i :: s <= i < s + n && i < here ==> log[i] in handed
  }

  lemma SkippedWhen(log: seq<Record>, s: nat, n: nat, b: nat, here: nat, handed: seq<Record>)
    requires AllStamped(log) && b <= here <= |log| && Boundary(log, b) && handed == log[b..here]
    ensures NoneSkipped(log, s, n, here, handed) <==> n == 0 || b <= s
  {
    if b <= s {
      forall i | s <= i < s + n && i < here ensures log[i] in handed {
        assert handed[i - b] == log[i];
      }
    } else if n > 0 {
      forall i | 0 <= i < |handed| ensures handed[i] != log[s] {
        assert Stamped(log[s]) && Stamped(log[b + i]);
      }
    }
  }

  /** What a read opened without a cursor was served is, after the next read, handed
      on or still ahead of the cursor exactly when it was nothing, when something of
      it was delivered, or when the next read starts no later. Otherwise the part
      before the new start is gone: it was refused, and is not read again. */
  lemma RereadWhen(log: seq<Record>, cfg: StreamConfig, base: nat, here: nat, p: Progress,
                   point: StartPoint, kubeletNow: nat, conn: Connection,
                   nextPoint: StartPoint, nextNow: nat, nextConn: Connection)
    returns (h: nat)
    requires Ordered(log) && AllStamped(log) && SettledBy(log, base, here, p) && p.resume.IsZero()
    requires ServesConnection(log, point, kubeletNow, conn)
    requires !Consumed(cfg, p, conn).resume.IsZero() ==>
               nextPoint == StartPoint(Some(Consumed(cfg, p, conn).resume.ts), None)
    requires ServesConnection(log, nextPoint, nextNow, nextConn)
    ensures var q := Consumed(cfg, p, conn);
            var start, next := KubeletStart(log, point, kubeletNow), KubeletStart(log, nextPoint, nextNow);
            && SettledBy(log, if q.resume.IsZero() then next else start, h, Consumed(cfg, q, nextConn))
            && (NoneSkipped(log, start, |Arrivals(conn.events)|, h, Flat(Consumed(cfg, q, nextConn).batches))
                <==> Arrivals(conn.events) == [] || !q.resume.IsZero() || next <= start)
  {
    var q := Consumed(cfg, p, conn);
    var b, v;
    b, h, v := ConsumedSettles(log, cfg, base, here, p, point, kubeletNow, conn);
    b, h, v := ConsumedSettles(log, cfg, b, h, q, nextPoint, nextNow, nextConn);
    KubeletStartsRight(log, p.resume, point, kubeletNow);
    KubeletStartsRight(log, q.resume, nextPoint, nextNow);
    var handed := Flat(Consumed(cfg, q, nextConn).batches);
    SettledExactly(log, b, h, handed);
    SkippedWhen(log, KubeletStart(log, point, kubeletNow), |Arrivals(conn.events)|, b, h, handed);
  }

  /** The same over a whole run: what turn k was served without a cursor is handed
      on or still ahead exactly when it was nothing or when the last read opened
      without a cursor starts no later than turn k's. */
  lemma RunRereadWhen(log: seq<Record>, cfg: StreamConfig, script: seq<Attempt>, k: nat, p: Progress)
    returns (here: nat)
    requires Ordered(log) && AllStamped(log) && ServesRun(log, cfg, Started(cfg, ZERO), script)
    requires p == Turns(cfg, Started(cfg, ZERO), script)
    requires k < |script| && script[k].Followed?
    requires Turns(cfg, Started(cfg, ZERO), script[..k]).resume.IsZero()
    ensures here <= |log| && Stands(log, p.resume, here)
    ensures var before := Turns(cfg, Started(cfg, ZERO), script[..k]);
            var start := KubeletStart(log, FollowPoint(cfg, before, script[k]), script[k].kubeletNow);
            NoneSkipped(log, start, |Arrivals(script[k].conn.events)|, here, Flat(p.batches))
            <==> Arrivals(script[k].conn.events) == []
                 || BackfillStart(log, cfg, 0, Started(cfg, ZERO), script) <= start
  {
    var base;
    base, here := ExactlyOnce(log, cfg, script, p);
    BackfillStartIsBoundary(log, cfg, Started(cfg, ZERO), script);
    var before := Turns(cfg, Started(cfg, ZERO), script[..k]);
    SkippedWhen(log, KubeletStart(log, FollowPoint(cfg, before, script[k]), script[k].kubeletNow),
                |Arrivals(script[k].conn.events)|, base, here, Flat(p.batches));
  }

  // ---------------------------------------------------------------------
  // Refused once, never read again
  // ---------------------------------------------------------------------

  const GIVE_UP := Round(Retryable, true, false)
  const TAKEN := Round(Accept, false, false)

  /** A connection that brings one record, which the ticker then flushes. */
  function OneRecord(r: Record, answer: Round): Connection {
    Connection([Arrive(r, [answer]), Tick([answer])], [answer], false)
  }

  function Reconnecting(r: Record, now: nat, answer: Round): Attempt {
    Followed(now, now, OneRecord(r, answer), false, false, None, false)
  }

  lemma OneRecordRefused(cfg: Config, r: Record)
    requires cfg.maxBatch > 0 && cfg.retry && Stamped(r)
    ensures Arrivals(OneRecord(r, GIVE_UP).events) == [r]
    ensures var st := Finished(cfg, ZERO, OneRecord(r, GIVE_UP));
            st.refused && st.delivered == ZERO && st.batches == [] && st.reports == []
  {
    var events := OneRecord(r, GIVE_UP).events;
    assert events[..1] == [events[0]] && events[..1][..0] == [];
    var one := Step(cfg, Opened(ZERO), events[0]);
    assert Steps(cfg, Opened(ZERO), events[..1]) == one;
    assert Arrivals(events[..1]) == [r];
  }

  lemma OneRecordTaken(cfg: Config, r: Record)
    requires cfg.maxBatch > 0 && cfg.retry && Stamped(r)
    ensures Arrivals(OneRecord(r, TAKEN).events) == [r]
    ensures var st := Finished(cfg, ZERO, OneRecord(r, TAKEN));
            !st.refused && st.delivered == Cursor(r.ts, 1) && st.batches == [[r]]
  {
    var events := OneRecord(r, TAKEN).events;
    assert events[..1] == [events[0]] && events[..1][..0] == [];
    var one := Step(cfg, Opened(ZERO), events[0]);
    assert Steps(cfg, Opened(ZERO), events[..1]) == one;
    assert Arrivals(events[..1]) == [r];
  }

  lemma RefusedTurn(cfg: StreamConfig, log: seq<Record>, t: nat)
    requires cfg.conn.maxBatch > 0 && cfg.conn.retry && |log| == 2 && Stamped(log[0])
    requires KubeletStart(log, StreamStartPoint(0, cfg.since, t), t) == 0
    ensures var start, a := Started(cfg, ZERO), Reconnecting(log[0], t, GIVE_UP);
            && Serves(log, cfg, start, a)
            && Turn(cfg, start, a).resume == ZERO && Turn(cfg, start, a).batches == [] && Turn(cfg, start, a).end == AtHead
  {
    OneRecordRefused(cfg.conn, log[0]);
  }

  lemma TakenTurn(cfg: StreamConfig, log: seq<Record>, q: Progress, t: nat)
    requires cfg.conn.maxBatch > 0 && cfg.conn.retry && |log| == 2 && Stamped(log[1])
    requires KubeletStart(log, StreamStartPoint(0, cfg.since, t), t) == 1
    requires q.resume == ZERO && q.batches == [] && q.end == AtHead
    ensures var a := Reconnecting(log[1], t, TAKEN);
            && Serves(log, cfg, q, a)
            && Turn(cfg, q, a).resume == Cursor(log[1].ts, 1) && Turn(cfg, q, a).batches == [[log[1]]]
  {
    OneRecordTaken(cfg.conn, log[1]);
  }

  lemma TwoTurns(log: seq<Record>, cfg: StreamConfig, p: Progress, a: Attempt, b: Attempt)
    requires Serves(log, cfg, p, a) && Serves(log, cfg, Turn(cfg, p, a), b)
    ensures ServesRun(log, cfg, p, [a, b]) && Turns(cfg, p, [a, b]) == Turn(cfg, Turn(cfg, p, a), b)
  {
    var script := [a, b];
    assert script[..1] == [a] && [a][..0] == [] && script[..0] == [];
    assert Turns(cfg, p, [a]) == Turn(cfg, p, a);
  }

  /** The first record is served and refused; by the reconnect the window has moved
      past it, and the second record is all that is ever handed on. */
  lemma RefusedThenLost(cfg: StreamConfig, log: seq<Record>, t1: nat, t2: nat)
    requires cfg.conn.maxBatch > 0 && cfg.conn.retry && |log| == 2 && Ordered(log) && AllStamped(log)
    requires KubeletStart(log, StreamStartPoint(0, cfg.since, t1), t1) == 0
    requires KubeletStart(log, StreamStartPoint(0, cfg.since, t2), t2) == 1
    ensures var script := [Reconnecting(log[0], t1, GIVE_UP), Reconnecting(log[1], t2, TAKEN)];
            var p := Turns(cfg, Started(cfg, ZERO), script);
            && ServesRun(log, cfg, Started(cfg, ZERO), script)
            && Flat(p.batches) == [log[1]] && p.resume == Cursor(log[1].ts, 1)
            && log[0] !in Flat(p.batches)
  {
    var a, b := Reconnecting(log[0], t1, GIVE_UP), Reconnecting(log[1], t2, TAKEN);
    assert Stamped(log[0]) && Stamped(log[1]);
    RefusedTurn(cfg, log, t1);
    var q := Turn(cfg, Started(cfg, ZERO), a);
    TakenTurn(cfg, log, q, t2);
    TwoTurns(log, cfg, Started(cfg, ZERO), a, b);
    FlatSnoc([], [log[1]]);
    assert [] + [[log[1]]] == [[log[1]]];
    KubeletStartsRight(log, ZERO, StreamStartPoint(0, cfg.since, t2), t2);
  }

  /** With since_seconds 0, a record from after the first connect. */
  lemma FreshOnlyLosesRefused()
    ensures var cfg := StreamConfig(Config(1, true), Some(0), SECOND, 30 * SECOND, 0);
            var log := [Record(101 * SECOND, "a"), Record(120 * SECOND, "b")];
            var script := [Reconnecting(log[0], 100 * SECOND, GIVE_UP), Reconnecting(log[1], 110 * SECOND, TAKEN)];
            var p := Turns(cfg, Started(cfg, ZERO), script);
            && ServesRun(log, cfg, Started(cfg, ZERO), script)
            && Flat(p.batches) == [log[1]] && p.resume == Cursor(120 * SECOND, 1) && log[0] !in Flat(p.batches)
  {
    var cfg := StreamConfig(Config(1, true), Some(0), SECOND, 30 * SECOND, 0);
    var log := [Record(101 * SECOND, "a"), Record(120 * SECOND, "b")];
    FirstFromUnique(log, 100 * SECOND, 0);
    FirstFromUnique(log, 110 * SECOND, 1);
    RefusedThenLost(cfg, log, 100 * SECOND, 110 * SECOND);
  }

  /** With the defaults, 300 seconds of history and batches retried for as long: by
      the time the pipeline has refused the oldest record, the window is past it. */
  lemma DefaultsLoseRefused()
    ensures var cfg := StreamConfig(Config(1000, true), Some(300), SECOND, 30 * SECOND, 0);
            var log := [Record(701 * SECOND, "a"), Record(1305 * SECOND, "b")];
            var script := [Reconnecting(log[0], 1000 * SECOND, GIVE_UP), Reconnecting(log[1], 1302 * SECOND, TAKEN)];
            var p := Turns(cfg, Started(cfg, ZERO), script);
            && ServesRun(log, cfg, Started(cfg, ZERO), script)
            && Flat(p.batches) == [log[1]] && p.resume == Cursor(1305 * SECOND, 1) && log[0] !in Flat(p.batches)
  {
    var cfg := StreamConfig(Config(1000, true), Some(300), SECOND, 30 * SECOND, 0);
    var log := [Record(701 * SECOND, "a"), Record(1305 * SECOND, "b")];
    FirstFromUnique(log, 700 * SECOND, 0);
    FirstFromUnique(log, 1002 * SECOND, 1);
    RefusedThenLost(cfg, log, 1000 * SECOND, 1302 * SECOND);
  }
}
