/** No gaps, system-wide: whatever interleaves, what a cursor has passed has been
    handed to the pipeline. */
module Safety {
  import opened Records
  import opened Cursors
  import opened Retries
  import opened Connections
  import opened Readings
  import opened Streams
  import opened Runs
  import opened Stores
  import opened Receivers
  import opened Systems

  /** Everything from b on and before q, where c stands, has been handed over. */
  ghost predicate PassedAt(log: seq<Record>, b: nat, c: Cursor, handed: multiset<Record>, q: nat) {
    Stands(log, c, q) && b <= q <= |log| && multiset(log[b..q]) <= handed
  }

  /** Nothing c has passed is missing from what has been handed over, counting from
      b, which is where some read that was opened without a cursor started. */
  ghost predicate Passed(log: seq<Record>, starts: set<nat>, b: nat, c: Cursor, handed: multiset<Record>) {
    c.IsZero() || (b in starts && exists q :: PassedAt(log, b, c, handed, q))
  }

  /** A connection on track, whose batches come on top of what its cursor had passed. */
  ghost predicate LinkAt(log: seq<Record>, b: nat, resume: Cursor, link: Link, handed: multiset<Record>, v: View) {
    && Tracks(log, resume, v, link.conn)
    && (!link.conn.refused ==> v.read == link.next)
    && b <= v.home <= |log|
    && multiset(log[b..v.home]) + multiset(Flat(link.conn.batches)) <= handed
  }

  /** A stream that has no cursor yet has none to report either, unless its open
      connection has just produced one. */
  ghost predicate FreshTogether(st: Stream) {
    && (!st.seeded ==> st.link.None? && st.last.IsZero())
    && (st.resume.IsZero() && st.link.None? ==> st.last.IsZero())
    && (st.resume.IsZero() && st.link.Some? ==> (st.last.IsZero() <==> st.link.value.conn.delivered.IsZero()))
  }

  ghost predicate StreamOk(log: seq<Record>, starts: set<nat>, st: Stream, handed: multiset<Record>) {
    && Passed(log, starts, st.base, st.resume, handed)
    && Passed(log, starts, st.base, st.last, handed)
    && FreshTogether(st)
    && (st.link.Some? ==> st.base in starts && exists v :: LinkAt(log, st.base, st.resume, st.link.value, handed, v))
  }

  lemma PassedMore(log: seq<Record>, starts: set<nat>, b: nat, c: Cursor, handed: multiset<Record>,
                   moreStarts: set<nat>, more: multiset<Record>)
    requires Passed(log, starts, b, c, handed) && handed <= more && starts <= moreStarts
    ensures Passed(log, moreStarts, b, c, more)
  {
    if !c.IsZero() {
      var q :| PassedAt(log, b, c, handed, q);
      assert PassedAt(log, b, c, more, q);
    }
  }

  lemma StreamOkMore(log: seq<Record>, starts: set<nat>, st: Stream, handed: multiset<Record>,
                     moreStarts: set<nat>, more: multiset<Record>)
    requires StreamOk(log, starts, st, handed) && handed <= more && starts <= moreStarts
    ensures StreamOk(log, moreStarts, st, more)
  {
    PassedMore(log, starts, st.base, st.resume, handed, moreStarts, more);
    PassedMore(log, starts, st.base, st.last, handed, moreStarts, more);
    if st.link.Some? {
      var v :| LinkAt(log, st.base, st.resume, st.link.value, handed, v);
      assert LinkAt(log, st.base, st.resume, st.link.value, more, v);
    }
  }

  /** The cursor a connection on track is committed to has passed nothing unseen. */
  lemma CommittedPassed(log: seq<Record>, starts: set<nat>, b: nat, resume: Cursor, link: Link, handed: multiset<Record>, v: View)
    requires LinkAt(log, b, resume, link, handed, v) && b in starts
    ensures Passed(log, starts, b, Committed(resume, link.conn), handed)
  {
    HandedOverCovers(log, resume, v, link.conn);
    SlicesJoin(log, b, v.home, v.stand);
    assert multiset(log[b..v.stand]) == multiset(log[b..v.home]) + multiset(log[v.home..v.stand]);
    assert PassedAt(log, b, Committed(resume, link.conn), handed, v.stand);
  }

  /** The ledger grows by what a connection's step hands over. */
  lemma LedgerKeepsUp(log: seq<Record>, b: nat, home: nat, before: ConnState, after: ConnState, handed: multiset<Record>)
    requires b <= home <= |log| && before.batches <= after.batches
    requires multiset(log[b..home]) + multiset(Flat(before.batches)) <= handed
    ensures multiset(log[b..home]) + multiset(Flat(after.batches)) <= handed + NewlyHanded(before, after)
  {
    var tail := after.batches[|before.batches|..];
    assert after.batches == before.batches + tail;
    FlatConcat(before.batches, tail);
    assert multiset(Flat(before.batches) + Flat(tail)) == multiset(Flat(before.batches)) + multiset(Flat(tail));
  }

  /** A read opened without a cursor starts counting at its own start. */
  lemma FreshConnectSafe(log: seq<Record>, starts: set<nat>, st: Stream, start: nat, handed: multiset<Record>)
    requires StreamOk(log, starts, st, handed) && st.seeded && st.link.None?
    requires st.resume.IsZero() && Boundary(log, start)
    ensures StreamOk(log, starts + {start}, st.(link := Some(Link(Opened(st.resume), start)), base := start), handed)
  {
    OpensOnTrack(log, st.resume, start, start);
    assert log[start..start] == [];
    assert LinkAt(log, start, st.resume, Link(Opened(st.resume), start), handed, View(start, start, start, start, start, start));
  }

  lemma ResumedConnectSafe(log: seq<Record>, starts: set<nat>, st: Stream, start: nat, handed: multiset<Record>)
    requires Ordered(log) && StreamOk(log, starts, st, handed) && st.seeded && st.link.None?
    requires !st.resume.IsZero() && start == FirstFrom(log, FloorSecond(st.resume.ts))
    ensures StreamOk(log, starts, st.(link := Some(Link(Opened(st.resume), start))), handed)
  {
    var home :| PassedAt(log, st.base, st.resume, handed, home);
    StartsBeforeCursor(log, st.resume, home);
    OpensOnTrack(log, st.resume, start, home);
    assert LinkAt(log, st.base, st.resume, Link(Opened(st.resume), start), handed, View(start, home, start, start, home, home));
  }

  /** A link one step further, whatever the step was. */
  lemma LinkAdvances(log: seq<Record>, starts: set<nat>, st: Stream, conn: ConnState, next: nat, handed: multiset<Record>,
                     v: View, u: View)
    requires st.link.Some? && st.link.value.conn.batches <= conn.batches && st.link.value.conn.reports <= conn.reports
    requires StreamOk(log, starts, st, handed) && LinkAt(log, st.base, st.resume, st.link.value, handed, v)
    requires Tracks(log, st.resume, u, conn) && u.home == v.home && (!conn.refused ==> u.read == next)
    ensures StreamOk(log, starts, Moved(st, conn, next), handed + NewlyHanded(st.link.value.conn, conn))
    ensures Passed(log, starts, st.base, Committed(st.resume, conn), handed + NewlyHanded(st.link.value.conn, conn))
  {
    var more := handed + NewlyHanded(st.link.value.conn, conn);
    LedgerKeepsUp(log, st.base, v.home, st.link.value.conn, conn, handed);
    var link := Link(conn, next);
    assert LinkAt(log, st.base, st.resume, link, more, u);
    CommittedPassed(log, starts, st.base, st.resume, link, more, u);
    PassedMore(log, starts, st.base, st.resume, handed, starts, more);
    PassedMore(log, starts, st.base, st.last, handed, starts, more);
    MovedFresh(log, st, conn, next, v, u);
  }

  lemma MovedFresh(log: seq<Record>, st: Stream, conn: ConnState, next: nat, v: View, u: View)
    requires st.link.Some? && FreshTogether(st) && st.link.value.conn.reports <= conn.reports
    requires ReportsTrack(log, v, st.link.value.conn) && ReportsTrack(log, u, conn)
    ensures FreshTogether(Moved(st, conn, next))
  {
  }

  lemma ReportsOnlyGrow(cfg: Config, st: ConnState, event: Event)
    ensures st.reports <= Step(cfg, st, event).reports
  {
  }

  lemma ReadSafe(w: World, log: seq<Record>, starts: set<nat>, st: Stream, event: Event, conn: ConnState, next: nat, handed: multiset<Record>)
    requires Ordered(log) && StreamOk(log, starts, st, handed)
    requires st.link.Some? && !st.link.value.conn.refused
    requires event.Arrive? ==> st.link.value.next < |log| && event.record == log[st.link.value.next]
    requires conn == Step(w.cfg, st.link.value.conn, event)
    requires next == st.link.value.next + (if event.Arrive? then 1 else 0)
    ensures st.link.value.conn.batches <= conn.batches
    ensures StreamOk(log, starts, Moved(st, conn, next), handed + NewlyHanded(st.link.value.conn, conn))
  {
    var v :| LinkAt(log, st.base, st.resume, st.link.value, handed, v);
    StepGrows(w.cfg, st.link.value.conn, event);
    ReportsOnlyGrow(w.cfg, st.link.value.conn, event);
    var u := StepOnTrack(log, w.cfg, st.resume, v, st.link.value.conn, event);
    LinkAdvances(log, starts, st, conn, next, handed, v, u);
  }

  /** The stream once its connection has ended. */
  function ClosedWith(st: Stream, conn: ConnState): Stream
    requires st.link.Some?
  {
    Moved(st, conn, st.link.value.next)
      .(resume := if conn.delivered.IsZero() then st.resume else conn.delivered, link := None)
  }

  /** Once closed, the stream resumes from what its connection committed to. */
  lemma UnlinkedSafe(log: seq<Record>, starts: set<nat>, st: Stream, conn: ConnState, more: multiset<Record>)
    requires st.link.Some? && StreamOk(log, starts, Moved(st, conn, st.link.value.next), more)
    requires Passed(log, starts, st.base, Committed(st.resume, conn), more)
    ensures StreamOk(log, starts, ClosedWith(st, conn), more)
  {
  }

  lemma EndedGrows(w: World, conn: ConnState, rounds: seq<Round>)
    ensures conn.batches <= Ended(w, conn, rounds).batches && conn.reports <= Ended(w, conn, rounds).reports
  {
  }

  lemma EndedOnTrack(w: World, log: seq<Record>, resume: Cursor, v: View, conn: ConnState, rounds: seq<Round>)
    returns (u: View)
    requires Tracks(log, resume, v, conn)
    ensures Tracks(log, resume, u, Ended(w, conn, rounds)) && u.home == v.home && u.read == v.read
  {
    u := v;
    if !conn.refused {
      u := FlushOnTrack(log, w.cfg, resume, v, conn, rounds);
    }
  }

  lemma CloseSafe(w: World, log: seq<Record>, starts: set<nat>, st: Stream, rounds: seq<Round>, handed: multiset<Record>)
    requires Ordered(log) && StreamOk(log, starts, st, handed) && st.link.Some?
    ensures var before, conn := st.link.value.conn, Ended(w, st.link.value.conn, rounds);
            && before.batches <= conn.batches
            && StreamOk(log, starts, ClosedWith(st, conn), handed + NewlyHanded(before, conn))
  {
    var v :| LinkAt(log, st.base, st.resume, st.link.value, handed, v);
    var before, conn := st.link.value.conn, Ended(w, st.link.value.conn, rounds);
    EndedGrows(w, before, rounds);
    var u := EndedOnTrack(w, log, st.resume, v, before, rounds);
    EndedStillRefused(w, before, rounds);
    LinkAdvances(log, starts, st, conn, st.link.value.next, handed, v, u);
    UnlinkedSafe(log, starts, st, conn, handed + NewlyHanded(before, conn));
  }

  lemma EndedStillRefused(w: World, conn: ConnState, rounds: seq<Round>)
    ensures !Ended(w, conn, rounds).refused ==> !conn.refused
  {
  }

  // ---------------------------------------------------------------------
  // The whole system
  // ---------------------------------------------------------------------

  ghost predicate PositionsOk(w: World, begun: map<string, set<nat>>, bases: map<string, nat>, m: Positions,
                              handed: map<string, multiset<Record>>) {
    forall k :: k in m ==> Passed(w.logs(k), BegunOf(begun, k), BaseOf(bases, k), m[k], HandedOf(handed, k))
  }

  ghost predicate StreamAt(w: World, s: System, g: nat)
    requires g in s.streams
  {
    var st := s.streams[g];
    StreamOk(w.logs(st.key), BegunOf(s.account.begun, st.key), st, HandedOf(s.handed, st.key))
  }

  ghost predicate PositionsAt(w: World, s: System) {
    && PositionsOk(w, s.account.begun, s.account.live, s.cursors, s.handed)
    && PositionsOk(w, s.account.begun, s.account.disk, Decoded(s.disk), s.handed)
    && (s.writing.Some? ==> PositionsOk(w, s.account.begun, s.account.writing, Decoded(s.writing.value), s.handed))
  }

  /** In every part of the system that remembers a position, nothing before it is
      missing, counting from where the account says. */
  ghost predicate NoGap(w: World, s: System) {
    PositionsAt(w, s) && forall g :: g in s.streams ==> StreamAt(w, s, g)
  }

  /** Starts and handed-over records are only ever added. */
  ghost predicate Grows(s: System, t: System) {
    && (forall k :: HandedOf(s.handed, k) <= HandedOf(t.handed, k))
    && (forall k :: BegunOf(s.account.begun, k) <= BegunOf(t.account.begun, k))
  }

  lemma PositionsOkMore(w: World, s: System, t: System, bases: map<string, nat>, m: Positions)
    requires PositionsOk(w, s.account.begun, bases, m, s.handed) && Grows(s, t)
    ensures PositionsOk(w, t.account.begun, bases, m, t.handed)
  {
    forall k | k in m
      ensures Passed(w.logs(k), BegunOf(t.account.begun, k), BaseOf(bases, k), m[k], HandedOf(t.handed, k))
    {
      PassedMore(w.logs(k), BegunOf(s.account.begun, k), BaseOf(bases, k), m[k], HandedOf(s.handed, k),
                 BegunOf(t.account.begun, k), HandedOf(t.handed, k));
    }
  }

  /** Nothing but the account's starts and the ledger has moved for the stored positions. */
  ghost predicate SamePositions(s: System, t: System) {
    && t.cursors == s.cursors && t.disk == s.disk && t.writing == s.writing
    && t.account == s.account.(begun := t.account.begun)
  }

  /** One stream moved, and starts or ledger grew. */
  lemma StreamMovedSafe(w: World, s: System, t: System, g: nat)
    requires NoGap(w, s) && SamePositions(s, t) && Grows(s, t)
    requires forall h :: h in t.streams && h != g ==> h in s.streams && t.streams[h] == s.streams[h]
    requires g in t.streams ==> StreamAt(w, t, g)
    ensures NoGap(w, t)
  {
    PositionsOkMore(w, s, t, s.account.live, s.cursors);
    PositionsOkMore(w, s, t, s.account.disk, Decoded(s.disk));
    if s.writing.Some? {
      PositionsOkMore(w, s, t, s.account.writing, Decoded(s.writing.value));
    }
    forall h | h in t.streams && h != g ensures StreamAt(w, t, h) {
      var key := s.streams[h].key;
      assert StreamAt(w, s, h);
      StreamOkMore(w.logs(key), BegunOf(s.account.begun, key), s.streams[h], HandedOf(s.handed, key),
                   BegunOf(t.account.begun, key), HandedOf(t.handed, key));
    }
  }

  /** One stream has moved to st, and more has been handed over for its key. */
  lemma StreamAdvancedSafe(w: World, s: System, t: System, g: nat, st: Stream, more: multiset<Record>)
    requires NoGap(w, s) && g in s.streams && st.key == s.streams[g].key
    requires t == s.(streams := s.streams[g := st], handed := Handing(s, st.key, more))
    requires StreamOk(w.logs(st.key), BegunOf(s.account.begun, st.key), st, HandedOf(s.handed, st.key) + more)
    ensures NoGap(w, t)
  {
    assert Grows(s, t);
    assert StreamAt(w, t, g);
    StreamMovedSafe(w, s, t, g);
  }

  lemma ReadNext(w: World, s: System, g: nat, event: Event, conn: ConnState, next: nat)
    requires Enabled(w, s, Read(g, event))
    requires conn == Step(w.cfg, s.streams[g].link.value.conn, event)
    requires s.streams[g].link.value.conn.batches <= conn.batches
    requires next == s.streams[g].link.value.next + (if event.Arrive? then 1 else 0)
    ensures Next(w, s, Read(g, event))
         == s.(streams := s.streams[g := Moved(s.streams[g], conn, next)],
               handed := Handing(s, s.streams[g].key, NewlyHanded(s.streams[g].link.value.conn, conn)))
  {
  }

  lemma ReadKeepsNoGap(w: World, s: System, g: nat, event: Event)
    requires NoGap(w, s) && Enabled(w, s, Read(g, event)) && Ordered(w.logs(s.streams[g].key))
    ensures NoGap(w, Next(w, s, Read(g, event)))
  {
    var st := s.streams[g];
    var conn := Step(w.cfg, st.link.value.conn, event);
    var next := st.link.value.next + (if event.Arrive? then 1 else 0);
    assert StreamAt(w, s, g);
    ReadSafe(w, w.logs(st.key), BegunOf(s.account.begun, st.key), st, event, conn, next, HandedOf(s.handed, st.key));
    ReadNext(w, s, g, event, conn, next);
    StreamAdvancedSafe(w, s, Next(w, s, Read(g, event)), g, Moved(st, conn, next), NewlyHanded(st.link.value.conn, conn));
  }

  lemma CloseNext(w: World, s: System, g: nat, rounds: seq<Round>, conn: ConnState)
    requires Enabled(w, s, Close(g, rounds)) && conn == Ended(w, s.streams[g].link.value.conn, rounds)
    requires s.streams[g].link.value.conn.batches <= conn.batches
    ensures Next(w, s, Close(g, rounds))
         == s.(streams := s.streams[g := ClosedWith(s.streams[g], conn)],
               handed := Handing(s, s.streams[g].key, NewlyHanded(s.streams[g].link.value.conn, conn)))
  {
  }

  lemma CloseKeepsNoGap(w: World, s: System, g: nat, rounds: seq<Round>)
    requires NoGap(w, s) && Enabled(w, s, Close(g, rounds)) && Ordered(w.logs(s.streams[g].key))
    ensures NoGap(w, Next(w, s, Close(g, rounds)))
  {
    var st := s.streams[g];
    assert StreamAt(w, s, g);
    CloseSafe(w, w.logs(st.key), BegunOf(s.account.begun, st.key), st, rounds, HandedOf(s.handed, st.key));
    var conn := Ended(w, st.link.value.conn, rounds);
    CloseNext(w, s, g, rounds, conn);
    StreamAdvancedSafe(w, s, Next(w, s, Close(g, rounds)), g, ClosedWith(st, conn), NewlyHanded(st.link.value.conn, conn));
  }

  lemma ConnectedKeepsNoGap(w: World, s: System, g: nat, start: nat)
    requires NoGap(w, s) && g in s.streams && s.streams[g].seeded && s.streams[g].link.None?
    requires Ordered(w.logs(s.streams[g].key)) && Boundary(w.logs(s.streams[g].key), start)
    requires var c := s.streams[g].resume;
             !c.IsZero() ==> start == FirstFrom(w.logs(s.streams[g].key), FloorSecond(c.ts))
    ensures NoGap(w, Connected(s, g, start))
  {
    var st := s.streams[g];
    var t := Connected(s, g, start);
    assert StreamAt(w, s, g);
    assert StreamAt(w, t, g) by {
      if st.resume.IsZero() {
        FreshConnectSafe(w.logs(st.key), BegunOf(s.account.begun, st.key), st, start, HandedOf(s.handed, st.key));
      } else {
        ResumedConnectSafe(w.logs(st.key), BegunOf(s.account.begun, st.key), st, start, HandedOf(s.handed, st.key));
      }
    }
    ConnectedGrows(s, g, start);
    StreamMovedSafe(w, s, t, g);
  }

  lemma ConnectedGrows(s: System, g: nat, start: nat)
    requires g in s.streams
    ensures Grows(s, Connected(s, g, start)) && SamePositions(s, Connected(s, g, start))
  {
  }

  lemma ConnectKeepsNoGap(w: World, s: System, g: nat, now: nat, kubeletNow: nat, drain: bool)
    requires NoGap(w, s) && Enabled(w, s, Connect(g, now, kubeletNow, drain)) && Ordered(w.logs(s.streams[g].key))
    ensures NoGap(w, Next(w, s, Connect(g, now, kubeletNow, drain)))
  {
    var st := s.streams[g];
    var point := PointOf(w, st, now, drain);
    KubeletStartsRight(w.logs(st.key), st.resume, point, kubeletNow);
    ConnectedKeepsNoGap(w, s, g, KubeletStart(w.logs(st.key), point, kubeletNow));
  }

  /** What a stream reports has been passed, counting from where the stream counts. */
  lemma ReportKeepsNoGap(w: World, s: System, g: nat)
    requires NoGap(w, s) && g in s.streams
    ensures NoGap(w, Reported(s, g))
  {
    var st, t := s.streams[g], Reported(s, g);
    assert StreamAt(w, s, g);
    if t != s {
      forall k | k in t.cursors
        ensures Passed(w.logs(k), BegunOf(t.account.begun, k), BaseOf(t.account.live, k), t.cursors[k], HandedOf(t.handed, k))
      {
        assert k != st.key ==> k in s.cursors;
      }
    }
    forall h | h in t.streams ensures StreamAt(w, t, h) {
      assert StreamAt(w, s, h);
    }
  }

  lemma SyncKeepsNoGap(w: World, s: System, key: string)
    requires NoGap(w, s)
    ensures NoGap(w, Next(w, s, Sync(key)))
  {
    if Opens(s.books, key) {
      StreamMovedSafe(w, s, Next(w, s, Sync(key)), s.books.lastGen + 1);
    }
  }

  lemma SeedKeepsNoGap(w: World, s: System, g: nat)
    requires NoGap(w, s) && Enabled(w, s, Seed(g))
    ensures NoGap(w, Next(w, s, Seed(g)))
  {
    assert StreamAt(w, s, g);
    StreamMovedSafe(w, s, Next(w, s, Seed(g)), g);
  }

  lemma ReleaseKeepsNoGap(w: World, s: System, g: nat)
    requires NoGap(w, s) && Enabled(w, s, Release(g))
    ensures NoGap(w, Next(w, s, Release(g)))
  {
    StreamMovedSafe(w, s, Next(w, s, Release(g)), g);
  }

  /** Positions dropped, and nothing added. */
  lemma FewerKeepsNoGap(w: World, s: System, t: System)
    requires NoGap(w, s) && OnlyDrops(s, t)
    ensures NoGap(w, t)
  {
    forall g | g in t.streams ensures StreamAt(w, t, g) {
      assert StreamAt(w, s, g);
    }
  }

  lemma RemovalKeepsNoGap(w: World, s: System, a: Action)
    requires NoGap(w, s) && Enabled(w, s, a) && (a.Delete? || a.Expire? || a.Clear? || a.Mark? || a.Sight? || a.CancelAll?)
    ensures NoGap(w, Next(w, s, a))
  {
    RemovalOnlyDrops(w, s, a);
    FewerKeepsNoGap(w, s, Next(w, s, a));
  }

  ghost predicate OnlyDrops(s: System, t: System) {
    && t.streams == s.streams && t.handed == s.handed && t.account == s.account
    && t.disk == s.disk && t.writing == s.writing
    && t.cursors.Keys <= s.cursors.Keys && forall k :: k in t.cursors ==> t.cursors[k] == s.cursors[k]
  }

  lemma RemovalOnlyDrops(w: World, s: System, a: Action)
    requires Enabled(w, s, a) && (a.Delete? || a.Expire? || a.Clear? || a.Mark? || a.Sight? || a.CancelAll?)
    ensures OnlyDrops(s, Next(w, s, a))
  {
  }

  lemma SnapshotKeepsNoGap(w: World, s: System, t: System)
    requires NoGap(w, s)
    requires t == s.(writing := Some(Encoded(s.cursors)), account := s.account.(writing := s.account.live))
    ensures NoGap(w, t)
  {
    DecodedEncoded(s.cursors);
    SameStreamsSafe(w, s, t);
  }

  lemma WriteKeepsNoGap(w: World, s: System, t: System)
    requires NoGap(w, s) && s.writing.Some?
    requires t == s.(writing := None)
          || t == s.(disk := s.writing.value, writing := None, account := s.account.(disk := s.account.writing))
    ensures NoGap(w, t)
  {
    SameStreamsSafe(w, s, t);
  }

  lemma CrashKeepsNoGap(w: World, s: System)
    requires NoGap(w, s)
    ensures NoGap(w, Booted(s.disk, s.handed, s.account.disk, s.account.begun))
  {
  }

  lemma SameStreamsSafe(w: World, s: System, t: System)
    requires NoGap(w, s) && PositionsAt(w, t)
    requires t.streams == s.streams && t.handed == s.handed && t.account.begun == s.account.begun
    ensures NoGap(w, t)
  {
    forall g | g in t.streams ensures StreamAt(w, t, g) {
      assert StreamAt(w, s, g);
    }
  }

  lemma NoGapStep(w: World, s: System, a: Action)
    requires NoGap(w, s) && Enabled(w, s, a)
    requires forall k :: Ordered(w.logs(k))
    ensures NoGap(w, Next(w, s, a))
  {
    match a {
      case Read(g, event) => ReadKeepsNoGap(w, s, g, event);
      case Close(g, rounds) => CloseKeepsNoGap(w, s, g, rounds);
      case Connect(g, now, kubeletNow, drain) => ConnectKeepsNoGap(w, s, g, now, kubeletNow, drain);
      case Report(g) => ReportKeepsNoGap(w, s, g);
      case Snapshot => SnapshotKeepsNoGap(w, s, Next(w, s, a));
      case Write(_) => WriteKeepsNoGap(w, s, Next(w, s, a));
      case Crash => CrashKeepsNoGap(w, s);
      case Sync(key) => SyncKeepsNoGap(w, s, key);
      case Seed(g) => SeedKeepsNoGap(w, s, g);
      case Release(g) => ReleaseKeepsNoGap(w, s, g);
      case _ => RemovalKeepsNoGap(w, s, a);
    }
  }

  // ---------------------------------------------------------------------
  // Every reachable state
  // ---------------------------------------------------------------------

  ghost predicate Possible(w: World, s: System, actions: seq<Action>)
    decreases |actions|, 0
  {
    actions == [] ||
    (Possible(w, s, actions[..|actions| - 1])
     && Enabled(w, After(w, s, actions[..|actions| - 1]), actions[|actions| - 1]))
  }

  ghost function After(w: World, s: System, actions: seq<Action>): System
    requires Possible(w, s, actions)
    decreases |actions|, 1
  {
    if actions == [] then s else Next(w, After(w, s, actions[..|actions| - 1]), actions[|actions| - 1])
  }

  /** Where an earlier process may have left things: whatever is on disk has been
      passed. A first start, with nothing on disk, is one of these. */
  ghost predicate GoodStart(w: World, s: System) {
    && s == Booted(s.disk, s.handed, s.account.disk, s.account.begun)
    && PositionsOk(w, s.account.begun, s.account.disk, Decoded(s.disk), s.handed)
  }

  lemma FirstStartIsGood(w: World)
    ensures GoodStart(w, Booted(map[], map[], map[], map[]))
  {
  }

  /** Whatever adds and deletes, cancelled streams still flushing, replacements,
      prunes, writes and crashes happen in whatever order: in every reachable state
      everything before every remembered position has been handed to the pipeline,
      counting from where its backfill began, and ownership holds. */
  lemma {:induction false} SystemSafe(w: World, s: System, actions: seq<Action>)
    requires forall k :: Ordered(w.logs(k))
    requires GoodStart(w, s) && Possible(w, s, actions)
    ensures NoGap(w, After(w, s, actions))
    ensures Orderly(After(w, s, actions))
    decreases |actions|
  {
    if actions != [] {
      var front := actions[..|actions| - 1];
      SystemSafe(w, s, front);
      NoGapStep(w, After(w, s, front), actions[|actions| - 1]);
      OwnershipStep(w, After(w, s, front), actions[|actions| - 1]);
    }
  }

  /** Wherever a stored cursor stands, every record before it has been handed over,
      counting from b, and b is where one of the key's reads without a cursor began. */
  ghost predicate HasPassed(w: World, s: System, m: Positions, bases: map<string, nat>, key: string, q: nat) {
    key in m && !m[key].IsZero() && Stands(w.logs(key), m[key], q) ==>
      var b := BaseOf(bases, key);
      && b in BegunOf(s.account.begun, key) && b <= q <= |w.logs(key)|
      && multiset(w.logs(key)[b..q]) <= HandedOf(s.handed, key)
  }

  /** In every reachable state and for every setting of since_seconds this holds of
      the cursors in memory and of those a restart after a crash would resume from. */
  lemma StoredCursorsHavePassed(w: World, start: System, actions: seq<Action>, s: System, key: string, q: nat)
    requires forall k :: Ordered(w.logs(k))
    requires GoodStart(w, start) && Possible(w, start, actions) && s == After(w, start, actions)
    ensures HasPassed(w, s, s.cursors, s.account.live, key, q)
    ensures HasPassed(w, s, Next(w, s, Crash).cursors, s.account.disk, key, q)
  {
    SystemSafe(w, start, actions);
    PassedUpTo(w, s, s.cursors, s.account.live, key, q);
    PassedUpTo(w, s, Decoded(s.disk), s.account.disk, key, q);
  }

  lemma PassedUpTo(w: World, s: System, m: Positions, bases: map<string, nat>, key: string, q: nat)
    requires PositionsOk(w, s.account.begun, bases, m, s.handed)
    ensures HasPassed(w, s, m, bases, key, q)
  {
    if key in m && !m[key].IsZero() && Stands(w.logs(key), m[key], q) {
      var log, b := w.logs(key), BaseOf(bases, key);
      assert Passed(log, BegunOf(s.account.begun, key), b, m[key], HandedOf(s.handed, key));
      var p :| PassedAt(log, b, m[key], HandedOf(s.handed, key), p);
      StandsUnique(log, m[key], q, p);
    }
  }

  // ---------------------------------------------------------------------
  // Where backfills begin
  // ---------------------------------------------------------------------

  /** Where a read of this key without a cursor starts. */
  function FreshStart(w: World, key: string, now: nat, kubeletNow: nat, drain: bool): nat {
    KubeletStart(w.logs(key), if drain then DrainStartPoint(0) else StreamStartPoint(0, w.since, now), kubeletNow)
  }

  /** Some connect of the run opened a read of this key, without a cursor, at b. */
  ghost predicate OpenedAt(w: World, start: System, actions: seq<Action>, key: string, b: nat, i: nat)
    requires Possible(w, start, actions) && i < |actions|
  {
    && actions[i].Connect?
    && Possible(w, start, actions[..i])
    && var s, a := After(w, start, actions[..i]), actions[i];
       && a.gen in s.streams && s.streams[a.gen].key == key && s.streams[a.gen].resume.IsZero()
       && b == FreshStart(w, key, a.now, a.kubeletNow, a.drain)
  }

  lemma BegunStep(w: World, s: System, a: Action, key: string, b: nat)
    requires Enabled(w, s, a) && b in BegunOf(Next(w, s, a).account.begun, key)
    ensures b in BegunOf(s.account.begun, key)
         || (a.Connect? && s.streams[a.gen].key == key && s.streams[a.gen].resume.IsZero()
             && b == FreshStart(w, key, a.now, a.kubeletNow, a.drain))
  {
    if !a.Connect? {
      BegunUnmoved(w, s, a);
    }
  }

  lemma BegunUnmoved(w: World, s: System, a: Action)
    requires Enabled(w, s, a) && !a.Connect?
    ensures Next(w, s, a).account.begun == s.account.begun
  {
  }

  /** Every start on the account is one a connect of the run read from without a
      cursor, or was there before. */
  lemma {:induction false} BegunByConnects(w: World, start: System, actions: seq<Action>, key: string, b: nat)
    requires Possible(w, start, actions) && b in BegunOf(After(w, start, actions).account.begun, key)
    ensures b in BegunOf(start.account.begun, key)
         || exists i :: 0 <= i < |actions| && OpenedAt(w, start, actions, key, b, i)
    decreases |actions|
  {
    if actions != [] {
      var front, a := actions[..|actions| - 1], actions[|actions| - 1];
      BegunStep(w, After(w, start, front), a, key, b);
      if b in BegunOf(After(w, start, front).account.begun, key) {
        BegunByConnects(w, start, front, key, b);
        if i: nat :| i < |front| && OpenedAt(w, start, front, key, b, i) {
          assert front[..i] == actions[..i];
          assert OpenedAt(w, start, actions, key, b, i);
        }
      } else {
        assert OpenedAt(w, start, actions, key, b, |actions| - 1);
      }
    }
  }

  /** The whole log of the key is asked for: with no bound at all, or with one that
      reaches back to its first record at every connect made without a cursor. */
  ghost predicate AsksForAll(w: World, start: System, actions: seq<Action>, key: string)
    requires Possible(w, start, actions)
  {
    w.since.Some? ==>
      && w.since.value > 0
      && forall i, b :: 0 <= i < |actions| && OpenedAt(w, start, actions, key, b, i) ==>
           Reaches(w.logs(key), w.since.value, actions[i].kubeletNow)
  }

  /** Then, from a first start, every record of a stamped log before a stored cursor
      has been handed over. */
  lemma WholeHistoryHasPassed(w: World, actions: seq<Action>, s: System, key: string, q: nat)
    requires (forall k :: Ordered(w.logs(k))) && AllStamped(w.logs(key))
    requires Possible(w, Booted(map[], map[], map[], map[]), actions)
    requires AsksForAll(w, Booted(map[], map[], map[], map[]), actions, key)
    requires s == After(w, Booted(map[], map[], map[], map[]), actions)
    ensures forall m: Positions :: m == s.cursors || m == Next(w, s, Crash).cursors ==>
              (key in m && !m[key].IsZero() && Stands(w.logs(key), m[key], q) ==>
                 q <= |w.logs(key)| && multiset(w.logs(key)[..q]) <= HandedOf(s.handed, key))
  {
    var start := Booted(map[], map[], map[], map[]);
    FirstStartIsGood(w);
    StoredCursorsHavePassed(w, start, actions, s, key, q);
    forall b | b in BegunOf(s.account.begun, key) ensures b == 0 {
      BegunByConnects(w, start, actions, key, b);
      assert w.logs(key) != [] ==> Stamped(w.logs(key)[0]);
    }
    assert q <= |w.logs(key)| ==> w.logs(key)[0..q] == w.logs(key)[..q];
  }
}
