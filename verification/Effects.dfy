/** What the receiver's steps achieve, along runs: what is reported is kept, what is
    written is restored, what is terminal is closed, and what is not is opened. */
module Effects {
  import opened Records
  import opened Cursors
  import opened Retries
  import opened Connections
  import opened Streams
  import opened Runs
  import opened Keys
  import opened Stores
  import opened Receivers
  import opened Systems
  import opened Safety
  import opened Histories

  // ---------------------------------------------------------------------
  // Cursors
  // ---------------------------------------------------------------------

  /** The stream's entry is there, under its key and its generation. */
  predicate Owner(s: System, g: nat) {
    && g in s.streams
    && s.streams[g].key in s.books.active && s.books.active[s.streams[g].key] == g
  }

  lemma ReportedAs(s: System, g: nat)
    requires g in s.streams
    ensures var st := s.streams[g];
            AdvancedAs(s.books, s.cursors, st.key, g, st.last, Reported(s, g).cursors)
  {
    var st := s.streams[g];
    OwnerAdvances(s.books, s.cursors, st.key, g, st.last);
  }

  /** What the owning stream reports is kept: whatever happens short of a restart, a
      reported delete or an expiry of its key, the cursor held is never behind it
      again, and neither is the one any later stream of the key is seeded with. */
  lemma {:induction false} ReportIsKept(w: World, s: System, g: nat, actions: seq<Action>)
    requires Owner(s, g) && !s.streams[g].last.IsZero()
    requires Possible(w, Next(w, s, Report(g)), actions)
    requires KeepsCursor(w, Next(w, s, Report(g)), actions, s.streams[g].key)
    ensures var key, c, r := s.streams[g].key, s.streams[g].last, Next(w, s, Report(g));
            && SeededFrom(w, r, actions, key, c)
            && key in After(w, r, actions).cursors && !c.After(After(w, r, actions).cursors[key])
  {
    ReportedAs(s, g);
    CursorKept(w, Next(w, s, Report(g)), actions, s.streams[g].key, s.streams[g].last);
  }

  /** What one step makes of the cursors a key has had since it was last removed: a
      report by its owner adds one, a reported delete and an expiry of its pod leave
      none, and a restart what is on disk. */
  ghost function HeldAfterStep(t: System, a: Action, key: string, before: seq<Cursor>): seq<Cursor>
    requires a.Report? ==> a.gen in t.streams
  {
    match a
    case Report(g) =>
      if t.streams[g].key == key && Owner(t, g) && !t.streams[g].last.IsZero() then before + [t.streams[g].last] else before
    case Delete(keys, inferred) => if !inferred && key in keys then [] else before
    case Expire(cutoff) =>
      var pod := PodUIDFromStreamKey(key);
      if pod in t.lastSeen && t.lastSeen[pod] < cutoff then [] else before
    case Crash => if key in t.disk then [Unmarshal(t.disk[key])] else []
    case _ => before
  }

  /** The cursors the key has had since it was last removed. */
  ghost function HeldSince(w: World, s: System, actions: seq<Action>, key: string): seq<Cursor>
    requires Possible(w, s, actions)
    decreases |actions|
  {
    if actions == [] then (if key in s.cursors then [s.cursors[key]] else [])
    else
      var front := actions[..|actions| - 1];
      HeldAfterStep(After(w, s, front), actions[|actions| - 1], key, HeldSince(w, s, front, key))
  }

  /** In every reachable state, restarts included, a key's cursor is the greatest of
      these, and it has none if there are none. */
  lemma {:induction false} SystemIsMaxJoin(w: World, s: System, actions: seq<Action>, key: string)
    requires Possible(w, s, actions)
    ensures var m, cs := After(w, s, actions).cursors, HeldSince(w, s, actions, key);
            (key in m <==> cs != []) && (key in m ==> Greatest(m[key], cs))
    decreases |actions|
  {
    if actions != [] {
      var front := actions[..|actions| - 1];
      SystemIsMaxJoin(w, s, front, key);
      CursorAfterStep(w, After(w, s, front), actions[|actions| - 1], key, HeldSince(w, s, front, key));
    }
  }

  lemma CursorAfterStep(w: World, t: System, a: Action, key: string, before: seq<Cursor>)
    requires Enabled(w, t, a)
    requires (key in t.cursors <==> before != []) && (key in t.cursors ==> Greatest(t.cursors[key], before))
    ensures var m, cs := Next(w, t, a).cursors, HeldAfterStep(t, a, key, before);
            (key in m <==> cs != []) && (key in m ==> Greatest(m[key], cs))
  {
    if a.Report? {
      ReportedGreatest(t, a.gen, key, before);
    } else if !a.Delete? && !a.Expire? && !a.Crash? {
      CursorsUnmoved(w, t, a);
    }
  }

  lemma ReportedGreatest(t: System, g: nat, key: string, before: seq<Cursor>)
    requires g in t.streams
    requires (key in t.cursors <==> before != []) && (key in t.cursors ==> Greatest(t.cursors[key], before))
    ensures var m, cs := Reported(t, g).cursors, HeldAfterStep(t, Report(g), key, before);
            (key in m <==> cs != []) && (key in m ==> Greatest(m[key], cs))
  {
    ReportedAs(t, g);
    var st := t.streams[g];
    if st.key == key && Owner(t, g) && !st.last.IsZero() {
      var out := Reported(t, g).cursors[key];
      forall d | d in before + [st.last] ensures !d.After(out) {
        AfterIsStrictTotalOrder(d, out, Get(t.cursors, key));
      }
    }
  }

  lemma CursorsUnmoved(w: World, t: System, a: Action)
    requires Enabled(w, t, a) && !a.Report? && !a.Delete? && !a.Expire? && !a.Crash?
    ensures Next(w, t, a).cursors == t.cursors
  {
    if a.Seed? || a.Connect? || a.Read? || a.Close? {
      OwnStep(w, t, a, a.gen);
    }
  }

  // ---------------------------------------------------------------------
  // Storage
  // ---------------------------------------------------------------------

  lemma DiskStep(w: World, s: System, a: Action)
    requires Enabled(w, s, a) && !(a.Write? && !a.failed)
    ensures Next(w, s, a).disk == s.disk
  {
    if !a.Snapshot? && !a.Write? && !a.Crash? {
      StorageUnmoved(w, s, a);
    }
  }

  lemma {:induction false} DiskStays(w: World, s: System, actions: seq<Action>)
    requires Possible(w, s, actions) && forall i :: 0 <= i < |actions| ==> !(actions[i].Write? && !actions[i].failed)
    ensures After(w, s, actions).disk == s.disk
    decreases |actions|
  {
    if actions != [] {
      var front := actions[..|actions| - 1];
      assert forall i :: 0 <= i < |front| ==> front[i] == actions[i];
      DiskStays(w, s, front);
      DiskStep(w, After(w, s, front), actions[|actions| - 1]);
    }
  }

  lemma WritingStep(w: World, s: System, a: Action)
    requires Enabled(w, s, a) && s.writing.Some? && !a.Write? && !a.Crash?
    ensures Next(w, s, a).writing == s.writing
  {
    if !a.Snapshot? {
      StorageUnmoved(w, s, a);
    }
  }

  lemma {:induction false} WritingStays(w: World, s: System, actions: seq<Action>)
    requires Possible(w, s, actions) && s.writing.Some?
    requires forall i :: 0 <= i < |actions| ==> !actions[i].Write? && !actions[i].Crash?
    ensures After(w, s, actions).writing == s.writing
    decreases |actions|
  {
    if actions != [] {
      var front := actions[..|actions| - 1];
      assert forall i :: 0 <= i < |front| ==> front[i] == actions[i];
      WritingStays(w, s, front);
      WritingStep(w, After(w, s, front), actions[|actions| - 1]);
    }
  }

  /** The cursors of the moment a snapshot was taken are what a restart resumes from,
      however long the write takes and whatever happens before and after it, until
      another write succeeds. */
  lemma WrittenIsRestored(w: World, s: System, during: seq<Action>, t: System, later: seq<Action>)
    requires s.writing.None?
    requires Possible(w, Next(w, s, Snapshot), during)
    requires forall i :: 0 <= i < |during| ==> !during[i].Write? && !during[i].Crash?
    requires t == After(w, Next(w, s, Snapshot), during)
    requires Enabled(w, t, Write(false)) ==> Possible(w, Next(w, t, Write(false)), later)
    requires forall i :: 0 <= i < |later| ==> !(later[i].Write? && !later[i].failed)
    ensures Enabled(w, t, Write(false))
    ensures Next(w, After(w, Next(w, t, Write(false)), later), Crash).cursors == s.cursors
  {
    WritingStays(w, Next(w, s, Snapshot), during);
    DiskStays(w, Next(w, t, Write(false)), later);
    DecodedEncoded(s.cursors);
  }

  // ---------------------------------------------------------------------
  // Expiry
  // ---------------------------------------------------------------------

  lemma ExpiringStep(w: World, s: System, a: Action, key: string)
    requires Enabled(w, s, a) && key in s.expiring && !a.Clear? && !a.Crash?
    ensures key in Next(w, s, a).expiring
  {
    if a.Seed? || a.Connect? || a.Read? || a.Close? {
      OwnStep(w, s, a, a.gen);
    }
  }

  lemma {:induction false} ExpiringStays(w: World, s: System, actions: seq<Action>, key: string)
    requires Possible(w, s, actions) && key in s.expiring
    requires forall i :: 0 <= i < |actions| ==> !actions[i].Clear? && !actions[i].Crash?
    ensures key in After(w, s, actions).expiring
    decreases |actions|
  {
    if actions != [] {
      var front := actions[..|actions| - 1];
      assert forall i :: 0 <= i < |front| ==> front[i] == actions[i];
      ExpiringStays(w, s, front, key);
      ExpiringStep(w, After(w, s, front), actions[|actions| - 1], key);
    }
  }

  /** An expiry removes the cursors of exactly the pods last seen before the cutoff, and
      when the receiver gets to clear its own books for them, their marks and restart
      counts go too. */
  lemma ExpiryRemoves(w: World, s: System, cutoff: nat, key: string, during: seq<Action>)
    requires Enabled(w, s, Expire(cutoff)) && Possible(w, Next(w, s, Expire(cutoff)), during)
    requires forall i :: 0 <= i < |during| ==> !during[i].Clear? && !during[i].Crash?
    ensures var e, pod := Next(w, s, Expire(cutoff)), PodUIDFromStreamKey(key);
            if key in s.cursors && pod in s.lastSeen && s.lastSeen[pod] < cutoff then
              var c := Next(w, After(w, e, during), Clear);
              && key !in e.cursors
              && key !in c.books.terminated && key !in c.books.drained && key !in c.books.restarts
            else Get(e.cursors, key) == Get(s.cursors, key) && (key in e.cursors <==> key in s.cursors)
  {
    var e, pod := Next(w, s, Expire(cutoff)), PodUIDFromStreamKey(key);
    if key in s.cursors && pod in s.lastSeen && s.lastSeen[pod] < cutoff {
      ExpiringStays(w, e, during, key);
      ClearsMarks(After(w, e, during).books, After(w, e, during).expiring, key);
    }
  }

  /** When the pod was last seen, as far as it is remembered: the last sight of it,
      unless an expiry with a later cutoff or a restart came after that. */
  function LastSight(before: Option<nat>, actions: seq<Action>, pod: string): Option<nat> {
    if actions == [] then before
    else
      var seen, a := LastSight(before, actions[..|actions| - 1], pod), actions[|actions| - 1];
      if a.Sight? && a.pod == pod then Some(a.now)
      else if a.Crash? || (a.Expire? && seen.Some? && seen.value < a.cutoff) then None
      else seen
  }

  function SeenIn(s: System, pod: string): Option<nat> {
    if pod in s.lastSeen then Some(s.lastSeen[pod]) else None
  }

  lemma {:induction false} SightsAreRemembered(w: World, s: System, actions: seq<Action>, pod: string)
    requires Possible(w, s, actions)
    ensures SeenIn(After(w, s, actions), pod) == LastSight(SeenIn(s, pod), actions, pod)
    decreases |actions|
  {
    if actions != [] {
      var front := actions[..|actions| - 1];
      SightsAreRemembered(w, s, front, pod);
      SightStep(w, After(w, s, front), actions[|actions| - 1], pod);
    }
  }

  lemma SightStep(w: World, s: System, a: Action, pod: string)
    requires Enabled(w, s, a)
    ensures SeenIn(Next(w, s, a), pod)
         == if a.Sight? && a.pod == pod then Some(a.now)
            else if a.Crash? || (a.Expire? && SeenIn(s, pod).Some? && SeenIn(s, pod).value < a.cutoff) then None
            else SeenIn(s, pod)
  {
    if a.Seed? || a.Connect? || a.Read? || a.Close? {
      OwnStep(w, s, a, a.gen);
    }
  }

  // ---------------------------------------------------------------------
  // Opening and closing
  // ---------------------------------------------------------------------

  lemma TerminatedStep(w: World, s: System, a: Action, key: string)
    requires key in s.books.terminated && Enabled(w, s, a)
    requires !a.Crash? && !(a.Delete? && key in a.keys) && !(a.Clear? && key in s.expiring)
    ensures key in Next(w, s, a).books.terminated
  {
    if a.Seed? || a.Connect? || a.Read? || a.Close? {
      OwnStep(w, s, a, a.gen);
    }
  }

  lemma {:induction false} TerminatedStays(w: World, s: System, actions: seq<Action>, key: string)
    requires key in s.books.terminated && Possible(w, s, actions) && LeavesMarks(w, s, actions, key)
    ensures key in After(w, s, actions).books.terminated
    decreases |actions|
  {
    if actions != [] {
      TerminatedStays(w, s, actions[..|actions| - 1], key);
      TerminatedStep(w, After(w, s, actions[..|actions| - 1]), actions[|actions| - 1], key);
    }
  }

  /** A container once marked terminal is closed for good when the stream that owns it
      is done, however much later that is: it is drained, and no sync opens it, until a
      delete or a prune clears its marks. */
  lemma TerminalIsClosed(w: World, s: System, terminal: set<string>, restarts: map<string, int>, key: string,
                         running: seq<Action>, t: System, g: nat, later: seq<Action>)
    requires key in terminal
    requires Possible(w, Next(w, s, Mark(terminal, restarts)), running)
    requires LeavesMarks(w, Next(w, s, Mark(terminal, restarts)), running, key)
    requires t == After(w, Next(w, s, Mark(terminal, restarts)), running)
    requires Owner(t, g) && t.streams[g].key == key && Enabled(w, t, Release(g))
    requires Possible(w, Next(w, t, Release(g)), later) && LeavesMarks(w, Next(w, t, Release(g)), later, key)
    ensures var u := After(w, Next(w, t, Release(g)), later);
            key in u.books.drained && key !in u.books.active && Next(w, u, Sync(key)) == u
  {
    MarksAre(s.books, terminal, restarts, key);
    TerminatedStays(w, Next(w, s, Mark(terminal, restarts)), running, key);
    ReleaseDrainsWhen(t.books, key, g);
    DrainedStaysClosed(w, Next(w, t, Release(g)), later, key);
  }

  /** A sync of a container that has no stream and is not drained starts one, of a new
      generation and not cancelled; any other sync changes nothing. */
  lemma SyncOpensWhen(w: World, s: System, key: string)
    requires Orderly(s)
    ensures var t, g := Next(w, s, Sync(key)), s.books.lastGen + 1;
            if key !in s.books.active && key !in s.books.drained then
              && Owner(t, g) && t.streams[g].key == key && g !in s.streams && g !in t.books.cancelled
              && !t.streams[g].seeded
            else t == s
  {
  }

  lemma ClosedNeverStep(w: World, s: System, a: Action, key: string)
    requires Enabled(w, s, a) && a != Sync(key) && key !in s.books.active && key !in s.books.drained
    ensures key !in Next(w, s, a).books.active && key !in Next(w, s, a).books.drained
  {
    if a.Seed? || a.Connect? || a.Read? || a.Close? {
      OwnStep(w, s, a, a.gen);
    }
  }

  lemma {:induction false} ClosedStays(w: World, s: System, actions: seq<Action>, key: string)
    requires Possible(w, s, actions) && key !in s.books.active && key !in s.books.drained
    requires forall i :: 0 <= i < |actions| ==> actions[i] != Sync(key)
    ensures key !in After(w, s, actions).books.active && key !in After(w, s, actions).books.drained
    decreases |actions|
  {
    if actions != [] {
      var front := actions[..|actions| - 1];
      assert forall i :: 0 <= i < |front| ==> front[i] == actions[i];
      ClosedStays(w, s, front, key);
      ClosedNeverStep(w, After(w, s, front), actions[|actions| - 1], key);
    }
  }

  lemma SyncOpens(w: World, s: System, key: string)
    requires key !in s.books.active && key !in s.books.drained
    ensures Owner(Next(w, s, Sync(key)), s.books.lastGen + 1)
  {
  }

  /** After a delete, reported or inferred, the next sync of the container opens it,
      whatever was marked before and whatever happens in between. */
  lemma DeletedReopens(w: World, s: System, keys: set<string>, inferred: bool, key: string, d: System,
                       actions: seq<Action>, t: System)
    requires key in keys && d == Next(w, s, Delete(keys, inferred))
    requires Possible(w, d, actions) && t == After(w, d, actions)
    requires forall i :: 0 <= i < |actions| ==> actions[i] != Sync(key)
    ensures key !in t.books.active && key !in t.books.drained && Owner(Next(w, t, Sync(key)), t.books.lastGen + 1)
  {
    DeletedIsClosed(w, s, keys, inferred, key);
    ClosedStays(w, d, actions, key);
    SyncOpens(w, t, key);
  }

  lemma DeletedIsClosed(w: World, s: System, keys: set<string>, inferred: bool, key: string)
    requires key in keys
    ensures key !in Next(w, s, Delete(keys, inferred)).books.active && key !in Next(w, s, Delete(keys, inferred)).books.drained
  {
    ClearsMarks(s.books, keys, key);
  }

  /** A delete or a shutdown cancels the streams it stops. */
  lemma StoppedAreCancelled(w: World, s: System, keys: set<string>, inferred: bool, g: nat)
    requires Orderly(s) && g in s.streams
    ensures s.streams[g].key in keys ==> g in Next(w, s, Delete(keys, inferred)).books.cancelled
    ensures g in Next(w, s, CancelAll).books.cancelled
  {
  }

  // ---------------------------------------------------------------------
  // Connections
  // ---------------------------------------------------------------------

  /** The events stream g has read along these actions. */
  function ReadsOf(actions: seq<Action>, g: nat): seq<Event> {
    if actions == [] then []
    else
      var a := actions[|actions| - 1];
      ReadsOf(actions[..|actions| - 1], g) + (if a.Read? && a.gen == g then [a.event] else [])
  }

  /** Stream g stays in its open connection: it neither closes nor ends, and the
      process is not killed. */
  predicate KeepsReading(a: Action, g: nat) {
    !a.Crash? && !(a.Close? && a.gen == g) && !(a.Release? && a.gen == g)
  }

  /** A stream in the connection it opened at start, after these events. */
  ghost predicate Reading(w: World, s: System, g: nat, key: string, resume: Cursor, start: nat, events: seq<Event>) {
    && g in s.streams && s.streams[g].key == key && s.streams[g].resume == resume && s.streams[g].seeded
    && s.streams[g].link.Some?
    && s.streams[g].link.value.conn == Steps(w.cfg, Opened(resume), events)
    && s.streams[g].link.value.next == start + |Arrivals(events)| <= |w.logs(key)|
    && Prefix(Arrivals(events), w.logs(key)[start..])
  }

  lemma ReadingStep(w: World, s: System, a: Action, g: nat, key: string, resume: Cursor, start: nat, events: seq<Event>)
    requires Reading(w, s, g, key, resume, start, events) && start <= |w.logs(key)|
    requires g <= s.books.lastGen && Enabled(w, s, a) && KeepsReading(a, g)
    ensures Reading(w, Next(w, s, a), g, key, resume, start, if a.Read? && a.gen == g then events + [a.event] else events)
  {
    if a.Read? && a.gen == g {
      ReadOnce(w, s, g, a.event, key, resume, start, events);
    } else {
      OthersLeaveStream(w, s, a, g);
    }
  }

  lemma ReadOnce(w: World, s: System, g: nat, e: Event, key: string, resume: Cursor, start: nat, events: seq<Event>)
    requires Reading(w, s, g, key, resume, start, events) && start <= |w.logs(key)| && Enabled(w, s, Read(g, e))
    ensures Reading(w, Next(w, s, Read(g, e)), g, key, resume, start, events + [e])
  {
    var conn := s.streams[g].link.value.conn;
    StepGrows(w.cfg, conn, e);
    ReadNext(w, s, g, e, Step(w.cfg, conn, e), s.streams[g].link.value.next + (if e.Arrive? then 1 else 0));
    OneMoreEvent(w.cfg, Opened(resume), events, e);
    ArrivalServed(w.logs(key), start, events, e);
  }

  lemma OneMoreEvent(cfg: Config, st: ConnState, events: seq<Event>, e: Event)
    ensures Steps(cfg, st, events + [e]) == Step(cfg, Steps(cfg, st, events), e)
  {
    assert (events + [e])[..|events|] == events;
  }

  lemma ArrivalServed(log: seq<Record>, start: nat, events: seq<Event>, e: Event)
    requires start + |Arrivals(events)| <= |log| && Prefix(Arrivals(events), log[start..])
    requires e.Arrive? ==> start + |Arrivals(events)| < |log| && e.record == log[start + |Arrivals(events)|]
    ensures |Arrivals(events + [e])| == |Arrivals(events)| + (if e.Arrive? then 1 else 0)
    ensures Prefix(Arrivals(events + [e]), log[start..])
  {
    var n := |Arrivals(events)|;
    assert (events + [e])[..|events|] == events;
    if e.Arrive? {
      assert Arrivals(events + [e]) == Arrivals(events) + [e.record];
      assert log[start..][..n + 1] == log[start..][..n] + [log[start + n]];
    } else {
      assert Arrivals(events + [e]) == Arrivals(events);
    }
  }

  /** No action but a stream's own changes it, and a report does not either. */
  lemma OthersLeaveStream(w: World, s: System, a: Action, g: nat)
    requires g in s.streams && g <= s.books.lastGen && Enabled(w, s, a) && !a.Crash?
    requires a.Report? || !StepOf(a, g)
    ensures g in Next(w, s, a).streams && Next(w, s, a).streams[g] == s.streams[g]
  {
    if a.Seed? || a.Connect? || a.Read? || a.Close? {
      OwnStep(w, s, a, a.gen);
    }
  }

  lemma {:induction false} ReadingStays(w: World, s: System, actions: seq<Action>, g: nat, key: string, resume: Cursor, start: nat)
    requires Possible(w, s, actions) && Reading(w, s, g, key, resume, start, []) && start <= |w.logs(key)|
    requires g <= s.books.lastGen
    requires forall i :: 0 <= i < |actions| ==> KeepsReading(actions[i], g)
    ensures Reading(w, After(w, s, actions), g, key, resume, start, ReadsOf(actions, g))
    ensures g <= After(w, s, actions).books.lastGen
    decreases |actions|
  {
    if actions != [] {
      var front, a := actions[..|actions| - 1], actions[|actions| - 1];
      assert forall i :: 0 <= i < |front| ==> front[i] == actions[i];
      ReadingStays(w, s, front, g, key, resume, start);
      ReadingStep(w, After(w, s, front), a, g, key, resume, start, ReadsOf(front, g));
      LastGenStep(w, After(w, s, front), a);
      assert ReadsOf(front, g) + [] == ReadsOf(front, g);
    }
  }

  /** So whatever else happens in between, what a stream reads from a connect to a
      close is one connection as a stream by itself has it: the kubelet serves it the
      log from the point its cursor asks for, and it leaves the stream with the cursor
      that connection returns. */
  lemma SystemReadsAreConnections(w: World, s: System, g: nat, now: nat, kubeletNow: nat, drain: bool,
                                  actions: seq<Action>, rounds: seq<Round>, broken: bool)
    requires Orderly(s) && Enabled(w, s, Connect(g, now, kubeletNow, drain))
    requires Possible(w, Next(w, s, Connect(g, now, kubeletNow, drain)), actions)
    requires forall i :: 0 <= i < |actions| ==> KeepsReading(actions[i], g)
    ensures var st, t := s.streams[g], After(w, Next(w, s, Connect(g, now, kubeletNow, drain)), actions);
            var conn := Connection(ReadsOf(actions, g), rounds, broken);
            var f := Finished(w.cfg, st.resume, conn);
            && ServesConnection(w.logs(st.key), PointOf(w, st, now, drain), kubeletNow, conn)
            && Enabled(w, t, Close(g, rounds))
            && var out := Next(w, t, Close(g, rounds)).streams[g];
               && out.link.None? && out.resume == (if f.delivered.IsZero() then st.resume else f.delivered)
               && (!f.delivered.IsZero() ==> out.last == f.delivered)
  {
    var st, d := s.streams[g], Next(w, s, Connect(g, now, kubeletNow, drain));
    var start := KubeletStart(w.logs(st.key), PointOf(w, st, now, drain), kubeletNow);
    assert Reading(w, d, g, st.key, st.resume, start, []);
    ReadingStays(w, d, actions, g, st.key, st.resume, start);
    ClosesAsFinished(w, After(w, d, actions), g, st.key, st.resume, start, Connection(ReadsOf(actions, g), rounds, broken));
  }

  lemma ClosesAsFinished(w: World, t: System, g: nat, key: string, resume: Cursor, start: nat, conn: Connection)
    requires Reading(w, t, g, key, resume, start, conn.events) && start <= |w.logs(key)|
    ensures var f, out := Finished(w.cfg, resume, conn), Next(w, t, Close(g, conn.last)).streams[g];
            && out.link.None? && out.resume == (if f.delivered.IsZero() then resume else f.delivered)
            && (!f.delivered.IsZero() ==> out.last == f.delivered)
  {
    var before := t.streams[g].link.value.conn;
    FlushGrows(w.cfg, before, conn.last);
    CloseNext(w, t, g, conn.last, Ended(w, before, conn.last));
  }
}
