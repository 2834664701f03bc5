/** Kills and restarts: what has been handed on and reported when the process is
    killed anywhere, and what the next process hands on again. */
module Crashes {
  import opened Records
  import opened Cursors
  import opened Connections
  import opened Readings
  import opened Streams
  import opened Runs

  /** The read a process is killed in: a follow, or the final drain that comes after
      the follow of a. */
  datatype Read = Following(now: nat, kubeletNow: nat) | Draining(a: Attempt)

  /** The stream as it is when that read is opened. */
  function ReaderOf(cfg: StreamConfig, p: Progress, read: Read): Progress
    requires read.Draining? ==> read.a.Followed?
  {
    match read
    case Following(_, _) => p
    case Draining(a) => BeforeDrain(cfg, p, a)
  }

  function ReadStart(log: seq<Record>, cfg: StreamConfig, p: Progress, read: Read): nat
    requires read.Draining? ==> read.a.Followed?
  {
    match read
    case Following(now, kubeletNow) => KubeletStart(log, StreamStartPoint(p.resume.ts, cfg.since, now), kubeletNow)
    case Draining(a) => KubeletStart(log, DrainStartPoint(BeforeDrain(cfg, p, a).resume.ts), a.kubeletNow)
  }

  /** The kubelet has served these events of the read so far. */
  ghost predicate ServesRead(log: seq<Record>, cfg: StreamConfig, p: Progress, read: Read, events: seq<Event>) {
    && (read.Draining? ==>
          && read.a.Followed? && Drains(cfg, p, read.a)
          && ServesConnection(log, FollowPoint(cfg, p, read.a), read.a.kubeletNow, read.a.conn))
    && Prefix(Arrivals(events), log[ReadStart(log, cfg, p, read)..])
  }

  /** Where delivery counts from while the read is open. */
  function BaseDuring(log: seq<Record>, cfg: StreamConfig, base: nat, p: Progress, read: Read): nat
    requires read.Draining? ==> read.a.Followed?
  {
    if ReaderOf(cfg, p, read).resume.IsZero() then ReadStart(log, cfg, p, read)
    else if read.Draining? then Rebased(log, base, p.resume, FollowPoint(cfg, p, read.a), read.a.kubeletNow)
    else base
  }

  /** What the process has handed on when it is killed after these events of the
      open read: all its earlier reads did, and the batches of this one that have
      been reported or dropped. */
  function HandedWhenKilled(cfg: StreamConfig, q: Progress, events: seq<Event>): seq<Record> {
    Flat(q.batches + Steps(cfg.conn, Opened(q.resume), events).batches)
  }

  /** Every cursor it has reported, any of which may be the one on disk. */
  function ReportedWhenKilled(cfg: StreamConfig, q: Progress, events: seq<Event>): seq<Cursor> {
    q.reports + Steps(cfg.conn, Opened(q.resume), events).reports
  }

  function LastWhenKilled(cfg: StreamConfig, q: Progress, events: seq<Event>): Cursor {
    Committed(q.resume, Steps(cfg.conn, Opened(q.resume), events))
  }

  /** What has been handed on covers the log from base to here, where the last report
      stands, and each report stands in between. */
  ghost predicate LeftAt(log: seq<Record>, cfg: StreamConfig, q: Progress, events: seq<Event>, base: nat, here: nat) {
    && base <= here <= |log| && Stands(log, LastWhenKilled(cfg, q, events), here)
    && Covers(log, base, here, HandedWhenKilled(cfg, q, events))
    && (AllStamped(log) ==> HandedWhenKilled(cfg, q, events) == log[base..here])
    && ReportsWithin(log, ReportedWhenKilled(cfg, q, events), base, here)
    && (LastWhenKilled(cfg, q, events).IsZero() ==> ReportedWhenKilled(cfg, q, events) == [])
  }

  lemma KilledInRead(log: seq<Record>, cfg: StreamConfig, base: nat, here: nat, q: Progress,
                     point: StartPoint, kubeletNow: nat, events: seq<Event>)
    returns (b: nat, h: nat)
    requires Ordered(log) && SettledBy(log, base, here, q)
    requires !q.resume.IsZero() ==> point == StartPoint(Some(q.resume.ts), None)
    requires Prefix(Arrivals(events), log[KubeletStart(log, point, kubeletNow)..])
    ensures b == Rebased(log, base, q.resume, point, kubeletNow)
    ensures LeftAt(log, cfg, q, events, b, h)
  {
    var home;
    b, home := ReadOpens(log, base, here, q, point, kubeletNow);
    var v := EventsOnTrack(log, cfg.conn, q.resume, KubeletStart(log, point, kubeletNow), home, events);
    SettledMore(log, b, home, q.resume, q.batches, q.reports, v, Steps(cfg.conn, Opened(q.resume), events));
    h := v.stand;
    if AllStamped(log) {
      SettledExactly(log, b, h, HandedWhenKilled(cfg, q, events));
    }
  }

  lemma ReadKilled(log: seq<Record>, cfg: StreamConfig, base: nat, here: nat, p: Progress, read: Read, events: seq<Event>)
    returns (h: nat)
    requires Ordered(log) && SettledBy(log, base, here, p) && ServesRead(log, cfg, p, read, events)
    ensures LeftAt(log, cfg, ReaderOf(cfg, p, read), events, BaseDuring(log, cfg, base, p, read), h)
  {
    var b;
    match read
    case Following(now, kubeletNow) =>
      b, h := KilledInRead(log, cfg, base, here, p, StreamStartPoint(p.resume.ts, cfg.since, now), kubeletNow, events);
    case Draining(a) =>
      var q := BeforeDrain(cfg, p, a);
      b, h := FollowSettles(log, cfg, base, here, p, a);
      b, h := KilledInRead(log, cfg, b, h, q, DrainStartPoint(q.resume.ts), a.kubeletNow, events);
  }

  /** A process killed anywhere, in its first life or a later one, in any read,
      between reads or after the last: what it has handed on covers the log from where it resumed,
      or where its backfill began, up to its last report, and each of its reports
      stands in between. */
  lemma KilledAnywhere(log: seq<Record>, cfg: StreamConfig, resume: Cursor, from: nat, script: seq<Attempt>,
                       p: Progress, read: Read, events: seq<Event>)
    returns (base: nat, here: nat)
    requires Ordered(log) && Stands(log, resume, from)
    requires ServesRun(log, cfg, Started(cfg, resume), script)
    requires p == Turns(cfg, Started(cfg, resume), script)
    requires ServesRead(log, cfg, p, read, events)
    ensures base == BaseDuring(log, cfg, BackfillStart(log, cfg, from, Started(cfg, resume), script), p, read)
    ensures !resume.IsZero() ==> base == from
    ensures LeftAt(log, cfg, ReaderOf(cfg, p, read), events, base, here)
  {
    SettledAtStart(log, resume, from);
    var at := RunSettles(log, cfg, from, from, Started(cfg, resume), script);
    var b := BackfillStart(log, cfg, from, Started(cfg, resume), script);
    base := BaseDuring(log, cfg, b, p, read);
    here := ReadKilled(log, cfg, b, at, p, read, events);
    if !resume.IsZero() {
      BackfillFixed(log, cfg, from, Started(cfg, resume), script);
      BaseFixed(log, cfg, b, p, read);
    }
  }

  lemma BaseFixed(log: seq<Record>, cfg: StreamConfig, base: nat, p: Progress, read: Read)
    requires !p.resume.IsZero() && (read.Draining? ==> read.a.Followed?)
    ensures BaseDuring(log, cfg, base, p, read) == base
  {
  }

  /** Crash safety: the process is killed anywhere, and the next one resumes from any
      cursor it had reported or had itself resumed from. Nothing is skipped, and what
      is handed on twice is exactly the records between where that cursor stands and
      where the last report did. */
  lemma CrashRepeatsExactly(log: seq<Record>, cfg: StreamConfig, resume: Cursor, from: nat, script: seq<Attempt>,
                            p: Progress, read: Read, events: seq<Event>,
                            persisted: Cursor, again: seq<Attempt>, r: Progress)
    returns (base: nat, here: nat, saved: nat, next: nat)
    requires Ordered(log) && AllStamped(log) && Stands(log, resume, from)
    requires ServesRun(log, cfg, Started(cfg, resume), script)
    requires p == Turns(cfg, Started(cfg, resume), script)
    requires ServesRead(log, cfg, p, read, events)
    requires !persisted.IsZero()
    requires persisted == resume || persisted in ReportedWhenKilled(cfg, ReaderOf(cfg, p, read), events)
    requires ServesRun(log, cfg, Started(cfg, persisted), again) && r == Turns(cfg, Started(cfg, persisted), again)
    ensures base == BaseDuring(log, cfg, BackfillStart(log, cfg, from, Started(cfg, resume), script), p, read)
    ensures base <= saved <= here <= |log| && saved <= next <= |log|
    ensures Stands(log, persisted, saved) && Stands(log, r.resume, next)
    ensures Stands(log, LastWhenKilled(cfg, ReaderOf(cfg, p, read), events), here)
    ensures HandedWhenKilled(cfg, ReaderOf(cfg, p, read), events) == log[base..saved] + log[saved..here]
    ensures Flat(r.batches) == log[saved..next]
    ensures next >= here ==> Flat(r.batches) == log[saved..here] + log[here..next]
    ensures next < here ==> Prefix(Flat(r.batches), log[saved..here])
  {
    base, here := KilledAnywhere(log, cfg, resume, from, script, p, read, events);
    saved := PersistedStands(log, resume, from, persisted, ReportedWhenKilled(cfg, ReaderOf(cfg, p, read), events), base, here);
    var b;
    b, next := RunResumes(log, cfg, persisted, saved, again, r);
    SlicesJoin(log, base, saved, here);
    if next >= here {
      SlicesJoin(log, saved, here, next);
    } else {
      ShorterSlice(log, saved, next, here);
    }
  }

  lemma PersistedStands(log: seq<Record>, resume: Cursor, from: nat, persisted: Cursor, reports: seq<Cursor>, base: nat, here: nat)
    returns (saved: nat)
    requires Stands(log, resume, from) && !persisted.IsZero() && base <= here
    requires !resume.IsZero() ==> base == from
    requires ReportsWithin(log, reports, base, here)
    requires persisted == resume || persisted in reports
    ensures base <= saved <= here && Stands(log, persisted, saved)
  {
    if persisted == resume {
      saved := from;
    } else {
      var i :| 0 <= i < |reports| && reports[i] == persisted;
      assert StandsWithin(log, reports[i], base, here);
      saved :| base <= saved <= here && Stands(log, persisted, saved);
    }
  }

  lemma ShorterSlice(log: seq<Record>, lo: nat, mid: nat, hi: nat)
    requires lo <= mid <= hi <= |log|
    ensures Prefix(log[lo..mid], log[lo..hi])
  {
  }
}
