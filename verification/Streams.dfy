/** stream.go: following one container across connections (containerStream). */
module Streams {
  import opened Records
  import opened Cursors
  import opened Connections
  import opened Backoffs

  /** since is since_seconds; the durations are nanoseconds, and a maxElapsed of 0
      means retry for ever. */
  datatype StreamConfig = StreamConfig(conn: Config, since: Option<nat>, initial: nat, max: nat, maxElapsed: nat)

  /** AtHead is a loop head of run: another connection is next. */
  datatype End = AtHead | Cancelled | GaveUp | Terminated

  /** A stream's variables, with what all its connections have handed on. */
  datatype Progress = Progress(
    resume: Cursor,
    backoff: int,
    failingSince: Option<nat>,
    batches: seq<seq<Record>>,
    reports: seq<Cursor>,
    leaked: multiset<Record>,
    end: End)

  /** What the world does in one turn of run's loop: the connect fails, or a
      connection is followed to its end and, if the container then turns out to
      be terminal and the stream did not end cleanly, drained. drain is None when
      that last read cannot be opened. recycled says the connection's lifetime
      ran out; interrupted, that the stream was cancelled while waiting. */
  datatype Attempt =
    | ConnectFailed(recycled: bool, now: nat, checked: nat, interrupted: bool)
    | Followed(now: nat, kubeletNow: nat, conn: Connection, recycled: bool,
               terminal: bool, drain: Option<Connection>, interrupted: bool)

  /** Where to begin, as the two mutually exclusive fields (sinceTime, sinceSeconds). */
  datatype StartPoint = StartPoint(time: Option<nat>, seconds: Option<nat>)

  function StreamStartPoint(resumeFrom: nat, since: Option<nat>, now: nat): StartPoint {
    if resumeFrom != 0 then StartPoint(Some(resumeFrom), None)
    else if since == Some(0) then StartPoint(Some(now), None)
    else StartPoint(None, since)
  }

  function DrainStartPoint(resumeFrom: nat): StartPoint {
    if resumeFrom != 0 then StartPoint(Some(resumeFrom), None) else StartPoint(None, None)
  }

  /** The time from which the kubelet serves for a start point, if it is bounded: a
      time reaches it cut down to its second. */
  function SinceOf(point: StartPoint, kubeletNow: nat): Option<nat> {
    if point.time.Some? then Some(FloorSecond(point.time.value))
    else if point.seconds.Some? then
      Some(if kubeletNow < point.seconds.value * SECOND then 0 else kubeletNow - point.seconds.value * SECOND)
    else None
  }

  /** Where reads start: from the cursor's second once there is a cursor; a follow
      otherwise from since_seconds ago, or from this second if that is 0, and a drain
      from the beginning. No start point names both fields, nor 0 seconds. */
  lemma StartPointsAre(resumeFrom: nat, since: Option<nat>, now: nat, kubeletNow: nat)
    ensures var follow, drain := StreamStartPoint(resumeFrom, since, now), DrainStartPoint(resumeFrom);
            && (follow.time.None? || follow.seconds.None?) && (drain.time.None? || drain.seconds.None?)
            && follow.seconds != Some(0) && drain.seconds != Some(0)
            && (resumeFrom != 0 ==> SinceOf(follow, kubeletNow) == SinceOf(drain, kubeletNow) == Some(FloorSecond(resumeFrom)))
            && (resumeFrom == 0 ==>
                  && SinceOf(drain, kubeletNow) == None
                  && (since == None ==> SinceOf(follow, kubeletNow) == None)
                  && (since == Some(0) ==> SinceOf(follow, kubeletNow) == Some(FloorSecond(now)))
                  && (since.Some? && since.value > 0 ==>
                        && SinceOf(follow, kubeletNow).Some?
                        && SinceOf(follow, kubeletNow).value == Max(0, kubeletNow - since.value * SECOND)))
  {
  }

  /** The first record the kubelet serves for a start point. */
  function KubeletStart(log: seq<Record>, point: StartPoint, kubeletNow: nat): (r: nat)
    ensures r <= |log|
  {
    var since := SinceOf(point, kubeletNow);
    if since.Some? then FirstFrom(log, since.value) else 0
  }

  function Started(cfg: StreamConfig, resume: Cursor): Progress {
    Progress(resume, cfg.initial, None, [], [], multiset{}, AtHead)
  }

  /** One consume call: the stream keeps the returned cursor unless it is zero. */
  function Consumed(cfg: StreamConfig, p: Progress, conn: Connection): Progress {
    var st := Finished(cfg.conn, p.resume, conn);
    p.(batches := p.batches + st.batches,
       reports := p.reports + st.reports,
       leaked := p.leaked + st.leaked,
       resume := if st.delivered.IsZero() then p.resume else st.delivered)
  }

  /** follow's own report of the cursor a connection returned. */
  function ReportedAgain(cfg: StreamConfig, p: Progress, conn: Connection): Progress {
    var st := Finished(cfg.conn, p.resume, conn);
    var q := Consumed(cfg, p, conn);
    if st.delivered.IsZero() then q else q.(reports := q.reports + [st.delivered])
  }

  function FollowPoint(cfg: StreamConfig, p: Progress, a: Attempt): StartPoint
    requires a.Followed?
  {
    StreamStartPoint(p.resume.ts, cfg.since, a.now)
  }

  function FollowEnding(cfg: StreamConfig, p: Progress, a: Attempt): Ending
    requires a.Followed?
  {
    EndingOf(Finished(cfg.conn, p.resume, a.conn), a.conn)
  }

  /** The stream once follow has read the connection, and before the final drain if
      there is one. */
  function BeforeDrain(cfg: StreamConfig, p: Progress, a: Attempt): Progress
    requires a.Followed?
  {
    ReportedAgain(cfg, p.(failingSince := None), a.conn)
  }

  predicate Drains(cfg: StreamConfig, p: Progress, a: Attempt)
    requires a.Followed?
  {
    a.terminal && FollowEnding(cfg, p, a) != Clean && a.drain.Some?
  }

  function FollowedTo(cfg: StreamConfig, p: Progress, a: Attempt): Progress
    requires a.Followed?
  {
    var q := BeforeDrain(cfg, p, a);
    if Drains(cfg, p, a) then Consumed(cfg, q, a.drain.value) else q
  }

  function RetriedAfter(cfg: StreamConfig, p: Progress, a: Attempt): Progress
    requires a.ConnectFailed?
  {
    var since := if p.failingSince.Some? then p.failingSince.value else a.now;
    var q := p.(failingSince := Some(since));
    if cfg.maxElapsed > 0 && a.checked - since > cfg.maxElapsed then q.(end := GaveUp)
    else if a.interrupted then q.(end := Cancelled)
    else q.(backoff := NextBackoff(p.backoff, cfg.max))
  }

  /** One turn of run's loop. */
  function Turn(cfg: StreamConfig, p: Progress, a: Attempt): Progress {
    if p.end != AtHead then p
    else if a.ConnectFailed? then
      if a.recycled then p else RetriedAfter(cfg, p, a)
    else
      var q := FollowedTo(cfg, p, a);
      var backoff := if q.resume.After(p.resume) then cfg.initial as int
                     else if a.recycled then p.backoff
                     else NextBackoff(p.backoff, cfg.max);
      q.(backoff := backoff,
         end := if a.terminal then Terminated
                else if a.recycled || !a.interrupted then AtHead
                else Cancelled)
  }

  /** A whole run, over a world that cancels the stream when the script ends. */
  function Turns(cfg: StreamConfig, p: Progress, script: seq<Attempt>): Progress {
    if script == [] then p
    else Turn(cfg, Turns(cfg, p, script[..|script| - 1]), script[|script| - 1])
  }

  lemma {:induction false} EndedStays(cfg: StreamConfig, p: Progress, script: seq<Attempt>, n: nat)
    requires n <= |script| && Turns(cfg, p, script[..n]).end != AtHead
    ensures Turns(cfg, p, script) == Turns(cfg, p, script[..n])
    decreases |script|
  {
    if n == |script| {
      assert script[..n] == script;
    } else {
      var front := script[..|script| - 1];
      assert front[..n] == script[..n];
      EndedStays(cfg, p, front, n);
    }
  }

  class ContainerStream {
    const cfg: StreamConfig
    var resume: Cursor
    var backoff: int
    var failingSince: Option<nat>
    var batches: seq<seq<Record>>
    var reports: seq<Cursor>
    var leaked: multiset<Record>
    var end: End

    constructor (cfg: StreamConfig, resume: Cursor)
      ensures this.cfg == cfg && State() == Started(cfg, resume)
    {
      this.cfg := cfg;
      this.resume := resume;
      backoff := cfg.initial;
      failingSince := None;
      batches := [];
      reports := [];
      leaked := multiset{};
      end := AtHead;
    }

    ghost function State(): Progress
      reads this
    {
      Progress(resume, backoff, failingSince, batches, reports, leaked, end)
    }

    method Consume(conn: Connection) returns (last: Cursor, ending: Ending)
      modifies this
      ensures State() == Consumed(cfg, old(State()), conn).(resume := old(resume))
      ensures last == Finished(cfg.conn, old(resume), conn).delivered
      ensures ending == EndingOf(Finished(cfg.conn, old(resume), conn), conn)
    {
      var left, how := StreamConnection(cfg.conn, resume, conn);
      batches := batches + left.batches;
      reports := reports + left.reports;
      leaked := leaked + left.leaked;
      last := left.delivered;
      ending := how;
    }

    method DrainTerminalLogs(drain: Option<Connection>)
      modifies this
      ensures State() == if drain.Some? then Consumed(cfg, old(State()), drain.value) else old(State())
    {
      if drain.None? {
        return;
      }
      var last, _ := Consume(drain.value);
      if !last.IsZero() {
        resume := last;
      }
    }

    method Follow(a: Attempt) returns (keepGoing: bool)
      requires a.Followed?
      modifies this
      ensures State() == FollowedTo(cfg, old(State()), a)
      ensures keepGoing == !a.terminal
    {
      failingSince := None;
      var last, ending := Consume(a.conn);
      if !last.IsZero() {
        resume := last;
        reports := reports + [last];
      }
      if !a.terminal {
        return true;
      }
      if ending != Clean {
        DrainTerminalLogs(a.drain);
      }
      keepGoing := false;
    }

    method RetryAfterConnectError(a: Attempt) returns (again: bool)
      requires a.ConnectFailed? && end == AtHead
      modifies this
      ensures State() == RetriedAfter(cfg, old(State()), a)
      ensures again == (end == AtHead)
    {
      if failingSince.None? {
        failingSince := Some(a.now);
      }
      if cfg.maxElapsed > 0 && a.checked - failingSince.value > cfg.maxElapsed {
        end := GaveUp;
        return false;
      }
      if a.interrupted {
        end := Cancelled;
        return false;
      }
      backoff := NextBackoff(backoff, cfg.max);
      again := true;
    }

    method OneTurn(a: Attempt)
      requires end == AtHead
      modifies this
      ensures State() == Turn(cfg, old(State()), a)
    {
      if a.ConnectFailed? {
        if !a.recycled {
          var _ := RetryAfterConnectError(a);
        }
        return;
      }
      var before := resume;
      var keepGoing := Follow(a);
      if resume.After(before) {
        backoff := cfg.initial;
      } else if !a.recycled {
        backoff := NextBackoff(backoff, cfg.max);
      }
      if !keepGoing {
        end := Terminated;
      } else if !a.recycled && a.interrupted {
        end := Cancelled;
      }
    }

    method Run(script: seq<Attempt>)
      requires State() == Started(cfg, resume)
      modifies this
      ensures State() == Turns(cfg, Started(cfg, old(resume)), script)
    {
      backoff := cfg.initial;
      var i := 0;
      while i < |script|
        invariant 0 <= i <= |script| && end == AtHead
        invariant State() == Turns(cfg, Started(cfg, old(resume)), script[..i])
      {
        assert script[..i + 1][..i] == script[..i];
        OneTurn(script[i]);
        i := i + 1;
        if end != AtHead {
          EndedStays(cfg, Started(cfg, old(resume)), script, i);
          return;
        }
      }
      assert script[..i] == script;
    }
  }
}
