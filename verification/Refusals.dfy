/** When a connection ends refused, said in terms of what happened to it: which
    flushes had something to send, and how the pipeline answered those. */
module Refusals {
  import opened Records
  import opened Cursors
  import opened Filters
  import opened Retries
  import opened Connections
  import opened Readings

  /** The filter forwards a record that comes after these arrivals. */
  predicate Forwards(resume: Cursor, arrived: seq<Record>, record: Record) {
    FilterAfter(NewFilter(resume), arrived).Keeps(record.ts)
  }

  /** How many records wait to be sent after these events, if none was refused. */
  function Waiting(cfg: Config, resume: Cursor, events: seq<Event>): nat {
    if events == [] then 0
    else
      var front, e := events[..|events| - 1], events[|events| - 1];
      if e.Tick? then 0
      else
        var n := Waiting(cfg, resume, front) + (if Forwards(resume, Arrivals(front), e.record) then 1 else 0);
        if Forwards(resume, Arrivals(front), e.record) && n >= cfg.maxBatch then 0 else n
  }

  /** Whether an event that comes after these has a batch sent: a tick when something
      waits, or the arrival that fills the batch. */
  predicate Sends(cfg: Config, resume: Cursor, before: seq<Event>, e: Event) {
    match e
    case Tick(_) => Waiting(cfg, resume, before) > 0
    case Arrive(record, _) =>
      Forwards(resume, Arrivals(before), record) && Waiting(cfg, resume, before) + 1 >= cfg.maxBatch
  }

  ghost predicate RefusesAt(cfg: Config, resume: Cursor, events: seq<Event>, i: nat)
    requires i < |events|
  {
    Sends(cfg, resume, events[..i], events[i]) && !DealsWith(cfg.retry, events[i].rounds)
  }

  ghost predicate RefusesOne(cfg: Config, resume: Cursor, events: seq<Event>) {
    exists i :: 0 <= i < |events| && RefusesAt(cfg, resume, events, i)
  }

  /** Some batch of the connection is sent and not dealt with. */
  ghost predicate Refuses(cfg: Config, resume: Cursor, conn: Connection) {
    || RefusesOne(cfg, resume, conn.events)
    || (Waiting(cfg, resume, conn.events) > 0 && !DealsWith(cfg.retry, conn.last))
  }

  lemma RefusesSnoc(cfg: Config, resume: Cursor, events: seq<Event>, e: Event)
    ensures RefusesOne(cfg, resume, events + [e])
       <==> RefusesOne(cfg, resume, events)
            || (Sends(cfg, resume, events, e) && !DealsWith(cfg.retry, e.rounds))
  {
    var all := events + [e];
    assert all[..|events|] == events;
    assert forall i :: 0 <= i < |events| ==> all[..i] == events[..i];
    assert forall i :: 0 <= i < |events| ==> (RefusesAt(cfg, resume, all, i) <==> RefusesAt(cfg, resume, events, i));
    assert RefusesAt(cfg, resume, all, |events|) <==> Sends(cfg, resume, events, e) && !DealsWith(cfg.retry, e.rounds);
  }

  /** The state of a connection that has not been refused, as far as it decides what
      is sent next. */
  ghost predicate Expects(cfg: Config, resume: Cursor, events: seq<Event>, st: ConnState) {
    && !st.refused
    && |st.batch| == Waiting(cfg, resume, events)
    && st.filter == FilterAfter(NewFilter(resume), Arrivals(events))
  }

  lemma StepRefusedWhen(cfg: Config, resume: Cursor, events: seq<Event>, st: ConnState, e: Event)
    requires Expects(cfg, resume, events, st)
    ensures Step(cfg, st, e).refused <==> Sends(cfg, resume, events, e) && !DealsWith(cfg.retry, e.rounds)
    ensures !Step(cfg, st, e).refused ==> Expects(cfg, resume, events + [e], Step(cfg, st, e))
  {
    match e
    case Tick(rounds) => TickRefusedWhen(cfg, resume, events, st, rounds);
    case Arrive(record, rounds) => ArriveRefusedWhen(cfg, resume, events, st, record, rounds);
  }

  lemma FlushRefusedWhen(cfg: Config, st: ConnState, rounds: seq<Round>)
    requires !st.refused
    ensures Flush(cfg, st, rounds).refused <==> st.batch != [] && !DealsWith(cfg.retry, rounds)
    ensures Flush(cfg, st, rounds).batch == [] && Flush(cfg, st, rounds).filter == st.filter
  {
    RefusedWhen(cfg.retry, st.batch, rounds);
  }

  lemma TickRefusedWhen(cfg: Config, resume: Cursor, events: seq<Event>, st: ConnState, rounds: seq<Round>)
    requires Expects(cfg, resume, events, st)
    ensures var e := Tick(rounds);
            && (Step(cfg, st, e).refused <==> Sends(cfg, resume, events, e) && !DealsWith(cfg.retry, rounds))
            && (!Step(cfg, st, e).refused ==> Expects(cfg, resume, events + [e], Step(cfg, st, e)))
  {
    FlushRefusedWhen(cfg, st, rounds);
    assert (events + [Tick(rounds)])[..|events|] == events;
    assert Arrivals(events + [Tick(rounds)]) == Arrivals(events);
  }

  lemma ArriveRefusedWhen(cfg: Config, resume: Cursor, events: seq<Event>, st: ConnState, record: Record, rounds: seq<Round>)
    requires Expects(cfg, resume, events, st)
    ensures var e := Arrive(record, rounds);
            && (Step(cfg, st, e).refused <==> Sends(cfg, resume, events, e) && !DealsWith(cfg.retry, rounds))
            && (!Step(cfg, st, e).refused ==> Expects(cfg, resume, events + [e], Step(cfg, st, e)))
  {
    var e := Arrive(record, rounds);
    var seen := st.(filter := st.filter.Seen(record.ts));
    ArrivalExpected(cfg, resume, events, record, rounds);
    if st.filter.Keeps(record.ts) {
      var appended := Append(seen, record);
      FlushRefusedWhen(cfg, appended, rounds);
      assert Step(cfg, st, e) == if |appended.batch| >= cfg.maxBatch then Flush(cfg, appended, rounds) else appended;
    } else {
      assert Step(cfg, st, e) == seen;
    }
  }

  lemma ArrivalExpected(cfg: Config, resume: Cursor, events: seq<Event>, record: Record, rounds: seq<Round>)
    ensures var all, kept := events + [Arrive(record, rounds)], Forwards(resume, Arrivals(events), record);
            && FilterAfter(NewFilter(resume), Arrivals(all))
               == FilterAfter(NewFilter(resume), Arrivals(events)).Seen(record.ts)
            && Waiting(cfg, resume, all)
               == (if !kept then Waiting(cfg, resume, events)
                   else if Waiting(cfg, resume, events) + 1 >= cfg.maxBatch then 0
                   else Waiting(cfg, resume, events) + 1)
  {
    var all := events + [Arrive(record, rounds)];
    assert all[..|events|] == events;
    assert Arrivals(all) == Arrivals(events) + [record];
    KeptSnoc(NewFilter(resume), Arrivals(events), record);
  }

  lemma {:induction false} StepsRefusedWhen(cfg: Config, resume: Cursor, events: seq<Event>)
    ensures Steps(cfg, Opened(resume), events).refused <==> RefusesOne(cfg, resume, events)
    ensures !Steps(cfg, Opened(resume), events).refused ==> Expects(cfg, resume, events, Steps(cfg, Opened(resume), events))
    decreases |events|
  {
    if events != [] {
      var front, e := events[..|events| - 1], events[|events| - 1];
      assert front + [e] == events;
      StepsRefusedWhen(cfg, resume, front);
      RefusesSnoc(cfg, resume, front, e);
      if !Steps(cfg, Opened(resume), front).refused {
        StepRefusedWhen(cfg, resume, front, Steps(cfg, Opened(resume), front), e);
      }
    }
  }

  /** A connection ends refused exactly when one of the batches it sent was not
      dealt with. */
  lemma ConnectionRefusedWhen(cfg: Config, resume: Cursor, conn: Connection)
    ensures Finished(cfg, resume, conn).refused <==> Refuses(cfg, resume, conn)
  {
    StepsRefusedWhen(cfg, resume, conn.events);
    var st := Steps(cfg, Opened(resume), conn.events);
    if !st.refused {
      RefusedWhen(cfg.retry, st.batch, conn.last);
    }
  }

  /** How a connection ends, from what happened to it: refused if a batch was not dealt
      with, broken if the read failed, clean otherwise. */
  lemma EndingWhen(cfg: Config, resume: Cursor, conn: Connection)
    ensures var ending := EndingOf(Finished(cfg, resume, conn), conn);
            && (ending == PipelineRefused <==> Refuses(cfg, resume, conn))
            && (ending == Broken <==> conn.broken && !Refuses(cfg, resume, conn))
            && (ending == Clean <==> !conn.broken && !Refuses(cfg, resume, conn))
  {
    ConnectionRefusedWhen(cfg, resume, conn);
  }
}
