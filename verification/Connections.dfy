/** receiver.go: reading one open connection (streamConnection, consumeBatch). */
module Connections {
  import opened Records
  import opened Cursors
  import opened Filters
  import opened Retries

  datatype Config = Config(maxBatch: nat, retry: bool)

  datatype Outcome = Delivered | Refused | Dropped

  function OutcomeOf(answer: Answer): Outcome {
    match answer
    case Nil => Delivered
    case PermanentError => Dropped
    case TransientError => Refused
  }

  method ConsumeBatch(cfg: Config, batch: seq<Record>, rounds: seq<Round>) returns (outcome: Outcome, taken: multiset<Record>)
    ensures outcome == OutcomeOf(Consume(cfg.retry, batch, rounds).answer)
    ensures taken == Consume(cfg.retry, batch, rounds).accepted
  {
    var verdict, _ := ConsumeLogs(cfg.retry, batch, rounds);
    if verdict.answer.Nil? {
      return Delivered, verdict.accepted;
    }
    if verdict.answer.PermanentError? {
      return Dropped, verdict.accepted;
    }
    return Refused, verdict.accepted;
  }

  /** What can happen while a connection is open: a line arrives, or the flush
      ticker fires. Either may flush, and then the pipeline answers with rounds. */
  datatype Event = Arrive(record: Record, rounds: seq<Round>) | Tick(rounds: seq<Round>)

  /** One connection from open to end: its events, the pipeline's answers to the
      final flush, and whether the read ended in an error. */
  datatype Connection = Connection(events: seq<Event>, last: seq<Round>, broken: bool)

  datatype Ending = Clean | Broken | PipelineRefused

  /** The records the kubelet served over these events. */
  function Arrivals(events: seq<Event>): seq<Record> {
    if events == [] then []
    else
      var e := events[|events| - 1];
      Arrivals(events[..|events| - 1]) + (if e.Arrive? then [e.record] else [])
  }

  /** streamConnection's variables, with what it has handed on: the batches the
      pipeline took or dropped for good, the cursors reported, and the records
      the pipeline took out of a batch it then refused. */
  datatype ConnState = ConnState(
    filter: FilterState,
    pending: Cursor,
    advanced: bool,
    batch: seq<Record>,
    delivered: Cursor,
    batches: seq<seq<Record>>,
    reports: seq<Cursor>,
    leaked: multiset<Record>,
    refused: bool)

  function Opened(resume: Cursor): ConnState {
    ConnState(NewFilter(resume), resume, false, [], ZERO, [], [], multiset{}, false)
  }

  function Flush(cfg: Config, st: ConnState, rounds: seq<Round>): ConnState {
    if st.batch == [] then st
    else
      var v := Consume(cfg.retry, st.batch, rounds);
      if OutcomeOf(v.answer) == Refused then
        st.(batch := [], advanced := false, leaked := st.leaked + v.accepted, refused := true)
      else if st.advanced then
        st.(batch := [], advanced := false, batches := st.batches + [st.batch],
            delivered := st.pending, reports := st.reports + [st.pending])
      else
        st.(batch := [], advanced := false, batches := st.batches + [st.batch])
  }

  function Append(st: ConnState, record: Record): ConnState {
    st.(batch := st.batch + [record],
        pending := st.pending.Recorded(record.ts),
        advanced := st.advanced || st.pending.Moves(record.ts))
  }

  function Step(cfg: Config, st: ConnState, event: Event): ConnState {
    if st.refused then st
    else
      match event
      case Tick(rounds) => Flush(cfg, st, rounds)
      case Arrive(record, rounds) =>
        var seen := st.(filter := st.filter.Seen(record.ts));
        if !st.filter.Keeps(record.ts) then seen
        else
          var appended := Append(seen, record);
          if |appended.batch| >= cfg.maxBatch then Flush(cfg, appended, rounds) else appended
  }

  function Steps(cfg: Config, st: ConnState, events: seq<Event>): ConnState {
    if events == [] then st
    else Step(cfg, Steps(cfg, st, events[..|events| - 1]), events[|events| - 1])
  }

  /** The connection as it is left: all events, then the flush at the end of the stream. */
  function Finished(cfg: Config, resume: Cursor, conn: Connection): ConnState {
    var st := Steps(cfg, Opened(resume), conn.events);
    if st.refused then st else Flush(cfg, st, conn.last)
  }

  function EndingOf(st: ConnState, conn: Connection): Ending {
    if st.refused then PipelineRefused else if conn.broken then Broken else Clean
  }

  lemma {:induction false} RefusedStays(cfg: Config, st: ConnState, events: seq<Event>, n: nat)
    requires n <= |events| && Steps(cfg, st, events[..n]).refused
    ensures Steps(cfg, st, events) == Steps(cfg, st, events[..n])
    decreases |events|
  {
    if n == |events| {
      assert events[..n] == events;
    } else {
      var front := events[..|events| - 1];
      assert front[..n] == events[..n];
      RefusedStays(cfg, st, front, n);
    }
  }

  lemma OneMoreStep(cfg: Config, st: ConnState, events: seq<Event>, i: nat)
    requires i < |events|
    ensures Steps(cfg, st, events[..i + 1]) == Step(cfg, Steps(cfg, st, events[..i]), events[i])
  {
    assert events[..i + 1][..i] == events[..i];
  }

  /** The variables streamConnection's closures share. The calls to onProgress
      are the growing list of reports. */
  class Reader {
    const cfg: Config
    const filter: Filter
    const pending: CursorCell
    var advanced: bool
    var batch: seq<Record>
    var delivered: Cursor
    var batches: seq<seq<Record>>
    var reports: seq<Cursor>
    var leaked: multiset<Record>
    var refused: bool

    constructor (cfg: Config, resume: Cursor)
      ensures State() == Opened(resume) && this.cfg == cfg
      ensures fresh(filter) && fresh(pending)
    {
      this.cfg := cfg;
      filter := new Filter(resume);
      pending := new CursorCell(resume);
      advanced := false;
      batch := [];
      delivered := ZERO;
      batches := [];
      reports := [];
      leaked := multiset{};
      refused := false;
    }

    ghost function State(): ConnState
      reads this, filter, pending
    {
      ConnState(filter.State(), pending.value, advanced, batch, delivered, batches, reports, leaked, refused)
    }

    method FlushBatch(rounds: seq<Round>) returns (ok: bool)
      requires !refused
      modifies this
      ensures State() == Flush(cfg, old(State()), rounds)
      ensures ok == !refused
    {
      if |batch| == 0 {
        return true;
      }
      var outcome, taken := ConsumeBatch(cfg, batch, rounds);
      if outcome != Refused {
        batches := batches + [batch];
        if advanced {
          delivered := pending.value;
          reports := reports + [delivered];
        }
      } else {
        leaked := leaked + taken;
        refused := true;
      }
      batch := [];
      advanced := false;
      ok := outcome != Refused;
    }

    method AppendLine(record: Record)
      modifies this, pending
      ensures State() == Append(old(State()), record)
    {
      batch := batch + [record];
      var moved := pending.Record(record.ts);
      if moved {
        advanced := true;
      }
    }

    method Handle(event: Event) returns (ok: bool)
      requires !refused
      modifies this, filter, pending
      ensures State() == Step(cfg, old(State()), event)
      ensures ok == !refused
    {
      match event {
        case Tick(rounds) =>
          ok := FlushBatch(rounds);
        case Arrive(record, rounds) =>
          var keep := filter.Keep(record.ts);
          if !keep {
            return true;
          }
          AppendLine(record);
          if |batch| >= cfg.maxBatch {
            ok := FlushBatch(rounds);
          } else {
            ok := true;
          }
      }
    }

    method Left() returns (st: ConnState)
      ensures st == State()
    {
      st := ConnState(FilterState(filter.ts, filter.skip, filter.done), pending.value,
                      advanced, batch, delivered, batches, reports, leaked, refused);
    }
  }

  /** Read one connection to its end, or until the pipeline refuses a batch. */
  method StreamConnection(cfg: Config, resume: Cursor, conn: Connection) returns (left: ConnState, ending: Ending)
    ensures left == Finished(cfg, resume, conn)
    ensures ending == EndingOf(left, conn)
  {
    var reader := new Reader(cfg, resume);
    var i := 0;
    while i < |conn.events|
      invariant 0 <= i <= |conn.events| && reader.cfg == cfg && !reader.refused
      invariant fresh(reader) && fresh(reader.filter) && fresh(reader.pending)
      invariant reader.State() == Steps(cfg, Opened(resume), conn.events[..i])
    {
      OneMoreStep(cfg, Opened(resume), conn.events, i);
      var ok := reader.Handle(conn.events[i]);
      i := i + 1;
      if !ok {
        RefusedStays(cfg, Opened(resume), conn.events, i);
        left := reader.Left();
        return left, PipelineRefused;
      }
    }
    assert conn.events[..i] == conn.events;
    var ok := reader.FlushBatch(conn.last);
    left := reader.Left();
    ending := if !ok then PipelineRefused else if conn.broken then Broken else Clean;
  }
}
