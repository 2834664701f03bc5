/** The receiver as a concurrent system: pod events, running and cancelled streams,
    pruning, periodic persistence and crashes, one critical section at a time, in
    any order. */
module Systems {
  import opened Records
  import opened Cursors
  import opened Retries
  import opened Connections
  import opened Streams
  import opened Stores
  import opened Receivers

  /** The log of every container, by key, and how much of it is asked for at first. */
  datatype World = World(logs: string -> seq<Record>, cfg: Config, since: Option<nat>)

  /** An open connection, and the index of the record the kubelet serves next. */
  datatype Link = Link(conn: ConnState, next: nat)

  /** A stream from the moment it is registered until it releases its entry. last is
      the cursor it has most recently been handed back, ZERO if none. base is where
      delivery up to these cursors counts from. */
  datatype Stream = Stream(key: string, seeded: bool, resume: Cursor, last: Cursor, link: Option<Link>, base: nat)

  /** An account the receiver itself does not keep: for each cursor in memory, being
      written and on disk, the start of the read its delivery counts from; and for
      each key, every start of a read that was opened without a cursor. */
  datatype Account = Account(live: map<string, nat>, writing: map<string, nat>, disk: map<string, nat>,
                             begun: map<string, set<nat>>)

  /** expiring: pruned keys the receiver has not cleared yet. writing: a snapshot
      not written yet. handed: for each key, all the pipeline has ever
      taken or rejected for good. */
  datatype System = System(
    books: Books,
    cursors: Positions,
    lastSeen: map<string, nat>,
    streams: map<nat, Stream>,
    expiring: set<string>,
    writing: Option<map<string, Wire>>,
    disk: map<string, Wire>,
    handed: map<string, multiset<Record>>,
    account: Account)

  datatype Action =
    | Sync(key: string)
    | Mark(terminal: set<string>, restarts: map<string, int>)
    | Delete(keys: set<string>, inferred: bool)
    | Seed(gen: nat)
    | Connect(gen: nat, now: nat, kubeletNow: nat, drain: bool)
    | Read(gen: nat, event: Event)
    | Close(gen: nat, rounds: seq<Round>)
    | Report(gen: nat)
    | Release(gen: nat)
    | Sight(pod: string, now: nat)
    | Expire(cutoff: nat)
    | Clear
    | Snapshot
    | Write(failed: bool)
    | CancelAll
    | Crash

  function HandedOf(handed: map<string, multiset<Record>>, key: string): multiset<Record> {
    if key in handed then handed[key] else multiset{}
  }

  function BaseOf(bases: map<string, nat>, key: string): nat {
    if key in bases then bases[key] else 0
  }

  function BegunOf(begun: map<string, set<nat>>, key: string): set<nat> {
    if key in begun then begun[key] else {}
  }

  function PointOf(w: World, st: Stream, now: nat, drain: bool): StartPoint {
    if drain then DrainStartPoint(st.resume.ts) else StreamStartPoint(st.resume.ts, w.since, now)
  }

  /** What the pipeline took or rejected for good between two states of a connection. */
  function NewlyHanded(before: ConnState, after: ConnState): multiset<Record>
    requires |before.batches| <= |after.batches|
  {
    multiset(Flat(after.batches[|before.batches|..])) + (after.leaked - before.leaked)
  }

  /** The stream once its connection has moved to conn. */
  function Moved(st: Stream, conn: ConnState, next: nat): Stream {
    st.(last := if conn.delivered.IsZero() then st.last else conn.delivered, link := Some(Link(conn, next)))
  }

  function Ended(w: World, conn: ConnState, rounds: seq<Round>): ConnState {
    if conn.refused then conn else Flush(w.cfg, conn, rounds)
  }

  predicate Enabled(w: World, s: System, a: Action) {
    match a
    case Seed(g) => g in s.streams && !s.streams[g].seeded
    case Connect(g, _, _, _) => g in s.streams && s.streams[g].seeded && s.streams[g].link.None?
    case Read(g, event) =>
      && g in s.streams && s.streams[g].link.Some?
      && !s.streams[g].link.value.conn.refused
      && (event.Arrive? ==>
            var next := s.streams[g].link.value.next;
            next < |w.logs(s.streams[g].key)| && event.record == w.logs(s.streams[g].key)[next])
    case Close(g, _) => g in s.streams && s.streams[g].link.Some?
    case Report(g) => g in s.streams
    case Release(g) => g in s.streams && s.streams[g].link.None?
    case Expire(_) => s.expiring == {}
    case Snapshot => s.writing.None?
    case Write(_) => s.writing.Some?
    case _ => true
  }

  /** The receiver as it starts over whatever an earlier process left on disk. */
  function Booted(disk: map<string, Wire>, handed: map<string, multiset<Record>>,
                  bases: map<string, nat>, begun: map<string, set<nat>>): System {
    System(NO_BOOKS, Decoded(disk), map[], map[], {}, None, disk, handed, Account(bases, map[], bases, begun))
  }

  /** A connect opens a read; without a cursor, delivery counts from its start. */
  function Connected(s: System, g: nat, start: nat): System
    requires g in s.streams
  {
    var st := s.streams[g];
    var anew := st.resume.IsZero();
    var begun := s.account.begun[st.key := BegunOf(s.account.begun, st.key) + {start}];
    s.(streams := s.streams[g := st.(link := Some(Link(Opened(st.resume), start)), base := if anew then start else st.base)],
       account := if anew then s.account.(begun := begun) else s.account)
  }

  function Reported(s: System, g: nat): System
    requires g in s.streams
  {
    var st := s.streams[g];
    var cursors := FencedAdvance(s.books, s.cursors, st.key, g, st.last);
    if cursors == s.cursors then s
    else s.(cursors := cursors, account := s.account.(live := s.account.live[st.key := st.base]))
  }

  function Handing(s: System, key: string, more: multiset<Record>): map<string, multiset<Record>> {
    s.handed[key := HandedOf(s.handed, key) + more]
  }

  function Next(w: World, s: System, a: Action): System
    requires Enabled(w, s, a)
  {
    match a
    case Sync(key) =>
      if Opens(s.books, key) then
        s.(books := Ensured(s.books, key),
           streams := s.streams[s.books.lastGen + 1 := Stream(key, false, ZERO, ZERO, None, 0)])
      else s
    case Mark(terminal, restarts) => s.(books := Marked(s.books, terminal, restarts))
    case Delete(keys, inferred) =>
      s.(books := Deleted(s.books, keys), cursors := if inferred then s.cursors else s.cursors - keys)
    case Seed(g) =>
      var st := s.streams[g];
      s.(streams := s.streams[g := st.(seeded := true, resume := Get(s.cursors, st.key), base := BaseOf(s.account.live, st.key))])
    case Connect(g, now, kubeletNow, drain) =>
      var st := s.streams[g];
      Connected(s, g, KubeletStart(w.logs(st.key), PointOf(w, st, now, drain), kubeletNow))
    case Read(g, event) =>
      var st := s.streams[g];
      var conn := Step(w.cfg, st.link.value.conn, event);
      StepGrows(w.cfg, st.link.value.conn, event);
      s.(streams := s.streams[g := Moved(st, conn, st.link.value.next + (if event.Arrive? then 1 else 0))],
         handed := Handing(s, st.key, NewlyHanded(st.link.value.conn, conn)))
    case Close(g, rounds) =>
      var st := s.streams[g];
      var conn := Ended(w, st.link.value.conn, rounds);
      FlushGrows(w.cfg, st.link.value.conn, rounds);
      var out := Moved(st, conn, st.link.value.next);
      s.(streams := s.streams[g := out.(resume := if conn.delivered.IsZero() then st.resume else conn.delivered, link := None)],
         handed := Handing(s, st.key, NewlyHanded(st.link.value.conn, conn)))
    case Report(g) => Reported(s, g)
    case Release(g) =>
      s.(books := Released(s.books, s.streams[g].key, g), streams := s.streams - {g})
    case Sight(pod, now) => s.(lastSeen := s.lastSeen[pod := now])
    case Expire(cutoff) =>
      var stale := Stale(s.lastSeen, cutoff);
      var gone := KeysOf(s.cursors, stale);
      s.(cursors := s.cursors - gone, lastSeen := s.lastSeen - stale, expiring := gone)
    case Clear => s.(books := Cleared(s.books, s.expiring), expiring := {})
    case Snapshot =>
      s.(writing := Some(Encoded(s.cursors)), account := s.account.(writing := s.account.live))
    case Write(failed) =>
      if failed then s.(writing := None)
      else s.(disk := s.writing.value, writing := None, account := s.account.(disk := s.account.writing))
    case CancelAll => s.(books := s.books.(cancelled := s.books.cancelled + set g | g in s.streams))
    case Crash => Booted(s.disk, s.handed, s.account.disk, s.account.begun)
  }

  lemma FlushGrows(cfg: Config, st: ConnState, rounds: seq<Round>)
    ensures st.batches <= Flush(cfg, st, rounds).batches
  {
  }

  lemma StepGrows(cfg: Config, st: ConnState, event: Event)
    ensures st.batches <= Step(cfg, st, event).batches
  {
  }

  // ---------------------------------------------------------------------
  // Ownership
  // ---------------------------------------------------------------------

  /** Generations are unique; an entry names a running stream of its key; a stream
      that is not cancelled is the one its key's entry names. */
  ghost predicate Ownership(s: System) {
    && (forall g :: g in s.streams ==> g <= s.books.lastGen)
    && (forall g :: g in s.books.cancelled ==> g <= s.books.lastGen)
    && (forall k :: k in s.books.active ==> s.books.active[k] in s.streams && s.streams[s.books.active[k]].key == k)
    && (forall g :: g in s.streams && g !in s.books.cancelled ==> Owns(s.books, s.streams[g].key, g))
  }

  /** Drained containers are terminal and have no stream. */
  ghost predicate DrainedClosed(b: Books) {
    && b.drained <= b.terminated
    && (forall k :: k in b.drained ==> k !in b.active)
  }

  /** What every reachable state keeps of generations, entries and containers. */
  ghost predicate Orderly(s: System) {
    Ownership(s) && DrainedClosed(s.books)
  }

  /** A step that only changes how far a stream has got changes no ownership. */
  lemma OwnershipKept(s: System, t: System)
    requires Ownership(s) && t.books == s.books && t.streams.Keys == s.streams.Keys
    requires forall g :: g in s.streams ==> t.streams[g].key == s.streams[g].key
    ensures Ownership(t)
  {
  }

  lemma OwnershipSync(w: World, s: System, key: string)
    requires Orderly(s)
    ensures Orderly(Next(w, s, Sync(key)))
  {
    if Opens(s.books, key) {
      OwnershipOpened(s, Next(w, s, Sync(key)), key);
    }
  }

  lemma OwnershipOpened(s: System, t: System, key: string)
    requires Orderly(s) && Opens(s.books, key) && t.books == Ensured(s.books, key)
    requires t.streams == s.streams[s.books.lastGen + 1 := Stream(key, false, ZERO, ZERO, None, 0)]
    ensures Orderly(t)
  {
  }

  lemma OwnershipDelete(w: World, s: System, keys: set<string>, inferred: bool)
    requires Orderly(s)
    ensures Orderly(Next(w, s, Delete(keys, inferred)))
  {
  }

  lemma OwnershipRelease(w: World, s: System, g: nat)
    requires Orderly(s) && Enabled(w, s, Release(g))
    ensures Orderly(Next(w, s, Release(g)))
  {
  }

  lemma OwnershipStep(w: World, s: System, a: Action)
    requires Orderly(s) && Enabled(w, s, a)
    ensures Orderly(Next(w, s, a))
  {
    if a.Sync? {
      OwnershipSync(w, s, a.key);
    } else if a.Delete? {
      OwnershipDelete(w, s, a.keys, a.inferred);
    } else if a.Release? {
      OwnershipRelease(w, s, a.gen);
    } else if a.Mark? || a.Clear? || a.CancelAll? || a.Crash? {
      OwnershipMarks(w, s, a);
    } else if a.Seed? || a.Connect? || a.Read? || a.Close? {
      OwnershipAdvances(w, s, a);
    } else {
      OwnershipMoves(w, s, a);
    }
  }

  lemma OwnershipMoves(w: World, s: System, a: Action)
    requires Orderly(s) && Enabled(w, s, a)
    requires a.Report? || a.Sight? || a.Expire? || a.Snapshot? || a.Write?
    ensures Orderly(Next(w, s, a))
  {
    assert Next(w, s, a).books == s.books && Next(w, s, a).streams == s.streams;
  }

  lemma OwnershipAdvances(w: World, s: System, a: Action)
    requires Orderly(s) && Enabled(w, s, a) && (a.Seed? || a.Connect? || a.Read? || a.Close?)
    ensures Orderly(Next(w, s, a))
  {
    OneStreamAdvances(w, s, a);
    OwnershipKept(s, Next(w, s, a));
  }

  lemma OneStreamAdvances(w: World, s: System, a: Action)
    requires Enabled(w, s, a) && (a.Seed? || a.Connect? || a.Read? || a.Close?)
    ensures var t := Next(w, s, a);
            && t.books == s.books && t.streams.Keys == s.streams.Keys
            && forall g :: g in s.streams ==> t.streams[g].key == s.streams[g].key
  {
    match a
    case Seed(g) => SeedAdvances(w, s, g);
    case Connect(g, _, _, _) => ConnectAdvances(w, s, a);
    case Read(g, event) => ReadAdvances(w, s, g, event);
    case Close(g, rounds) => CloseAdvances(w, s, g, rounds);
  }

  /** One stream has moved, and nothing of what the streams share. */
  ghost predicate Advances(s: System, t: System, g: nat) {
    && t.books == s.books && g in s.streams && g in t.streams
    && t.streams == s.streams[g := t.streams[g]] && t.streams[g].key == s.streams[g].key
    && t.cursors == s.cursors && t.lastSeen == s.lastSeen && t.expiring == s.expiring
    && t.disk == s.disk && t.writing == s.writing
  }

  lemma SeedAdvances(w: World, s: System, g: nat)
    requires Enabled(w, s, Seed(g))
    ensures Advances(s, Next(w, s, Seed(g)), g)
  {
  }

  lemma ConnectAdvances(w: World, s: System, a: Action)
    requires a.Connect? && Enabled(w, s, a)
    ensures Advances(s, Next(w, s, a), a.gen)
  {
    var st := s.streams[a.gen];
    ConnectedAdvances(s, a.gen, KubeletStart(w.logs(st.key), PointOf(w, st, a.now, a.drain), a.kubeletNow));
  }

  lemma ConnectedAdvances(s: System, g: nat, start: nat)
    requires g in s.streams
    ensures Advances(s, Connected(s, g, start), g)
  {
  }

  lemma ReadAdvances(w: World, s: System, g: nat, event: Event)
    requires Enabled(w, s, Read(g, event))
    ensures Advances(s, Next(w, s, Read(g, event)), g)
  {
  }

  lemma CloseAdvances(w: World, s: System, g: nat, rounds: seq<Round>)
    requires Enabled(w, s, Close(g, rounds))
    ensures Advances(s, Next(w, s, Close(g, rounds)), g)
  {
  }

  lemma OwnershipMarks(w: World, s: System, a: Action)
    requires Orderly(s) && Enabled(w, s, a)
    requires a.Mark? || a.Clear? || a.CancelAll? || a.Crash?
    ensures Orderly(Next(w, s, a))
  {
  }

  /** So no key ever has two streams that are not cancelled. */
  lemma OneLiveStreamPerKey(s: System, g: nat, h: nat)
    requires Ownership(s) && g in s.streams && h in s.streams
    requires g !in s.books.cancelled && h !in s.books.cancelled && s.streams[g].key == s.streams[h].key
    ensures g == h
  {
  }
}
