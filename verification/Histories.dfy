/** What holds along runs of the system: what a delete forgets, what a drained
    container stays, and which generation a stream gets. */
module Histories {
  import opened Cursors
  import opened Keys
  import opened Stores
  import opened Receivers
  import opened Systems
  import opened Safety

  ghost predicate Avoids(actions: seq<Action>, key: string) {
    forall i :: 0 <= i < |actions| ==> actions[i] != Sync(key) && !actions[i].Crash?
  }

  /** A container the receiver has forgotten: no cursor, no stream. */
  predicate Forgotten(s: System, key: string) {
    key !in s.cursors && key !in s.books.active
  }

  lemma ForgottenStep(w: World, s: System, a: Action, key: string)
    requires Forgotten(s, key) && Enabled(w, s, a) && a != Sync(key) && !a.Crash?
    ensures Forgotten(Next(w, s, a), key)
  {
  }

  /** The restart count of a forgotten container is there and not about to be cleared. */
  predicate CountStays(s: System, key: string) {
    key in s.books.restarts && key !in s.expiring
  }

  lemma CountStaysStep(w: World, s: System, a: Action, key: string)
    requires Forgotten(s, key) && Enabled(w, s, a) && !a.Crash?
    ensures CountStays(s, key) ==> CountStays(Next(w, s, a), key)
  {
  }

  lemma {:induction false} ForgottenStays(w: World, s: System, actions: seq<Action>, key: string)
    requires Forgotten(s, key) && Possible(w, s, actions) && Avoids(actions, key)
    ensures Forgotten(After(w, s, actions), key)
    ensures CountStays(s, key) ==> CountStays(After(w, s, actions), key)
    decreases |actions|
  {
    if actions != [] {
      var front := actions[..|actions| - 1];
      assert forall i :: 0 <= i < |front| ==> front[i] == actions[i];
      ForgottenStays(w, s, front, key);
      ForgottenStep(w, After(w, s, front), actions[|actions| - 1], key);
      CountStaysStep(w, After(w, s, front), actions[|actions| - 1], key);
    }
  }

  /** After a reported delete a container's cursor stays absent, whatever its stopped
      streams still flush or report, until a stream is started for the key again or
      the process starts over. Its restart count, though, stays for good: expiry
      goes by stored cursors, and there is none. */
  lemma ReportedDeleteForgets(w: World, s: System, keys: set<string>, key: string, actions: seq<Action>)
    requires key in keys && Possible(w, Next(w, s, Delete(keys, false)), actions) && Avoids(actions, key)
    ensures var t := After(w, Next(w, s, Delete(keys, false)), actions);
            && key !in t.cursors && key !in t.books.active
            && (CountStays(s, key) ==> key in t.books.restarts)
  {
    ForgottenStays(w, Next(w, s, Delete(keys, false)), actions, key);
  }

  /** A restart after a reported delete brings the cursor back exactly when what is on
      disk by then still holds it. It then stays, for as long as the key is not opened
      again and its pod is not seen; and if it has not come back, it does not later. */
  lemma DeletedComesBackWhen(w: World, s: System, keys: set<string>, key: string, actions: seq<Action>,
                             t: System, later: seq<Action>)
    requires key in keys && Possible(w, Next(w, s, Delete(keys, false)), actions) && Avoids(actions, key)
    requires t == After(w, Next(w, s, Delete(keys, false)), actions)
    requires Possible(w, Next(w, t, Crash), later) && Avoids(later, key) && NeverSeen(later, key)
    ensures key !in t.cursors
    ensures key in After(w, Next(w, t, Crash), later).cursors <==> key in t.disk
  {
    ReportedDeleteForgets(w, s, keys, key, actions);
    var u := Next(w, t, Crash);
    assert u == Booted(t.disk, t.handed, t.account.disk, t.account.begun);
    if key in t.disk {
      RestoredCursorNeverExpires(w, u, later, key);
    } else {
      ForgottenStays(w, u, later, key);
    }
  }

  /** Neither disk nor a snapshot being written holds the key. */
  predicate Unsaved(s: System, key: string) {
    key !in s.disk && (s.writing.Some? ==> key !in s.writing.value)
  }

  lemma UnsavedStep(w: World, s: System, a: Action, key: string)
    requires Forgotten(s, key) && Unsaved(s, key) && Enabled(w, s, a)
    ensures Unsaved(Next(w, s, a), key)
  {
    if !a.Snapshot? && !a.Write? && !a.Crash? {
      StorageUnmoved(w, s, a);
    }
  }

  lemma StorageUnmoved(w: World, s: System, a: Action)
    requires Enabled(w, s, a) && !a.Snapshot? && !a.Write? && !a.Crash?
    ensures Next(w, s, a).disk == s.disk && Next(w, s, a).writing == s.writing
  {
    if a.Seed? || a.Connect? || a.Read? || a.Close? {
      OwnStep(w, s, a, a.gen);
    }
  }

  lemma ForgottenByAnyStep(w: World, s: System, a: Action, key: string)
    requires Forgotten(s, key) && Unsaved(s, key) && Enabled(w, s, a) && a != Sync(key)
    ensures Forgotten(Next(w, s, a), key)
  {
    if !a.Crash? {
      ForgottenStep(w, s, a, key);
    }
  }

  /** Once a set without it has been written, no number of restarts brings a deleted
      cursor back; only opening the key again makes a new one. */
  lemma {:induction false} WrittenDeleteIsFinal(w: World, s: System, actions: seq<Action>, key: string)
    requires Forgotten(s, key) && Unsaved(s, key) && Possible(w, s, actions)
    requires forall i :: 0 <= i < |actions| ==> actions[i] != Sync(key)
    ensures Forgotten(After(w, s, actions), key) && Unsaved(After(w, s, actions), key)
    decreases |actions|
  {
    if actions != [] {
      var front := actions[..|actions| - 1];
      assert forall i :: 0 <= i < |front| ==> front[i] == actions[i];
      WrittenDeleteIsFinal(w, s, front, key);
      UnsavedStep(w, After(w, s, front), actions[|actions| - 1], key);
      ForgottenByAnyStep(w, After(w, s, front), actions[|actions| - 1], key);
    }
  }

  // ---------------------------------------------------------------------
  // Late streams
  // ---------------------------------------------------------------------

  /** A generation that has been started and whose entry is gone. */
  predicate Superseded(b: Books, g: nat) {
    g <= b.lastGen && forall k :: k in b.active ==> b.active[k] != g
  }

  /** The steps a running stream takes by itself. */
  predicate StepOf(a: Action, g: nat) {
    match a
    case Seed(h) => h == g
    case Connect(h, _, _, _) => h == g
    case Read(h, _) => h == g
    case Close(h, _) => h == g
    case Report(h) => h == g
    case Release(h) => h == g
    case _ => false
  }

  lemma SupersededStep(w: World, s: System, a: Action, g: nat)
    requires Superseded(s.books, g) && Enabled(w, s, a) && !a.Crash?
    ensures Superseded(Next(w, s, a).books, g)
  {
  }

  lemma {:induction false} SupersededStays(w: World, s: System, actions: seq<Action>, g: nat)
    requires Superseded(s.books, g) && Possible(w, s, actions)
    requires forall i :: 0 <= i < |actions| ==> !actions[i].Crash?
    ensures Superseded(After(w, s, actions).books, g)
    decreases |actions|
  {
    if actions != [] {
      var front := actions[..|actions| - 1];
      assert forall i :: 0 <= i < |front| ==> front[i] == actions[i];
      SupersededStays(w, s, front, g);
      SupersededStep(w, After(w, s, front), actions[|actions| - 1], g);
    }
  }

  /** What a late step leaves alone: entries and marks, cursors, disk, and every other
      stream. */
  ghost predicate LeavesAlone(s: System, t: System, g: nat) {
    && t.books == s.books && t.cursors == s.cursors && t.lastSeen == s.lastSeen
    && t.disk == s.disk && t.writing == s.writing && t.expiring == s.expiring
    && forall h :: h != g ==> (h in t.streams <==> h in s.streams) && (h in s.streams ==> t.streams[h] == s.streams[h])
  }

  lemma LateStep(w: World, s: System, a: Action, g: nat)
    requires Superseded(s.books, g) && Enabled(w, s, a) && StepOf(a, g)
    ensures LeavesAlone(s, Next(w, s, a), g)
  {
    if a.Report? || a.Release? {
      LateStreamsAreHarmless(s.books, s.cursors, s.streams[g].key, g, s.streams[g].last);
    } else {
      OwnStep(w, s, a, g);
    }
  }

  lemma OwnStep(w: World, s: System, a: Action, g: nat)
    requires Enabled(w, s, a) && StepOf(a, g) && !a.Report? && !a.Release?
    ensures LeavesAlone(s, Next(w, s, a), g)
  {
    match a
    case Seed(_) => SeedAdvances(w, s, g);
    case Connect(_, _, _, _) => ConnectAdvances(w, s, a);
    case Read(_, event) => ReadAdvances(w, s, g, event);
    case Close(_, rounds) => CloseAdvances(w, s, g, rounds);
  }

  /** From the delete of its pod on, reported or inferred, and for as long as the
      process lives, nothing a stopped stream still does matters: it moves no cursor,
      and no replacement loses its entry to a late release. */
  lemma LateStreamsNeverMatter(w: World, s: System, keys: set<string>, inferred: bool, g: nat,
                               actions: seq<Action>, a: Action)
    requires Orderly(s) && g in s.streams && s.streams[g].key in keys
    requires Possible(w, Next(w, s, Delete(keys, inferred)), actions)
    requires forall i :: 0 <= i < |actions| ==> !actions[i].Crash?
    requires StepOf(a, g) && Enabled(w, After(w, Next(w, s, Delete(keys, inferred)), actions), a)
    ensures var t := After(w, Next(w, s, Delete(keys, inferred)), actions);
            LeavesAlone(t, Next(w, t, a), g)
  {
    var d := Next(w, s, Delete(keys, inferred));
    assert Superseded(d.books, g);
    SupersededStays(w, d, actions, g);
    LateStep(w, After(w, d, actions), a, g);
  }

  // ---------------------------------------------------------------------
  // What is kept
  // ---------------------------------------------------------------------

  /** This action removes no cursor of the key: no restart, no reported delete of it,
      and no expiry that finds its pod stale. */
  predicate SparesCursor(s: System, a: Action, key: string) {
    && !a.Crash?
    && !(a.Delete? && !a.inferred && key in a.keys)
    && !(a.Expire? && PodUIDFromStreamKey(key) in Stale(s.lastSeen, a.cutoff))
  }

  ghost predicate KeepsCursor(w: World, s: System, actions: seq<Action>, key: string)
    requires Possible(w, s, actions)
    decreases |actions|
  {
    actions == [] ||
    (var front, a := actions[..|actions| - 1], actions[|actions| - 1];
     KeepsCursor(w, s, front, key) && SparesCursor(After(w, s, front), a, key))
  }

  lemma CursorStep(w: World, s: System, a: Action, key: string, c: Cursor)
    requires key in s.cursors && !c.After(s.cursors[key])
    requires Enabled(w, s, a) && SparesCursor(s, a, key)
    ensures key in Next(w, s, a).cursors && !c.After(Next(w, s, a).cursors[key])
  {
    if a.Report? {
      AfterIsStrictTotalOrder(c, s.cursors[key], s.streams[a.gen].last);
      AfterIsStrictTotalOrder(c, s.streams[a.gen].last, s.cursors[key]);
    }
  }

  /** Every stream seeded for the key along the run got a cursor not behind c. */
  ghost predicate SeededFrom(w: World, s: System, actions: seq<Action>, key: string, c: Cursor)
    requires Possible(w, s, actions)
    decreases |actions|
  {
    actions == [] ||
    (var front, a := actions[..|actions| - 1], actions[|actions| - 1];
     && SeededFrom(w, s, front, key, c)
     && (a.Seed? && After(w, s, front).streams[a.gen].key == key ==>
           !c.After(After(w, s, actions).streams[a.gen].resume)))
  }

  lemma {:induction false} CursorKept(w: World, s: System, actions: seq<Action>, key: string, c: Cursor)
    requires key in s.cursors && !c.After(s.cursors[key])
    requires Possible(w, s, actions) && KeepsCursor(w, s, actions, key)
    ensures key in After(w, s, actions).cursors && !c.After(After(w, s, actions).cursors[key])
    ensures SeededFrom(w, s, actions, key, c)
    decreases |actions|
  {
    if actions != [] {
      var front, a := actions[..|actions| - 1], actions[|actions| - 1];
      CursorKept(w, s, front, key, c);
      CursorStep(w, After(w, s, front), a, key, c);
      if a.Seed? {
        SeedTakesStored(w, After(w, s, front), a.gen);
      }
    }
  }

  lemma SeedTakesStored(w: World, s: System, g: nat)
    requires Enabled(w, s, Seed(g))
    ensures Next(w, s, Seed(g)).streams[g].resume == Get(s.cursors, s.streams[g].key)
  {
  }

  /** An inferred delete keeps the cursor: whatever late streams still report, every
      replacement is seeded with the cursor held at the delete or one further along. */
  lemma {:induction false} InferredDeleteKeeps(w: World, s: System, keys: set<string>, actions: seq<Action>, key: string)
    requires key in s.cursors && key in keys
    requires Possible(w, Next(w, s, Delete(keys, true)), actions)
    requires KeepsCursor(w, Next(w, s, Delete(keys, true)), actions, key)
    ensures var d := Next(w, s, Delete(keys, true));
            && SeededFrom(w, d, actions, key, s.cursors[key])
            && key in After(w, d, actions).cursors && !s.cursors[key].After(After(w, d, actions).cursors[key])
  {
    CursorKept(w, Next(w, s, Delete(keys, true)), actions, key, s.cursors[key]);
  }

  /** No action of the run clears the key's marks: no delete of it, no crash, and no
      prune that returned it. */
  ghost predicate LeavesMarks(w: World, s: System, actions: seq<Action>, key: string)
    requires Possible(w, s, actions)
    decreases |actions|
  {
    actions == [] ||
    (var front, a := actions[..|actions| - 1], actions[|actions| - 1];
     && LeavesMarks(w, s, front, key)
     && !a.Crash? && !(a.Delete? && key in a.keys) && !(a.Clear? && key in After(w, s, front).expiring))
  }

  /** A drained container is not reopened by any number of adds, updates and
      resyncs until a delete or a prune clears its mark. */
  lemma {:induction false} DrainedStaysClosed(w: World, s: System, actions: seq<Action>, key: string)
    requires key in s.books.drained && key !in s.books.active
    requires Possible(w, s, actions) && LeavesMarks(w, s, actions, key)
    ensures key in After(w, s, actions).books.drained && key !in After(w, s, actions).books.active
    decreases |actions|
  {
    if actions != [] {
      DrainedStaysClosed(w, s, actions[..|actions| - 1], key);
      DrainedStep(w, After(w, s, actions[..|actions| - 1]), actions[|actions| - 1], key);
    }
  }

  lemma DrainedStep(w: World, s: System, a: Action, key: string)
    requires key in s.books.drained && key !in s.books.active && Enabled(w, s, a)
    requires !a.Crash? && !(a.Delete? && key in a.keys) && !(a.Clear? && key in s.expiring)
    ensures key in Next(w, s, a).books.drained && key !in Next(w, s, a).books.active
  {
  }

  /** The generations started along a run, in order. */
  ghost function StartsOf(w: World, s: System, actions: seq<Action>): seq<nat>
    requires Possible(w, s, actions)
    decreases |actions|
  {
    if actions == [] then []
    else
      var front, a := actions[..|actions| - 1], actions[|actions| - 1];
      StartsOf(w, s, front)
      + (if a.Sync? && Opens(After(w, s, front).books, a.key) then [After(w, s, front).books.lastGen + 1] else [])
  }

  ghost predicate Climbing(starts: seq<nat>, above: nat, upTo: nat) {
    && above <= upTo
    && (forall i :: 0 <= i < |starts| ==> above < starts[i] <= upTo)
    && (forall i, j :: 0 <= i < j < |starts| ==> starts[i] < starts[j])
  }

  lemma ClimbingSnoc(starts: seq<nat>, above: nat, upTo: nat)
    requires Climbing(starts, above, upTo)
    ensures Climbing(starts + [upTo + 1], above, upTo + 1)
  {
  }

  /** No generation is used twice by one process. */
  lemma {:induction false} GenerationsAreFresh(w: World, s: System, actions: seq<Action>)
    requires Possible(w, s, actions) && forall i :: 0 <= i < |actions| ==> !actions[i].Crash?
    ensures Climbing(StartsOf(w, s, actions), s.books.lastGen, After(w, s, actions).books.lastGen)
    decreases |actions|
  {
    if actions != [] {
      var front := actions[..|actions| - 1];
      assert forall i :: 0 <= i < |front| ==> front[i] == actions[i];
      GenerationsAreFresh(w, s, front);
      LastGenStep(w, After(w, s, front), actions[|actions| - 1]);
      ClimbingSnoc(StartsOf(w, s, front), s.books.lastGen, After(w, s, front).books.lastGen);
      assert StartsOf(w, s, front) + [] == StartsOf(w, s, front);
    }
  }

  lemma LastGenStep(w: World, s: System, a: Action)
    requires Enabled(w, s, a) && !a.Crash?
    ensures Next(w, s, a).books.lastGen
         == s.books.lastGen + (if a.Sync? && Opens(s.books, a.key) then 1 else 0)
  {
  }

  /** No action of the run reports the pod, crashes, or removes the key's cursor by
      a reported delete. */
  ghost predicate NeverSeen(actions: seq<Action>, key: string) {
    forall i :: 0 <= i < |actions| ==>
      && !actions[i].Crash?
      && !(actions[i].Sight? && actions[i].pod == PodUIDFromStreamKey(key))
      && !(actions[i].Delete? && !actions[i].inferred && key in actions[i].keys)
  }

  /** Expiry never reaches a cursor restored for a pod that is not seen again: only
      pods that have been seen since the start are ever considered stale. */
  lemma {:induction false} RestoredCursorNeverExpires(w: World, s: System, actions: seq<Action>, key: string)
    requires key in s.cursors && PodUIDFromStreamKey(key) !in s.lastSeen
    requires Possible(w, s, actions) && NeverSeen(actions, key)
    ensures key in After(w, s, actions).cursors && PodUIDFromStreamKey(key) !in After(w, s, actions).lastSeen
    decreases |actions|
  {
    if actions != [] {
      var front := actions[..|actions| - 1];
      assert forall i :: 0 <= i < |front| ==> front[i] == actions[i];
      RestoredCursorNeverExpires(w, s, front, key);
      NeverSeenStep(w, After(w, s, front), actions[|actions| - 1], key);
    }
  }

  lemma NeverSeenStep(w: World, s: System, a: Action, key: string)
    requires key in s.cursors && PodUIDFromStreamKey(key) !in s.lastSeen && Enabled(w, s, a)
    requires !a.Crash? && !(a.Sight? && a.pod == PodUIDFromStreamKey(key))
    requires !(a.Delete? && !a.inferred && key in a.keys)
    ensures key in Next(w, s, a).cursors && PodUIDFromStreamKey(key) !in Next(w, s, a).lastSeen
  {
  }
}
