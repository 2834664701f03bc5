/** receiver.go: the receiver's bookkeeping of streams, changed under its mutex. */
module Receivers {
  import opened Records
  import opened Cursors
  import opened Keys
  import opened Stores

  // ---------------------------------------------------------------------
  // Pods, as far as the receiver looks at them
  // ---------------------------------------------------------------------

  datatype RestartPolicy = Always | OnFailure | Never

  datatype ContainerState = Waiting | Running | Exited(exitCode: int)

  /** ranBefore: a previous run of the container has ended. */
  datatype Status = Status(name: string, state: ContainerState, ranBefore: bool, restarts: int)

  /** ownAlways: the container's own restart policy is Always (a native sidecar). */
  datatype Container = Container(name: string, ownAlways: bool)

  datatype Pod = Pod(namespace: string, name: string, uid: string, policy: RestartPolicy,
                     initContainers: seq<Container>, containers: seq<Container>,
                     initStatuses: seq<Status>, statuses: seq<Status>)

  function KeyOf(pod: Pod, container: string): string {
    StreamKey(pod.namespace, pod.name, pod.uid, container)
  }

  function PodContainers(pod: Pod): seq<Container> {
    pod.initContainers + pod.containers
  }

  predicate Started(s: Status) {
    s.state.Running? || s.state.Exited? || s.ranBefore
  }

  predicate ContainerHasStarted(pod: Pod, name: string) {
    var all := pod.statuses + pod.initStatuses;
    exists i :: 0 <= i < |all| && all[i].name == name && Started(all[i])
             && forall j :: 0 <= j < i ==> all[j].name != name
  }

  predicate ContainerIsTerminal(policy: RestartPolicy, s: Status, isInit: bool, ownAlways: bool) {
    && s.state.Exited?
    && !ownAlways
    && (if isInit then s.state.exitCode == 0 || policy == Never
        else policy == Never || (policy == OnFailure && s.state.exitCode == 0))
  }

  /** Whether the kubelet starts an exited container again. */
  predicate RestartedAfterExit(policy: RestartPolicy, exitCode: int, isInit: bool, ownAlways: bool) {
    if ownAlways then true
    else
      match policy
      case Always => !isInit || exitCode != 0
      case OnFailure => exitCode != 0
      case Never => false
  }

  /** Terminal means exited, and never to be started again. */
  lemma TerminalMeansNeverRestarted(policy: RestartPolicy, s: Status, isInit: bool, ownAlways: bool)
    ensures ContainerIsTerminal(policy, s, isInit, ownAlways)
       <==> s.state.Exited? && !RestartedAfterExit(policy, s.state.exitCode, isInit, ownAlways)
  {
  }

  /** Whether the first init container of this name restarts whatever happens. */
  predicate InitOwnAlways(containers: seq<Container>, name: string) {
    containers != [] &&
    (if containers[0].name == name then containers[0].ownAlways else InitOwnAlways(containers[1..], name))
  }

  /** The keys of the containers that may be streamed, in order. */
  function StartedKeys(pod: Pod, containers: seq<Container>): seq<string> {
    if containers == [] then []
    else
      var last := containers[|containers| - 1].name;
      StartedKeys(pod, containers[..|containers| - 1]) + (if ContainerHasStarted(pod, last) then [KeyOf(pod, last)] else [])
  }

  /** The status the pod gives for a name: the first of that name, regular containers'
      before init containers'. */
  function StatusOf(pod: Pod, name: string): Option<Status> {
    match FirstNamed(pod.statuses, name)
    case Some(s) => Some(s)
    case None => FirstNamed(pod.initStatuses, name)
  }

  function FirstNamed(statuses: seq<Status>, name: string): Option<Status> {
    if statuses == [] then None
    else if statuses[0].name == name then Some(statuses[0])
    else FirstNamed(statuses[1..], name)
  }

  lemma {:induction false} FirstNamedIs(statuses: seq<Status>, name: string)
    ensures FirstNamed(statuses, name).None? <==> forall i :: 0 <= i < |statuses| ==> statuses[i].name != name
    ensures FirstNamed(statuses, name).Some? ==>
              exists i :: 0 <= i < |statuses| && FirstAt(statuses, name, i) && statuses[i] == FirstNamed(statuses, name).value
    decreases |statuses|
  {
    if statuses != [] {
      if statuses[0].name == name {
        assert FirstAt(statuses, name, 0);
      } else {
        FirstNamedIs(statuses[1..], name);
        assert forall i :: 1 <= i < |statuses| ==> statuses[i] == statuses[1..][i - 1];
        if i :| 0 <= i < |statuses[1..]| && FirstAt(statuses[1..], name, i) && statuses[1..][i] == FirstNamed(statuses[1..], name).value {
          assert FirstAt(statuses, name, i + 1);
        }
      }
    }
  }

  ghost predicate FirstAt(statuses: seq<Status>, name: string, i: nat) {
    i < |statuses| && statuses[i].name == name && forall j :: 0 <= j < i ==> statuses[j].name != name
  }

  /** There are logs to read of a container exactly when the pod gives a status for it
      that is anything but waiting for its first start. */
  lemma HasLogsWhen(pod: Pod, name: string)
    ensures ContainerHasStarted(pod, name)
       <==> StatusOf(pod, name).Some? && !(StatusOf(pod, name).value.state.Waiting? && !StatusOf(pod, name).value.ranBefore)
  {
    var all := pod.statuses + pod.initStatuses;
    FirstNamedIs(pod.statuses, name);
    FirstNamedIs(pod.initStatuses, name);
    match FirstNamed(pod.statuses, name)
    case Some(s) =>
      var i :| 0 <= i < |pod.statuses| && FirstAt(pod.statuses, name, i) && pod.statuses[i] == s;
      FirstDecides(pod, name, i);
    case None =>
      if FirstNamed(pod.initStatuses, name).Some? {
        var i :| 0 <= i < |pod.initStatuses| && FirstAt(pod.initStatuses, name, i)
              && pod.initStatuses[i] == FirstNamed(pod.initStatuses, name).value;
        assert all[|pod.statuses| + i] == pod.initStatuses[i];
        FirstDecides(pod, name, |pod.statuses| + i);
      } else {
        assert forall i :: 0 <= i < |all| ==> all[i].name != name;
      }
  }

  lemma FirstDecides(pod: Pod, name: string, i: nat)
    requires FirstAt(pod.statuses + pod.initStatuses, name, i)
    ensures ContainerHasStarted(pod, name) <==> Started((pod.statuses + pod.initStatuses)[i])
  {
  }

  predicate Lists(containers: seq<Container>, name: string) {
    exists i :: 0 <= i < |containers| && containers[i].name == name
  }

  /** The pod has a container of this name, an init container or a regular one. */
  predicate HasContainer(pod: Pod, name: string) {
    Lists(pod.initContainers, name) || Lists(pod.containers, name)
  }

  lemma AllContainersAre(pod: Pod, name: string)
    ensures Lists(PodContainers(pod), name) <==> HasContainer(pod, name)
  {
    var all := PodContainers(pod);
    assert forall i :: 0 <= i < |pod.initContainers| ==> all[i] == pod.initContainers[i];
    assert forall i :: 0 <= i < |pod.containers| ==> all[|pod.initContainers| + i] == pod.containers[i];
  }

  /** The streams a sync of the pod opens, for names that tell keys apart: one for each
      of its containers, init containers included, that has logs. */
  lemma StartedKeysAre(pod: Pod, name: string)
    requires forall other :: HasContainer(pod, other) && KeyOf(pod, other) == KeyOf(pod, name) ==> other == name
    ensures KeyOf(pod, name) in StartedKeys(pod, PodContainers(pod)) <==> HasContainer(pod, name) && ContainerHasStarted(pod, name)
    ensures KeyOf(pod, name) in AllKeys(pod) <==> HasContainer(pod, name)
  {
    var all := PodContainers(pod);
    AllContainersAre(pod, name);
    forall i | 0 <= i < |all| ensures HasContainer(pod, all[i].name) {
      AllContainersAre(pod, all[i].name);
    }
    KeysOfContainers(pod, all, name);
  }

  lemma {:induction false} KeysOfContainers(pod: Pod, containers: seq<Container>, name: string)
    requires forall i :: 0 <= i < |containers| && KeyOf(pod, containers[i].name) == KeyOf(pod, name) ==> containers[i].name == name
    ensures KeyOf(pod, name) in StartedKeys(pod, containers) <==> Lists(containers, name) && ContainerHasStarted(pod, name)
    ensures KeyOf(pod, name) in KeysAmong(pod, containers) <==> Lists(containers, name)
    decreases |containers|
  {
    if containers != [] {
      var front := containers[..|containers| - 1];
      KeysOfContainers(pod, front, name);
      assert Lists(containers, name) <==> Lists(front, name) || containers[|containers| - 1].name == name by {
        assert forall i :: 0 <= i < |front| ==> front[i] == containers[i];
      }
    }
  }

  function KeysAmong(pod: Pod, containers: seq<Container>): set<string> {
    if containers == [] then {}
    else KeysAmong(pod, containers[..|containers| - 1]) + {KeyOf(pod, containers[|containers| - 1].name)}
  }

  function AllKeys(pod: Pod): set<string> {
    KeysAmong(pod, PodContainers(pod))
  }

  // ---------------------------------------------------------------------
  // The books
  // ---------------------------------------------------------------------

  /** activeStreams by generation, the next generation's predecessor, and the
      containers known to be terminal and drained. cancelled holds the
      generations whose context has been cancelled. */
  datatype Books = Books(
    active: map<string, nat>,
    lastGen: nat,
    terminated: set<string>,
    drained: set<string>,
    cancelled: set<nat>,
    restarts: map<string, int>)

  const NO_BOOKS := Books(map[], 0, {}, {}, {}, map[])

  predicate Owns(b: Books, key: string, gen: nat) {
    key in b.active && b.active[key] == gen
  }

  predicate Opens(b: Books, key: string) {
    key !in b.active && key !in b.drained
  }

  /** One container of a sync: a stream is started unless it has one or is drained. */
  function Ensured(b: Books, key: string): Books {
    if Opens(b, key) then b.(lastGen := b.lastGen + 1, active := b.active[key := b.lastGen + 1]) else b
  }

  function EnsuredAll(b: Books, keys: seq<string>): Books {
    if keys == [] then b else Ensured(EnsuredAll(b, keys[..|keys| - 1]), keys[|keys| - 1])
  }

  function Released(b: Books, key: string, gen: nat): Books {
    if Owns(b, key, gen) then
      b.(active := b.active - {key},
         drained := b.drained + (if key in b.terminated then {key} else {}))
    else b
  }

  function Deleted(b: Books, keys: set<string>): Books {
    b.(active := b.active - keys,
       terminated := b.terminated - keys,
       drained := b.drained - keys,
       cancelled := b.cancelled + (set k | k in keys && k in b.active :: b.active[k]))
  }

  function Marked(b: Books, terminal: set<string>, restarts: map<string, int>): Books {
    b.(terminated := b.terminated + terminal, restarts := b.restarts + restarts)
  }

  function Cleared(b: Books, keys: set<string>): Books {
    b.(restarts := b.restarts - keys, terminated := b.terminated - keys, drained := b.drained - keys)
  }

  /** Only the stream that owns the key moves its cursor. */
  function FencedAdvance(b: Books, m: Positions, key: string, gen: nat, c: Cursor): Positions {
    if Owns(b, key, gen) then Advanced(m, key, c) else m
  }

  /** out is m after a report of c by the stream gen of key: the owner's c is stored
      unless it is zero or behind what is held, and no other cursor is touched. */
  ghost predicate AdvancedAs(b: Books, m: Positions, key: string, gen: nat, c: Cursor, out: Positions) {
    && (forall k :: k != key ==> (k in out <==> k in m) && (k in m ==> out[k] == m[k]))
    && (if key in b.active && b.active[key] == gen && !c.IsZero() then
          && key in out && !c.After(out[key])
          && (out[key] == c || (key in m && out[key] == m[key]))
        else out == m)
  }

  lemma OwnerAdvances(b: Books, m: Positions, key: string, gen: nat, c: Cursor)
    ensures AdvancedAs(b, m, key, gen, c, FencedAdvance(b, m, key, gen, c))
  {
    AfterIsStrictTotalOrder(c, Get(m, key), ZERO);
  }

  /** out is b after the stream gen of key has released it: only an owner's entry goes,
      and then a terminal container, and no other, is marked drained. */
  ghost predicate ReleasedAs(b: Books, key: string, gen: nat, out: Books) {
    var owner := key in b.active && b.active[key] == gen;
    && (forall k :: k in out.active <==> k in b.active && !(owner && k == key))
    && (forall k :: k in out.active ==> out.active[k] == b.active[k])
    && (forall k :: k in out.drained <==> k in b.drained || (owner && k == key && key in b.terminated))
    && out.terminated == b.terminated && out.lastGen == b.lastGen
    && out.cancelled == b.cancelled && out.restarts == b.restarts
  }

  lemma ReleaseDrainsWhen(b: Books, key: string, gen: nat)
    ensures ReleasedAs(b, key, gen, Released(b, key, gen))
  {
  }

  /** A delete or a prune of these keys clears all their marks and no others; a delete
      also takes their entries away and cancels the streams behind them. */
  lemma ClearsMarks(b: Books, keys: set<string>, key: string)
    ensures var d, c := Deleted(b, keys), Cleared(b, keys);
            && (key in d.terminated <==> key in b.terminated && key !in keys)
            && (key in d.drained <==> key in b.drained && key !in keys)
            && (key in d.active <==> key in b.active && key !in keys)
            && (key in d.active ==> d.active[key] == b.active[key])
            && (key in b.active && key in keys ==> b.active[key] in d.cancelled)
            && d.restarts == b.restarts && b.cancelled <= d.cancelled
            && (key in c.terminated <==> key in b.terminated && key !in keys)
            && (key in c.drained <==> key in b.drained && key !in keys)
            && (key in c.restarts <==> key in b.restarts && key !in keys)
            && c.active == b.active && c.cancelled == b.cancelled
  {
  }

  /** started has every generation begun since from, in order, each with the key whose
      entry names it. */
  ghost predicate ListsStarted(b: Books, from: nat, started: seq<(string, nat)>) {
    && |started| == b.lastGen - from
    && forall i :: 0 <= i < |started| ==> started[i].1 == from + 1 + i && Owns(b, started[i].0, started[i].1)
  }

  lemma StartedGrows(b: Books, from: nat, started: seq<(string, nat)>, key: string)
    requires ListsStarted(b, from, started)
    ensures Opens(b, key) ==> ListsStarted(Ensured(b, key), from, started + [(key, b.lastGen + 1)])
  {
  }

  lemma OneMoreContainer(b: Books, pod: Pod, containers: seq<Container>, i: nat)
    requires i < |containers|
    ensures var before := EnsuredAll(b, StartedKeys(pod, containers[..i]));
            EnsuredAll(b, StartedKeys(pod, containers[..i + 1]))
            == if ContainerHasStarted(pod, containers[i].name) then Ensured(before, KeyOf(pod, containers[i].name)) else before
  {
    var keys, key := StartedKeys(pod, containers[..i]), KeyOf(pod, containers[i].name);
    assert containers[..i + 1][..i] == containers[..i];
    assert (keys + [key])[..|keys|] == keys && keys + [] == keys;
  }

  const STALE_AFTER: nat := 7_200_000_000_000

  class LogsReceiver {
    const cursors: Store
    var activeStreams: map<string, nat>
    var nextStreamGen: nat
    var terminatedContainers: set<string>
    var drainedContainers: set<string>
    var cancelled: set<nat>
    var restartCounts: map<string, int>

    constructor (cursors: Store)
      ensures this.cursors == cursors && State() == NO_BOOKS
    {
      this.cursors := cursors;
      activeStreams := map[];
      nextStreamGen := 0;
      terminatedContainers := {};
      drainedContainers := {};
      cancelled := {};
      restartCounts := map[];
    }

    ghost function State(): Books
      reads this
    {
      Books(activeStreams, nextStreamGen, terminatedContainers, drainedContainers, cancelled, restartCounts)
    }

    method OpenStream(key: string) returns (opens: bool)
      modifies this
      ensures State() == Ensured(old(State()), key)
      ensures opens == Opens(old(State()), key)
    {
      if key in activeStreams {
        return false;
      }
      if key in drainedContainers {
        return false;
      }
      nextStreamGen := nextStreamGen + 1;
      activeStreams := activeStreams[key := nextStreamGen];
      opens := true;
    }

    /** started lists the streams to run, by key and generation. */
    method EnsureStreams(pod: Pod) returns (started: seq<(string, nat)>)
      modifies this
      ensures State() == EnsuredAll(old(State()), StartedKeys(pod, PodContainers(pod)))
      ensures ListsStarted(State(), old(nextStreamGen), started)
    {
      started := [];
      var containers := PodContainers(pod);
      ghost var before := State();
      var i := 0;
      while i < |containers|
        invariant 0 <= i <= |containers|
        invariant State() == EnsuredAll(before, StartedKeys(pod, containers[..i]))
        invariant ListsStarted(State(), before.lastGen, started)
      {
        var name := containers[i].name;
        OneMoreContainer(before, pod, containers, i);
        i := i + 1;
        if !ContainerHasStarted(pod, name) {
          continue;
        }
        StartedGrows(State(), before.lastGen, started, KeyOf(pod, name));
        var opens := OpenStream(KeyOf(pod, name));
        if opens {
          started := started + [(KeyOf(pod, name), nextStreamGen)];
        }
      }
      assert containers[..i] == containers;
    }

    method ReleaseStream(key: string, gen: nat) returns (released: bool)
      modifies this
      ensures State() == Released(old(State()), key, gen)
      ensures released == (key in old(activeStreams) && old(activeStreams)[key] == gen)
      ensures ReleasedAs(old(State()), key, gen, State())
    {
      released := false;
      ReleaseDrainsWhen(State(), key, gen);
      if key in activeStreams && activeStreams[key] == gen {
        activeStreams := activeStreams - {key};
        released := true;
        if key in terminatedContainers {
          drainedContainers := drainedContainers + {key};
        }
      }
    }

    method AdvanceCursor(key: string, gen: nat, c: Cursor)
      modifies cursors
      ensures cursors.cursors == FencedAdvance(State(), old(cursors.cursors), key, gen, c)
      ensures AdvancedAs(State(), old(cursors.cursors), key, gen, c, cursors.cursors)
      ensures cursors.lastSeenPods == old(cursors.lastSeenPods)
    {
      OwnerAdvances(State(), cursors.cursors, key, gen, c);
      if key !in activeStreams || activeStreams[key] != gen {
        return;
      }
      cursors.Advance(key, c);
    }

    method DeleteContainer(key: string, inferred: bool)
      modifies this, cursors
      ensures State() == Deleted(old(State()), {key})
      ensures cursors.cursors == old(cursors.cursors) - (if inferred then {} else {key})
      ensures cursors.lastSeenPods == old(cursors.lastSeenPods)
    {
      if key in activeStreams {
        cancelled := cancelled + {activeStreams[key]};
        activeStreams := activeStreams - {key};
      }
      terminatedContainers := terminatedContainers - {key};
      drainedContainers := drainedContainers - {key};
      if !inferred {
        cursors.Forget(key);
      }
    }

    /** A reported delete forgets the pod's cursors; an inferred one keeps them. */
    method OnPodDeleted(pod: Pod, inferred: bool)
      modifies this, cursors
      ensures State() == Deleted(old(State()), AllKeys(pod))
      ensures cursors.cursors == old(cursors.cursors) - (if inferred then {} else AllKeys(pod))
      ensures cursors.lastSeenPods == old(cursors.lastSeenPods)
    {
      var containers := PodContainers(pod);
      ghost var before, held := State(), cursors.cursors;
      var i := 0;
      assert held - {} == held && Deleted(before, {}) == before;
      while i < |containers|
        invariant 0 <= i <= |containers|
        invariant State() == Deleted(before, KeysAmong(pod, containers[..i]))
        invariant cursors.cursors == held - (if inferred then {} else KeysAmong(pod, containers[..i]))
        invariant cursors.lastSeenPods == old(cursors.lastSeenPods)
      {
        var key := KeyOf(pod, containers[i].name);
        assert containers[..i + 1][..i] == containers[..i];
        DeletedOneMore(before, KeysAmong(pod, containers[..i]), key);
        DeleteContainer(key, inferred);
        i := i + 1;
      }
      assert containers[..i] == containers;
    }

    method MarkContainerStates(pod: Pod)
      modifies this
      ensures State() == Marked(old(State()), TerminalKeys(pod), RestartsOf(pod))
    {
      MarkedTwice(State(), TerminalAmong(pod, pod.statuses, false), RestartsAmong(pod, pod.statuses),
                  TerminalAmong(pod, pod.initStatuses, true), RestartsAmong(pod, pod.initStatuses));
      MarkStatuses(pod, pod.statuses, false);
      MarkStatuses(pod, pod.initStatuses, true);
    }

    method MarkOne(key: string, restarts: int, terminal: bool)
      modifies this
      ensures State() == Marked(old(State()), if terminal then {key} else {}, map[key := restarts])
    {
      restartCounts := restartCounts[key := restarts];
      if terminal {
        terminatedContainers := terminatedContainers + {key};
      }
    }

    method MarkStatuses(pod: Pod, statuses: seq<Status>, isInit: bool)
      modifies this
      ensures State() == Marked(old(State()), TerminalAmong(pod, statuses, isInit), RestartsAmong(pod, statuses))
    {
      ghost var before := State();
      var i := 0;
      assert Marked(before, {}, map[]) == before;
      while i < |statuses|
        invariant 0 <= i <= |statuses|
        invariant State() == Marked(before, TerminalAmong(pod, statuses[..i], isInit), RestartsAmong(pod, statuses[..i]))
      {
        assert statuses[..i + 1][..i] == statuses[..i];
        var key, terminal := KeyOf(pod, statuses[i].name), TerminalStatus(pod, statuses[i], isInit);
        MarkedTwice(before, TerminalAmong(pod, statuses[..i], isInit), RestartsAmong(pod, statuses[..i]),
                    if terminal then {key} else {}, map[key := statuses[i].restarts]);
        MarkOne(key, statuses[i].restarts, terminal);
        i := i + 1;
      }
      assert statuses[..i] == statuses;
    }

    /** Expires the cursors of long unseen pods, and what is kept for the same keys. */
    method PruneStaleCursors(now: nat)
      modifies this, cursors
      ensures var stale := Stale(old(cursors.lastSeenPods), if now < STALE_AFTER then 0 else now - STALE_AFTER);
              var gone := KeysOf(old(cursors.cursors), stale);
              && State() == Cleared(old(State()), gone)
              && cursors.cursors == old(cursors.cursors) - gone
              && cursors.lastSeenPods == old(cursors.lastSeenPods) - stale
    {
      ghost var before := State();
      var pruned := cursors.Prune(if now < STALE_AFTER then 0 else now - STALE_AFTER);
      ghost var gone := Elements(pruned);
      var i := 0;
      assert Cleared(before, {}) == before;
      while i < |pruned|
        invariant 0 <= i <= |pruned|
        invariant State() == Cleared(before, Elements(pruned[..i]))
        invariant cursors.cursors == old(cursors.cursors) - gone
        invariant cursors.lastSeenPods
               == old(cursors.lastSeenPods) - Stale(old(cursors.lastSeenPods), if now < STALE_AFTER then 0 else now - STALE_AFTER)
      {
        var key := pruned[i];
        assert pruned[..i + 1] == pruned[..i] + [key];
        assert Elements(pruned[..i + 1]) == Elements(pruned[..i]) + {key};
        restartCounts := restartCounts - {key};
        terminatedContainers := terminatedContainers - {key};
        drainedContainers := drainedContainers - {key};
        i := i + 1;
      }
      assert pruned[..i] == pruned;
    }
  }

  function TerminalAmong(pod: Pod, statuses: seq<Status>, isInit: bool): set<string> {
    if statuses == [] then {}
    else
      var s := statuses[|statuses| - 1];
      TerminalAmong(pod, statuses[..|statuses| - 1], isInit)
      + (if TerminalStatus(pod, s, isInit) then {KeyOf(pod, s.name)} else {})
  }

  predicate TerminalStatus(pod: Pod, s: Status, isInit: bool) {
    ContainerIsTerminal(pod.policy, s, isInit, isInit && InitOwnAlways(pod.initContainers, s.name))
  }

  function RestartsAmong(pod: Pod, statuses: seq<Status>): map<string, int> {
    if statuses == [] then map[]
    else
      var s := statuses[|statuses| - 1];
      RestartsAmong(pod, statuses[..|statuses| - 1]) + map[KeyOf(pod, s.name) := s.restarts]
  }

  function TerminalKeys(pod: Pod): set<string> {
    TerminalAmong(pod, pod.statuses, false) + TerminalAmong(pod, pod.initStatuses, true)
  }

  function RestartsOf(pod: Pod): map<string, int> {
    RestartsAmong(pod, pod.statuses) + RestartsAmong(pod, pod.initStatuses)
  }

  /** The kubelet restarts an init container of this name whatever happens: the first
      of the name says so. */
  predicate AlwaysRestarts(containers: seq<Container>, name: string) {
    exists i :: 0 <= i < |containers| && containers[i].name == name && containers[i].ownAlways
             && forall j :: 0 <= j < i ==> containers[j].name != name
  }

  lemma {:induction false} InitOwnAlwaysWhen(containers: seq<Container>, name: string)
    ensures InitOwnAlways(containers, name) <==> AlwaysRestarts(containers, name)
    decreases |containers|
  {
    if containers != [] {
      InitOwnAlwaysWhen(containers[1..], name);
      assert forall i :: 1 <= i < |containers| ==> containers[i] == containers[1..][i - 1];
      if containers[0].name != name && AlwaysRestarts(containers[1..], name) {
        var i :| 0 <= i < |containers[1..]| && containers[1..][i].name == name && containers[1..][i].ownAlways
              && forall j :: 0 <= j < i ==> containers[1..][j].name != name;
        assert containers[i + 1].name == name && containers[i + 1].ownAlways;
      }
      if containers[0].name != name && AlwaysRestarts(containers, name) {
        var i :| 0 <= i < |containers| && containers[i].name == name && containers[i].ownAlways
              && forall j :: 0 <= j < i ==> containers[j].name != name;
        assert containers[1..][i - 1].name == name && containers[1..][i - 1].ownAlways;
      }
    }
  }

  /** This status says the container has exited for good. Only an init container can
      have a restart policy of its own. */
  predicate ExitedForGood(pod: Pod, s: Status, isInit: bool) {
    && s.state.Exited?
    && !RestartedAfterExit(pod.policy, s.state.exitCode, isInit, isInit && AlwaysRestarts(pod.initContainers, s.name))
  }

  ghost predicate SaysTerminal(pod: Pod, statuses: seq<Status>, isInit: bool, key: string) {
    exists i :: 0 <= i < |statuses| && KeyOf(pod, statuses[i].name) == key && ExitedForGood(pod, statuses[i], isInit)
  }

  /** The containers of a pod that are marked terminal: those some status, of a regular
      or of an init container, says have exited for good. */
  lemma TerminalKeysAre(pod: Pod, key: string)
    ensures key in TerminalKeys(pod) <==> SaysTerminal(pod, pod.statuses, false, key) || SaysTerminal(pod, pod.initStatuses, true, key)
  {
    TerminalAmongAre(pod, pod.statuses, false, key);
    TerminalAmongAre(pod, pod.initStatuses, true, key);
  }

  lemma {:induction false} TerminalAmongAre(pod: Pod, statuses: seq<Status>, isInit: bool, key: string)
    ensures key in TerminalAmong(pod, statuses, isInit) <==> SaysTerminal(pod, statuses, isInit, key)
    decreases |statuses|
  {
    if statuses != [] {
      var front, s := statuses[..|statuses| - 1], statuses[|statuses| - 1];
      TerminalAmongAre(pod, front, isInit, key);
      InitOwnAlwaysWhen(pod.initContainers, s.name);
      TerminalMeansNeverRestarted(pod.policy, s, isInit, isInit && InitOwnAlways(pod.initContainers, s.name));
      assert forall i :: 0 <= i < |front| ==> front[i] == statuses[i];
    }
  }

  /** The status a restart count is taken from: the last one with the key, an init
      container's before a regular one's. */
  ghost predicate LastCount(pod: Pod, statuses: seq<Status>, key: string, n: int) {
    exists i :: 0 <= i < |statuses| && KeyOf(pod, statuses[i].name) == key && statuses[i].restarts == n
             && forall j :: i < j < |statuses| ==> KeyOf(pod, statuses[j].name) != key
  }

  lemma RestartsAre(pod: Pod, key: string)
    ensures key in RestartsOf(pod) ==>
              LastCount(pod, pod.statuses + pod.initStatuses, key, RestartsOf(pod)[key])
    ensures key !in RestartsOf(pod) ==>
              forall i :: 0 <= i < |pod.statuses + pod.initStatuses| ==> KeyOf(pod, (pod.statuses + pod.initStatuses)[i].name) != key
  {
    RestartsJoin(pod, pod.statuses, pod.initStatuses);
    RestartsAmongAre(pod, pod.statuses + pod.initStatuses, key);
  }

  lemma {:induction false} RestartsJoin(pod: Pod, a: seq<Status>, b: seq<Status>)
    ensures RestartsAmong(pod, a + b) == RestartsAmong(pod, a) + RestartsAmong(pod, b)
    decreases |b|
  {
    if b == [] {
      assert a + b == a;
    } else {
      var front, s := b[..|b| - 1], b[|b| - 1];
      RestartsJoin(pod, a, front);
      assert (a + b)[..|a + b| - 1] == a + front && (a + b)[|a + b| - 1] == s;
      MapsJoin(RestartsAmong(pod, a), RestartsAmong(pod, front), map[KeyOf(pod, s.name) := s.restarts]);
    }
  }

  lemma MapsJoin(a: map<string, int>, b: map<string, int>, c: map<string, int>)
    ensures (a + b) + c == a + (b + c)
  {
  }

  lemma {:induction false} RestartsAmongAre(pod: Pod, statuses: seq<Status>, key: string)
    ensures key in RestartsAmong(pod, statuses) ==> LastCount(pod, statuses, key, RestartsAmong(pod, statuses)[key])
    ensures key !in RestartsAmong(pod, statuses) ==> forall i :: 0 <= i < |statuses| ==> KeyOf(pod, statuses[i].name) != key
    decreases |statuses|
  {
    if statuses != [] {
      var front, s := statuses[..|statuses| - 1], statuses[|statuses| - 1];
      RestartsAmongAre(pod, front, key);
      assert forall i :: 0 <= i < |front| ==> front[i] == statuses[i];
      if KeyOf(pod, s.name) == key {
        assert LastCount(pod, statuses, key, s.restarts);
      }
    }
  }

  /** What marking adds: terminal containers stay marked, and a restart count is the one
      marked last. */
  lemma MarksAre(b: Books, terminal: set<string>, restarts: map<string, int>, key: string)
    ensures var out := Marked(b, terminal, restarts);
            && (key in out.terminated <==> key in b.terminated || key in terminal)
            && (key in out.restarts <==> key in b.restarts || key in restarts)
            && (key in restarts ==> out.restarts[key] == restarts[key])
            && (key in b.restarts && key !in restarts ==> out.restarts[key] == b.restarts[key])
            && out.active == b.active && out.drained == b.drained && out.cancelled == b.cancelled
  {
  }

  lemma MarkedTwice(b: Books, t1: set<string>, r1: map<string, int>, t2: set<string>, r2: map<string, int>)
    ensures Marked(Marked(b, t1, r1), t2, r2) == Marked(b, t1 + t2, r1 + r2)
  {
    assert (b.restarts + r1) + r2 == b.restarts + (r1 + r2);
  }

  lemma DeletedOneMore(b: Books, done: set<string>, key: string)
    ensures Deleted(b, done + {key}) == Deleted(Deleted(b, done), {key})
  {
  }

  /** A stream that no longer owns its key changes nothing, neither when it is
      released nor when it reports: a replacement keeps its entry and its cursor. */
  lemma LateStreamsAreHarmless(b: Books, m: Positions, key: string, gen: nat, c: Cursor)
    requires !Owns(b, key, gen)
    ensures Released(b, key, gen) == b && FencedAdvance(b, m, key, gen, c) == m
  {
  }

  /** A sync reopens every started container that has no stream and is not drained,
      leaves all other entries alone, and never hands out a generation twice. */
  lemma {:induction false} SyncReopens(b: Books, keys: seq<string>, key: string)
    requires forall k :: k in b.active ==> b.active[k] <= b.lastGen
    ensures var out := EnsuredAll(b, keys);
            && out.lastGen >= b.lastGen
            && (forall k :: k in out.active ==> out.active[k] <= out.lastGen)
            && (key in b.active ==> key in out.active && out.active[key] == b.active[key])
            && (key !in b.active && key in keys && key !in b.drained ==> key in out.active && out.active[key] > b.lastGen)
            && (key !in b.active && (key !in keys || key in b.drained) ==> key !in out.active)
            && (forall k :: k in out.active && k != key && key in out.active && out.active[k] > b.lastGen ==> out.active[k] != out.active[key])
            && out.drained == b.drained && out.terminated == b.terminated
    decreases |keys|
  {
    if keys != [] {
      SyncReopens(b, keys[..|keys| - 1], key);
      assert keys == keys[..|keys| - 1] + [keys[|keys| - 1]];
    }
  }
}
