/** internal/cursor/store.go: every container's cursor, with persistence and expiry. */
module Stores {
  import opened Cursors
  import opened Keys

  type Positions = map<string, Cursor>

  function Get(m: Positions, key: string): Cursor {
    if key in m then m[key] else ZERO
  }

  function Advanced(m: Positions, key: string, c: Cursor): Positions {
    if !c.IsZero() && c.After(Get(m, key)) then m[key := c] else m
  }

  /** The pods last seen before the cutoff. */
  function Stale(lastSeen: map<string, nat>, cutoff: nat): set<string> {
    set uid | uid in lastSeen && lastSeen[uid] < cutoff
  }

  /** The keys that belong to one of these pods. */
  function KeysOf(m: Positions, pods: set<string>): set<string> {
    set key | key in m && PodUIDFromStreamKey(key) in pods
  }

  function Elements(s: seq<string>): set<string> {
    set x | x in s
  }

  function Encoded(m: Positions): map<string, Wire> {
    map key | key in m :: Marshal(m[key])
  }

  function Decoded(m: map<string, Wire>): Positions {
    map key | key in m :: Unmarshal(m[key])
  }

  lemma DecodedEncoded(m: Positions)
    ensures Decoded(Encoded(m)) == m
  {
  }

  /** What the storage extension holds under the store's one key. */
  datatype Stored = Missing | Unreadable | Saved(positions: map<string, Wire>)

  class Storage {
    var content: Stored
  }

  class Store {
    const client: Storage?
    var cursors: Positions
    var lastSeenPods: map<string, nat>

    constructor (client: Storage?)
      ensures this.client == client && cursors == map[] && lastSeenPods == map[]
    {
      this.client := client;
      cursors := map[];
      lastSeenPods := map[];
    }

    method GetCursor(key: string) returns (c: Cursor)
      ensures c == Get(cursors, key)
    {
      c := if key in cursors then cursors[key] else ZERO;
    }

    method Advance(key: string, c: Cursor)
      modifies this
      ensures cursors == Advanced(old(cursors), key, c)
      ensures lastSeenPods == old(lastSeenPods)
    {
      if c.IsZero() {
        return;
      }
      var held := GetCursor(key);
      if c.After(held) {
        cursors := cursors[key := c];
      }
    }

    method Forget(key: string)
      modifies this
      ensures cursors == old(cursors) - {key}
      ensures lastSeenPods == old(lastSeenPods)
    {
      cursors := cursors - {key};
    }

    method MarkPodSeen(podUID: string, now: nat)
      modifies this
      ensures cursors == old(cursors)
      ensures lastSeenPods == old(lastSeenPods)[podUID := now]
    {
      lastSeenPods := lastSeenPods[podUID := now];
    }

    /** Drops the cursors of every pod not seen since the cutoff: exactly their
        keys are returned, each once, and no other cursor is touched. */
    method Prune(cutoff: nat) returns (pruned: seq<string>)
      modifies this
      ensures lastSeenPods == old(lastSeenPods) - Stale(old(lastSeenPods), cutoff)
      ensures Elements(pruned) == KeysOf(old(cursors), Stale(old(lastSeenPods), cutoff))
      ensures |pruned| == |Elements(pruned)|
      ensures cursors == old(cursors) - KeysOf(old(cursors), Stale(old(lastSeenPods), cutoff))
    {
      ghost var seen := lastSeenPods;
      ghost var held := cursors;
      var stale: set<string> := {};
      var pods := lastSeenPods.Keys;
      while pods != {}
        invariant pods <= seen.Keys && pods <= lastSeenPods.Keys && cursors == held
        invariant stale == set uid | uid in seen.Keys - pods && seen[uid] < cutoff
        invariant lastSeenPods == seen - stale
        decreases pods
      {
        var uid :| uid in pods;
        if lastSeenPods[uid] < cutoff {
          stale := stale + {uid};
          lastSeenPods := lastSeenPods - {uid};
        }
        pods := pods - {uid};
      }
      assert stale == Stale(seen, cutoff);
      pruned := [];
      if stale == {} {
        return;
      }
      var keys := cursors.Keys;
      ghost var gone: set<string> := {};
      while keys != {}
        invariant keys <= held.Keys && keys <= cursors.Keys && lastSeenPods == seen - stale
        invariant gone == set k | k in held.Keys - keys && PodUIDFromStreamKey(k) in stale
        invariant cursors == held - gone
        invariant Elements(pruned) == gone && |pruned| == |gone|
        decreases keys
      {
        var key :| key in keys;
        if PodUIDFromStreamKey(key) in stale {
          cursors := cursors - {key};
          pruned := pruned + [key];
          gone := gone + {key};
        }
        keys := keys - {key};
      }
      assert gone == KeysOf(held, stale);
    }

    /** Restores what was saved; anything else leaves the store as it is. */
    method Load(failed: bool)
      modifies this
      ensures lastSeenPods == old(lastSeenPods)
      ensures cursors == if client != null && !failed && client.content.Saved?
                         then old(cursors) + Decoded(client.content.positions) else old(cursors)
    {
      if client == null || failed || !client.content.Saved? {
        return;
      }
      var stored := client.content.positions;
      ghost var before := cursors;
      var keys := stored.Keys;
      while keys != {}
        invariant keys <= stored.Keys && lastSeenPods == old(lastSeenPods)
        invariant cursors == before + (map k | k in stored && k !in keys :: Unmarshal(stored[k]))
        decreases keys
      {
        var k :| k in keys;
        cursors := cursors[k := Unmarshal(stored[k])];
        keys := keys - {k};
      }
    }

    /** Writes the whole set out, unless the write fails. */
    method Flush(failed: bool)
      modifies client
      ensures client != null ==> client.content == if failed then old(client.content) else Saved(Encoded(cursors))
    {
      if client == null {
        return;
      }
      var snapshot: map<string, Wire> := map[];
      var keys := cursors.Keys;
      while keys != {}
        invariant keys <= cursors.Keys
        invariant snapshot == map k | k in cursors && k !in keys :: Marshal(cursors[k])
        decreases keys
      {
        var k :| k in keys;
        snapshot := snapshot[k := Marshal(cursors[k])];
        keys := keys - {k};
      }
      if !failed {
        client.content := Saved(snapshot);
      }
    }
  }

  // ---------------------------------------------------------------------
  // The store as a join
  // ---------------------------------------------------------------------

  datatype Op =
    | Advance(key: string, c: Cursor)
    | Forget(key: string)
    | Seen(pod: string, now: nat)
    | Prune(cutoff: nat)

  datatype Contents = Contents(cursors: Positions, lastSeen: map<string, nat>)

  function Apply(s: Contents, op: Op): Contents {
    match op
    case Advance(key, c) => s.(cursors := Advanced(s.cursors, key, c))
    case Forget(key) => s.(cursors := s.cursors - {key})
    case Seen(pod, now) => s.(lastSeen := s.lastSeen[pod := now])
    case Prune(cutoff) =>
      var stale := Stale(s.lastSeen, cutoff);
      Contents(s.cursors - KeysOf(s.cursors, stale), s.lastSeen - stale)
  }

  function ApplyAll(s: Contents, ops: seq<Op>): Contents {
    if ops == [] then s
    else Apply(ApplyAll(s, ops[..|ops| - 1]), ops[|ops| - 1])
  }

  /** The non-zero cursors key has had since it was last forgotten or pruned: the one
      held at first, and those reported. */
  function Since(s: Contents, key: string, ops: seq<Op>): seq<Cursor> {
    if ops == [] then (if key in s.cursors then [s.cursors[key]] else [])
    else
      var front := ops[..|ops| - 1];
      match ops[|ops| - 1]
      case Advance(k, c) => if k == key && !c.IsZero() then Since(s, key, front) + [c] else Since(s, key, front)
      case Forget(k) => if k == key then [] else Since(s, key, front)
      case Seen(_, _) => Since(s, key, front)
      case Prune(cutoff) =>
        if PodUIDFromStreamKey(key) in Stale(ApplyAll(s, front).lastSeen, cutoff) then [] else Since(s, key, front)
  }

  ghost predicate Greatest(c: Cursor, cs: seq<Cursor>) {
    c in cs && forall d :: d in cs ==> !d.After(c)
  }

  /** After any history, of a store that began empty or with what was loaded, a key's
      cursor is the greatest it has had since it was last removed, and it has none if
      it has had none since. */
  lemma {:induction false} StoreIsMaxJoin(s: Contents, key: string, ops: seq<Op>)
    ensures var m, cs := ApplyAll(s, ops).cursors, Since(s, key, ops);
            && (key in m <==> cs != [])
            && (key in m ==> Greatest(m[key], cs))
            && (key in m && m[key].IsZero() ==> key in s.cursors && s.cursors[key].IsZero())
    decreases |ops|
  {
    if ops != [] {
      var front := ops[..|ops| - 1];
      StoreIsMaxJoin(s, key, front);
      var m := ApplyAll(s, front).cursors;
      match ops[|ops| - 1] {
        case Advance(k, c) =>
          if k == key && !c.IsZero() {
            GreatestSnoc(Since(s, key, front), Get(m, key), c);
          }
        case Forget(k) =>
        case Seen(_, _) =>
        case Prune(cutoff) =>
      }
    }
  }

  lemma GreatestSnoc(cs: seq<Cursor>, held: Cursor, c: Cursor)
    requires !c.IsZero() && (if cs == [] then held == ZERO else Greatest(held, cs))
    ensures Greatest(if c.After(held) then c else held, cs + [c])
  {
    forall d | d in cs + [c] ensures !d.After(if c.After(held) then c else held) {
      AfterIsStrictTotalOrder(d, c, held);
    }
  }

  /** The order in which cursors are reported makes no difference. */
  lemma OrderIrrelevant(s: Contents, key: string, ops1: seq<Op>, ops2: seq<Op>)
    requires forall c :: c in Since(s, key, ops1) <==> c in Since(s, key, ops2)
    ensures Get(ApplyAll(s, ops1).cursors, key) == Get(ApplyAll(s, ops2).cursors, key)
  {
    StoreIsMaxJoin(s, key, ops1);
    StoreIsMaxJoin(s, key, ops2);
    var a, b := Get(ApplyAll(s, ops1).cursors, key), Get(ApplyAll(s, ops2).cursors, key);
    AfterIsStrictTotalOrder(a, b, a);
    assert Since(s, key, ops1) == [] || Since(s, key, ops1)[0] in Since(s, key, ops2);
    assert Since(s, key, ops2) == [] || Since(s, key, ops2)[0] in Since(s, key, ops1);
  }

  /** Pruning removes no cursor of a pod seen since the cutoff. */
  lemma PruneSparesSeenPods(s: Contents, cutoff: nat, namespace: string, podName: string, podUID: string, container: string)
    requires SlashFree(namespace) && SlashFree(podName) && SlashFree(podUID) && SlashFree(container)
    ensures var key, out := StreamKey(namespace, podName, podUID, container), Apply(s, Prune(cutoff));
            if podUID in s.lastSeen && s.lastSeen[podUID] < cutoff then key !in out.cursors && podUID !in out.lastSeen
            else Get(out.cursors, key) == Get(s.cursors, key) && (key in out.cursors <==> key in s.cursors)
  {
    KeysIdentify(namespace, podName, podUID, container, namespace, podName, podUID, container);
  }
}
