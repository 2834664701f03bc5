/** receiver.go: the key of one container's stream, and the pod it belongs to. */
module Keys {

  function StreamKey(namespace: string, podName: string, podUID: string, container: string): string {
    namespace + "/" + podName + "/" + podUID + "/" + container
  }

  /** strings.Split(s, "/"). */
  function SplitSlash(s: string): (parts: seq<string>)
    ensures parts != []
    decreases |s|
  {
    var i := FirstSlash(s);
    if i == |s| then [s] else [s[..i]] + SplitSlash(s[i + 1..])
  }

  function FirstSlash(s: string): (i: nat)
    ensures i <= |s| && (i < |s| ==> s[i] == '/') && forall j :: 0 <= j < i ==> s[j] != '/'
  {
    if s == "" || s[0] == '/' then 0
    else
      var i := FirstSlash(s[1..]);
      assert forall j :: 1 <= j < 1 + i ==> s[j] == s[1..][j - 1];
      1 + i
  }

  function PodUIDFromStreamKey(key: string): string {
    var parts := SplitSlash(key);
    if |parts| != 4 then "" else parts[2]
  }

  predicate SlashFree(s: string) {
    '/' !in s
  }

  lemma SplitFront(head: string, tail: string)
    requires SlashFree(head)
    ensures SplitSlash(head + "/" + tail) == [head] + SplitSlash(tail)
  {
    var s := head + "/" + tail;
    assert FirstSlash(s) == |head| by {
      assert forall j :: 0 <= j < |head| ==> s[j] == head[j];
      assert s[|head|] == '/';
    }
    assert s[..|head|] == head && s[|head| + 1..] == tail;
  }

  lemma SplitLast(s: string)
    requires SlashFree(s)
    ensures SplitSlash(s) == [s]
  {
    assert FirstSlash(s) == |s|;
  }

  /** A key splits into the segments it was built from. */
  lemma KeySplits(namespace: string, podName: string, podUID: string, container: string)
    requires SlashFree(namespace) && SlashFree(podName) && SlashFree(podUID) && SlashFree(container)
    ensures SplitSlash(StreamKey(namespace, podName, podUID, container)) == [namespace, podName, podUID, container]
  {
    var two := podUID + "/" + container;
    var three := podName + "/" + two;
    KeyNests(namespace, podName, podUID, container);
    SplitLast(container);
    SplitFront(podUID, container);
    SplitFront(podName, two);
    SplitFront(namespace, three);
    FourSegments(namespace, podName, podUID, container);
  }

  lemma FourSegments(a: string, b: string, c: string, d: string)
    ensures [a] + ([b] + ([c] + [d])) == [a, b, c, d]
  {
  }

  lemma KeyNests(a: string, b: string, c: string, d: string)
    ensures StreamKey(a, b, c, d) == a + "/" + (b + "/" + (c + "/" + d))
  {
    Associative(a + "/" + b + "/", c + "/", d);
    Associative(a + "/", b + "/", c + "/" + d);
    assert a + "/" + b + "/" + c + "/" == a + "/" + b + "/" + (c + "/");
  }

  lemma Associative(a: string, b: string, c: string)
    ensures (a + b) + c == a + (b + c)
  {
  }

  /** Distinct containers have distinct keys, and a key gives back its pod's UID. */
  lemma KeysIdentify(n1: string, p1: string, u1: string, c1: string, n2: string, p2: string, u2: string, c2: string)
    requires SlashFree(n1) && SlashFree(p1) && SlashFree(u1) && SlashFree(c1)
    requires SlashFree(n2) && SlashFree(p2) && SlashFree(u2) && SlashFree(c2)
    ensures StreamKey(n1, p1, u1, c1) == StreamKey(n2, p2, u2, c2) ==> n1 == n2 && p1 == p2 && u1 == u2 && c1 == c2
    ensures PodUIDFromStreamKey(StreamKey(n1, p1, u1, c1)) == u1
  {
    KeySplits(n1, p1, u1, c1);
    KeySplits(n2, p2, u2, c2);
    if StreamKey(n1, p1, u1, c1) == StreamKey(n2, p2, u2, c2) {
      assert [n1, p1, u1, c1] == [n2, p2, u2, c2];
      assert n1 == [n1, p1, u1, c1][0] == [n2, p2, u2, c2][0];
      assert p1 == [n1, p1, u1, c1][1] == [n2, p2, u2, c2][1];
      assert u1 == [n1, p1, u1, c1][2] == [n2, p2, u2, c2][2];
      assert c1 == [n1, p1, u1, c1][3] == [n2, p2, u2, c2][3];
    }
  }
}
