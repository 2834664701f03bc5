/** A connection cut in the middle of a line: the scanner emits the part it has
    as the last record, because an input that ended in an error is flushed like one
    that ended. */
module Cuts {
  import opened Records
  import opened Tokenizers

  /** What the tokenizer can settle at the front of the bytes it has, whatever may
      follow them: the record, if any, and how it goes on. */
  datatype Bite = Bite(records: seq<Bytes>, skipping: bool, rest: Bytes)

  predicate Settles(max: nat, skipping: bool, s: Bytes) {
    IndexOf(s) < |s| || (!skipping && IndexOf(s) >= max)
  }

  function BiteOf(max: nat, behavior: Behavior, skipping: bool, s: Bytes): (b: Bite)
    requires 0 < max && Settles(max, skipping, s)
    ensures |b.rest| < |s|
  {
    var i := IndexOf(s);
    if skipping then Bite([], false, s[i + 1..])
    else if i >= max then Bite([s[..max]], behavior == Truncate, s[max..])
    else Bite([DropCR(s[..i])], false, s[i + 1..])
  }

  lemma BiteFirst(max: nat, behavior: Behavior, skipping: bool, s: Bytes)
    requires 0 < max && Settles(max, skipping, s)
    ensures var b := BiteOf(max, behavior, skipping, s);
            Remaining(max, behavior, skipping, s) == b.records + Remaining(max, behavior, b.skipping, b.rest)
  {
  }

  lemma BiteKept(max: nat, behavior: Behavior, skipping: bool, x: Bytes, y: Bytes)
    requires 0 < max && Settles(max, skipping, x)
    ensures Settles(max, skipping, x + y)
    ensures var b := BiteOf(max, behavior, skipping, x);
            BiteOf(max, behavior, skipping, x + y) == b.(rest := b.rest + y)
  {
    IndexOfConcat(x, y);
    var i := IndexOf(x);
    if i < |x| {
      assert (x + y)[i + 1..] == x[i + 1..] + y && (x + y)[..i] == x[..i];
    }
    if i >= max {
      assert (x + y)[max..] == x[max..] + y && (x + y)[..max] == x[..max];
    }
  }

  /** Where the tokenizer stands when the bytes s are all it got: whether it is
      skipping, and the part of a line it holds. */
  datatype Held = Held(skipping: bool, text: Bytes)

  function HeldAfter(max: nat, behavior: Behavior, skipping: bool, s: Bytes): Held
    requires 0 < max
    decreases |s|
  {
    if Settles(max, skipping, s) then
      var b := BiteOf(max, behavior, skipping, s);
      HeldAfter(max, behavior, b.skipping, b.rest)
    else Held(skipping, if skipping then [] else s)
  }

  /** The records that are complete when the bytes s are all there is. */
  function Complete(max: nat, behavior: Behavior, skipping: bool, s: Bytes): seq<Bytes>
    requires 0 < max
    decreases |s|
  {
    if Settles(max, skipping, s) then
      var b := BiteOf(max, behavior, skipping, s);
      b.records + Complete(max, behavior, b.skipping, b.rest)
    else []
  }

  /** What is emitted of the part of a line still held when the input ends. */
  function Flushed(h: Held): seq<Bytes> {
    if h.skipping || h.text == [] then [] else [DropCR(h.text)]
  }

  /** A stream cut after x and the uncut stream x + y share the complete records;
      the cut one then emits what it holds, the other goes on from there. */
  lemma {:induction false} CutRecords(max: nat, behavior: Behavior, skipping: bool, x: Bytes, y: Bytes)
    requires 0 < max
    ensures var h, done := HeldAfter(max, behavior, skipping, x), Complete(max, behavior, skipping, x);
            && Remaining(max, behavior, skipping, x) == done + Flushed(h)
            && Remaining(max, behavior, skipping, x + y) == done + Remaining(max, behavior, h.skipping, h.text + y)
    decreases |x|
  {
    if Settles(max, skipping, x) {
      var b := BiteOf(max, behavior, skipping, x);
      BiteFirst(max, behavior, skipping, x);
      BiteKept(max, behavior, skipping, x, y);
      BiteFirst(max, behavior, skipping, x + y);
      CutRecords(max, behavior, b.skipping, b.rest, y);
      var h, done := HeldAfter(max, behavior, b.skipping, b.rest), Complete(max, behavior, b.skipping, b.rest);
      ConcatAssociative(b.records, done, Flushed(h));
      ConcatAssociative(b.records, done, Remaining(max, behavior, h.skipping, h.text + y));
    } else {
      CutUnsettled(max, behavior, skipping, x, y);
    }
  }

  lemma CutUnsettled(max: nat, behavior: Behavior, skipping: bool, x: Bytes, y: Bytes)
    requires 0 < max && !Settles(max, skipping, x)
    ensures Remaining(max, behavior, skipping, x) == (if skipping || x == [] then [] else [DropCR(x)])
    ensures Remaining(max, behavior, skipping, x + y) == Remaining(max, behavior, skipping, (if skipping then [] else x) + y)
  {
    if skipping {
      SkipDrops(max, behavior, x, y);
      assert [] + y == y;
    }
  }

  lemma {:induction false} HeldIsPartial(max: nat, behavior: Behavior, skipping: bool, s: Bytes)
    requires 0 < max
    ensures var h := HeldAfter(max, behavior, skipping, s);
            |h.text| < max && IndexOf(h.text) == |h.text|
    decreases |s|
  {
    if Settles(max, skipping, s) {
      var b := BiteOf(max, behavior, skipping, s);
      HeldIsPartial(max, behavior, b.skipping, b.rest);
    }
  }

  /** The bytes before the next newline, all of them if there is none. */
  function UpToNewline(y: Bytes): Bytes {
    y[..IndexOf(y)]
  }

  /** A cut after x costs nothing when the tokenizer holds no part of a line, when
      the line was about to end, or when only its carriage return was missing. */
  predicate CutsCleanly(max: nat, h: Held, y: Bytes) {
    || h.skipping
    || h.text == []
    || UpToNewline(y) == []
    || (UpToNewline(y) == [CR] && h.text[|h.text| - 1] != CR && |h.text| + 1 < max)
  }

  lemma DropCRExtends(p: Bytes, e: Bytes)
    requires p != []
    ensures DropCR(p + e) == DropCR(p) <==> e == [] || (e == [CR] && p[|p| - 1] != CR)
  {
    if e == [] {
      assert p + e == p;
    } else if e == [CR] {
      assert (p + e)[..|p|] == p;
      assert |DropCR(p)| < |p| <==> p[|p| - 1] == CR;
    } else {
      assert |DropCR(p + e)| >= |p| + |e| - 1;
      if |e| == 1 {
        assert (p + e)[|p|] == e[0];
      }
    }
  }

  lemma FirstRecordWhenHeld(max: nat, behavior: Behavior, p: Bytes, y: Bytes)
    requires 0 < |p| < max && IndexOf(p) == |p|
    ensures var r := Remaining(max, behavior, false, p + y);
            && |r| > 0
            && r[0] == (if |p| + |UpToNewline(y)| >= max then (p + y)[..max] else DropCR(p + UpToNewline(y)))
  {
    IndexOfConcat(p, y);
    var i := IndexOf(p + y);
    assert (p + y)[..i] == p + UpToNewline(y);
    if i == |p + y| {
      assert (p + y)[..i] == p + y;
    }
  }

  /** Exactly when the records emitted before a cut are records of the uncut
      stream, which is what resuming after a cut relies on. */
  lemma CutKeepsRecordsWhen(max: nat, behavior: Behavior, x: Bytes, y: Bytes)
    requires 0 < max
    ensures Prefix(Remaining(max, behavior, false, x), Remaining(max, behavior, false, x + y))
       <==> CutsCleanly(max, HeldAfter(max, behavior, false, x), y)
  {
    var h, done := HeldAfter(max, behavior, false, x), Complete(max, behavior, false, x);
    CutRecords(max, behavior, false, x, y);
    HeldIsPartial(max, behavior, false, x);
    var rest := Remaining(max, behavior, h.skipping, h.text + y);
    PrefixAfter(done, Flushed(h), rest);
    if !h.skipping && h.text != [] {
      FirstRecordWhenHeld(max, behavior, h.text, y);
      DropCRExtends(h.text, UpToNewline(y));
      assert Prefix([DropCR(h.text)], rest) <==> rest[0] == DropCR(h.text) by {
        assert rest[..1] == [rest[0]];
      }
      assert |DropCR(h.text)| <= |h.text| < max;
    }
  }

  lemma PrefixAfter(done: seq<Bytes>, a: seq<Bytes>, b: seq<Bytes>)
    ensures Prefix(done + a, done + b) <==> Prefix(a, b)
  {
    if |a| <= |b| {
      assert (done + b)[..|done + a|] == done + b[..|a|];
      if done + a == done + b[..|a|] {
        assert a == (done + a)[|done|..] && b[..|a|] == (done + b[..|a|])[|done|..];
      }
    }
  }

  /** An unclean cut: "ab" is cut off "abc". */
  lemma UncleanCut()
    ensures var x: Bytes, y: Bytes := [97, 98], [99, LF];
            && Remaining(4, Split, false, x) == [x]
            && Remaining(4, Split, false, x + y) == [[97, 98, 99]]
            && !CutsCleanly(4, HeldAfter(4, Split, false, x), y)
  {
    var x: Bytes, y: Bytes := [97, 98], [99, LF];
    var line: Bytes := [97, 98, 99];
    IndexOfUnique(x, 2);
    IndexOfUnique(x + y, 3);
    IndexOfUnique(y, 1);
    assert (x + y)[..3] == line && (x + y)[4..] == [] && y[..1] == [99];
    assert Remaining(4, Split, false, x + y) == [DropCR((x + y)[..3])] + Remaining(4, Split, false, []);
  }
}
