/** internal/logline/split.go and scanner.go: cutting a byte stream into records
    of at most maxSize bytes, however the reads happen to chunk it. */
module Tokenizers {
  import opened Records

  newtype byte = x: int | 0 <= x < 256

  type Bytes = seq<byte>

  const LF: byte := 10
  const CR: byte := 13

  datatype Behavior = Split | Truncate

  /** The index of the first newline, or the length if there is none. */
  function IndexOf(s: Bytes): (i: nat)
    ensures i <= |s|
  {
    IndexFrom(s, 0)
  }

  function IndexFrom(s: Bytes, k: nat): (i: nat)
    requires k <= |s|
    ensures k <= i <= |s|
    decreases |s| - k
  {
    if k == |s| || s[k] == LF then k else IndexFrom(s, k + 1)
  }

  lemma IndexOfFirst(s: Bytes)
    ensures IndexOf(s) < |s| ==> s[IndexOf(s)] == LF
    ensures forall j :: 0 <= j < IndexOf(s) ==> s[j] != LF
  {
    IndexFromFirst(s, 0);
  }

  lemma {:induction false} IndexFromFirst(s: Bytes, k: nat)
    requires k <= |s|
    ensures IndexFrom(s, k) < |s| ==> s[IndexFrom(s, k)] == LF
    ensures forall j :: k <= j < IndexFrom(s, k) ==> s[j] != LF
    decreases |s| - k
  {
    if k < |s| && s[k] != LF {
      IndexFromFirst(s, k + 1);
    }
  }

  lemma IndexOfUnique(s: Bytes, i: nat)
    requires i <= |s| && (i < |s| ==> s[i] == LF) && forall j :: 0 <= j < i ==> s[j] != LF
    ensures IndexOf(s) == i
  {
    IndexOfFirst(s);
  }

  lemma IndexOfConcat(w: Bytes, r: Bytes)
    ensures IndexOf(w + r) == if IndexOf(w) < |w| then IndexOf(w) else |w| + IndexOf(r)
  {
    IndexOfFirst(w);
    IndexOfFirst(r);
    IndexOfUnique(w + r, if IndexOf(w) < |w| then IndexOf(w) else |w| + IndexOf(r));
  }

  function DropCR(s: Bytes): Bytes {
    if s != [] && s[|s| - 1] == CR then s[..|s| - 1] else s
  }

  /** What one call of a split function does: bytes to consume, the token if any,
      and for ours whether it is skipping afterwards and whether it chopped a line. */
  datatype Call = Call(advance: nat, token: Option<Bytes>, skipping: bool, chopped: bool)

  /** The standard library's line splitter. */
  function ScanLines(data: Bytes, atEOF: bool): Call {
    var i := IndexOf(data);
    if i < |data| then Call(i + 1, Some(DropCR(data[..i])), false, false)
    else if atEOF && data != [] then Call(|data|, Some(DropCR(data)), false, false)
    else Call(0, None, false, false)
  }

  function SplitCall(max: nat, behavior: Behavior, skipping: bool, data: Bytes, atEOF: bool): Call {
    if behavior == Truncate && skipping then
      var i := IndexOf(data);
      if i < |data| then Call(i + 1, None, false, false)
      else if atEOF then Call(|data|, None, false, false)
      else if |data| >= max then Call(|data|, None, true, false)
      else Call(0, None, true, false)
    else
      var call := ScanLines(data, atEOF);
      if call.advance == 0 && call.token.None? && |data| >= max then
        Call(max, Some(data[..max]), behavior == Truncate, true)
      else call
  }

  /** The closure SplitFunc returns. The calls of onOversize are counted. */
  class Splitter {
    const max: nat
    const behavior: Behavior
    var skipping: bool
    var oversized: nat

    constructor (max: nat, behavior: Behavior)
      ensures this.max == max && this.behavior == behavior && !skipping && oversized == 0
    {
      this.max := max;
      this.behavior := behavior;
      skipping := false;
      oversized := 0;
    }

    method SplitData(data: Bytes, atEOF: bool) returns (advance: nat, token: Option<Bytes>)
      requires skipping ==> behavior == Truncate
      modifies this
      ensures var call := SplitCall(max, behavior, old(skipping), data, atEOF);
              && advance == call.advance && token == call.token && skipping == call.skipping
              && oversized == old(oversized) + (if call.chopped then 1 else 0)
    {
      var i := IndexOf(data);
      if behavior == Truncate && skipping {
        if i < |data| {
          skipping := false;
          return i + 1, None;
        }
        if atEOF {
          skipping := false;
          return |data|, None;
        }
        if |data| >= max {
          return |data|, None;
        }
        return 0, None;
      }
      var call := ScanLines(data, atEOF);
      if call.advance == 0 && call.token.None? && |data| >= max {
        oversized := oversized + 1;
        if behavior == Truncate {
          skipping := true;
        }
        return max, Some(data[..max]);
      }
      return call.advance, call.token;
    }
  }

  /** The records still to come of the bytes s. */
  function Remaining(max: nat, behavior: Behavior, skipping: bool, s: Bytes): seq<Bytes>
    requires max > 0
    decreases |s|
  {
    var i := IndexOf(s);
    if skipping then
      if i < |s| then Remaining(max, behavior, false, s[i + 1..]) else []
    else if s == [] then []
    else if i >= max then [s[..max]] + Remaining(max, behavior, behavior == Truncate, s[max..])
    else if i < |s| then [DropCR(s[..i])] + Remaining(max, behavior, false, s[i + 1..])
    else [DropCR(s)]
  }

  /** The calls of onOversize still to come of the bytes s. */
  function Chops(max: nat, behavior: Behavior, skipping: bool, s: Bytes): nat
    requires max > 0
    decreases |s|
  {
    var i := IndexOf(s);
    if skipping then
      if i < |s| then Chops(max, behavior, false, s[i + 1..]) else 0
    else if i >= max then 1 + Chops(max, behavior, behavior == Truncate, s[max..])
    else if i < |s| then Chops(max, behavior, false, s[i + 1..])
    else 0
  }

  /** A call is sound when whatever it returns belongs next in the stream, and it
      returns no token only if there is room to read more. */
  predicate Sound(max: nat, behavior: Behavior, skipping: bool, window: Bytes, rest: Bytes, call: Call)
    requires 0 < max
  {
    && call.advance <= |window| && (call.skipping ==> behavior == Truncate)
    && (call.token.Some? ==> call.advance > 0)
    && Remaining(max, behavior, skipping, window + rest)
       == (if call.token.Some? then [call.token.value] else [])
          + Remaining(max, behavior, call.skipping, window[call.advance..] + rest)
    && Chops(max, behavior, skipping, window + rest)
       == (if call.chopped then 1 else 0)
          + Chops(max, behavior, call.skipping, window[call.advance..] + rest)
    && (call.token.None? ==> WaitsForMore(max, call.skipping, window[call.advance..]))
  }

  /** The window has room, and holds no newline the splitter is skipping to. */
  predicate WaitsForMore(max: nat, skipping: bool, window: Bytes) {
    |window| < max && (skipping ==> IndexOf(window) == |window|)
  }

  /** Every call on a window of at most max bytes, while more may come, is sound. */
  lemma CallSound(max: nat, behavior: Behavior, skipping: bool, window: Bytes, rest: Bytes)
    requires 0 < max && |window| <= max && (skipping ==> behavior == Truncate)
    ensures Sound(max, behavior, skipping, window, rest, SplitCall(max, behavior, skipping, window, false))
  {
    if IndexOf(window) < |window| {
      LineCallSound(max, behavior, skipping, window, rest);
    } else if |window| < max {
      WaitSound(max, behavior, skipping, window, rest);
    } else if skipping {
      SkipSound(max, behavior, window, rest);
    } else {
      ChopSound(max, behavior, window, rest);
    }
  }

  lemma WaitSound(max: nat, behavior: Behavior, skipping: bool, window: Bytes, rest: Bytes)
    requires |window| < max && (skipping ==> behavior == Truncate) && IndexOf(window) == |window|
    ensures Sound(max, behavior, skipping, window, rest, SplitCall(max, behavior, skipping, window, false))
  {
    assert SplitCall(max, behavior, skipping, window, false) == Call(0, None, skipping, false);
    assert window[0..] == window;
  }

  lemma SkipSound(max: nat, behavior: Behavior, window: Bytes, rest: Bytes)
    requires 0 < max == |window| && behavior == Truncate && IndexOf(window) == |window|
    ensures Sound(max, behavior, true, window, rest, SplitCall(max, behavior, true, window, false))
  {
    assert SplitCall(max, behavior, true, window, false) == Call(max, None, true, false);
    assert window[max..] == [] && [] + rest == rest;
    SkipDrops(max, behavior, window, rest);
  }

  lemma LineCallSound(max: nat, behavior: Behavior, skipping: bool, window: Bytes, rest: Bytes)
    requires 0 < max && |window| <= max && (skipping ==> behavior == Truncate) && IndexOf(window) < |window|
    ensures Sound(max, behavior, skipping, window, rest, SplitCall(max, behavior, skipping, window, false))
  {
    var i := IndexOf(window);
    IndexOfConcat(window, rest);
    SlicesOfConcat(window, rest, i);
    SlicesOfConcat(window, rest, i + 1);
    LineFirst(max, behavior, skipping, window + rest);
  }

  lemma LineFirst(max: nat, behavior: Behavior, skipping: bool, s: Bytes)
    requires 0 < max && IndexOf(s) < |s| && (!skipping ==> IndexOf(s) < max)
    ensures var rest := s[IndexOf(s) + 1..];
            && Remaining(max, behavior, skipping, s)
               == (if skipping then [] else [DropCR(s[..IndexOf(s)])]) + Remaining(max, behavior, false, rest)
            && Chops(max, behavior, skipping, s) == Chops(max, behavior, false, rest)
  {
  }

  lemma ChopSound(max: nat, behavior: Behavior, window: Bytes, rest: Bytes)
    requires 0 < max == |window| && IndexOf(window) == |window|
    ensures Sound(max, behavior, false, window, rest, SplitCall(max, behavior, false, window, false))
  {
    IndexOfConcat(window, rest);
    SlicesOfConcat(window, rest, max);
  }

  lemma SliceBeyond(a: Bytes, b: Bytes, i: nat, j: nat)
    requires i <= |b| && j == |a| + i
    ensures (a + b)[j..] == b[i..]
  {
  }

  lemma SlicesOfConcat(a: Bytes, b: Bytes, i: nat)
    requires i <= |a|
    ensures (a + b)[..i] == a[..i] && (a + b)[i..] == a[i..] + b
  {
  }

  lemma SkipDrops(max: nat, behavior: Behavior, window: Bytes, rest: Bytes)
    requires 0 < max && IndexOf(window) == |window|
    ensures Remaining(max, behavior, true, window + rest) == Remaining(max, behavior, true, rest)
    ensures Chops(max, behavior, true, window + rest) == Chops(max, behavior, true, rest)
  {
    SkipTarget(window, rest);
    SkippingRecords(max, behavior, window + rest);
    SkippingRecords(max, behavior, rest);
    SkippingChops(max, behavior, window + rest);
    SkippingChops(max, behavior, rest);
  }

  /** Where skipping gets to: behind the next newline, if there is one. */
  function Skipped(s: Bytes): Option<Bytes> {
    if IndexOf(s) < |s| then Some(s[IndexOf(s) + 1..]) else None
  }

  lemma SkipTarget(window: Bytes, rest: Bytes)
    requires IndexOf(window) == |window|
    ensures Skipped(window + rest) == Skipped(rest)
  {
    IndexOfConcat(window, rest);
    if IndexOf(rest) < |rest| {
      SliceBeyond(window, rest, IndexOf(rest) + 1, IndexOf(window + rest) + 1);
    }
  }

  lemma SkippingRecords(max: nat, behavior: Behavior, s: Bytes)
    requires 0 < max
    ensures Remaining(max, behavior, true, s)
         == (if Skipped(s).Some? then Remaining(max, behavior, false, Skipped(s).value) else [])
  {
  }

  lemma SkippingChops(max: nat, behavior: Behavior, s: Bytes)
    requires 0 < max
    ensures Chops(max, behavior, true, s)
         == (if Skipped(s).Some? then Chops(max, behavior, false, Skipped(s).value) else 0)
  {
  }

  /** What is emitted once the end of the input is known with window still unread. */
  function AtEnd(max: nat, behavior: Behavior, skipping: bool, window: Bytes): seq<Bytes>
    requires 0 < max && |window| <= max
    decreases |window|
  {
    var call := SplitCall(max, behavior, skipping, window, true);
    if call.token.None? then []
    else [call.token.value] + AtEnd(max, behavior, call.skipping, window[call.advance..])
  }

  /** The tokenizer drops bytes it should not, or keeps a carriage return it
      should not, in two cases only: the read that ends the input finds it skipping
      and still brings the start of another line, or it brings a last line of
      exactly max bytes that ends in a carriage return. */
  predicate EndsWell(max: nat, behavior: Behavior, skipping: bool, window: Bytes) {
    if behavior == Truncate && skipping then IndexOf(window) + 1 >= |window|
    else !(|window| == max && IndexOf(window) == |window| && max > 0 && window[max - 1] == CR)
  }

  lemma AtEndExactWhen(max: nat, behavior: Behavior, skipping: bool, window: Bytes)
    requires 0 < max && |window| <= max && (skipping ==> behavior == Truncate)
    ensures AtEnd(max, behavior, skipping, window) == Remaining(max, behavior, skipping, window)
       <==> EndsWell(max, behavior, skipping, window)
  {
    if skipping {
      AtEndSkipping(max, behavior, window);
    } else if |window| == max && IndexOf(window) == |window| {
      AtEndLastLine(max, behavior, window);
    } else {
      AtEndLines(max, behavior, window);
    }
  }

  predicate DrainsAll(max: nat, behavior: Behavior, window: Bytes)
    requires 0 < max && |window| <= max
  {
    AtEnd(max, behavior, false, window) == Remaining(max, behavior, false, window)
  }

  lemma {:induction false} AtEndLines(max: nat, behavior: Behavior, window: Bytes)
    requires |window| < max || (|window| == max && IndexOf(window) < |window|)
    ensures DrainsAll(max, behavior, window)
    decreases |window|
  {
    var i := IndexOf(window);
    if i < |window| {
      var rest := window[i + 1..];
      assert |rest| < max;
      AtEndLines(max, behavior, rest);
      AtEndOneLine(max, behavior, window, rest);
    } else {
      AtEndLastLine(max, behavior, window);
    }
  }

  lemma AtEndOneLine(max: nat, behavior: Behavior, window: Bytes, rest: Bytes)
    requires |window| <= max && IndexOf(window) < |window| && rest == window[IndexOf(window) + 1..]
    requires DrainsAll(max, behavior, rest)
    ensures DrainsAll(max, behavior, window)
  {
    LineCallAtEnd(max, behavior, window);
    LineFirst(max, behavior, false, window);
  }

  lemma LineCallAtEnd(max: nat, behavior: Behavior, window: Bytes)
    requires |window| <= max && IndexOf(window) < |window|
    ensures var i := IndexOf(window);
            AtEnd(max, behavior, false, window) == [DropCR(window[..i])] + AtEnd(max, behavior, false, window[i + 1..])
  {
    var i := IndexOf(window);
    LineCall(max, behavior, window, i);
    AtEndUnfolds(max, behavior, false, window, Call(i + 1, Some(DropCR(window[..i])), false, false));
  }

  lemma LineCall(max: nat, behavior: Behavior, window: Bytes, i: nat)
    requires i == IndexOf(window) < |window|
    ensures SplitCall(max, behavior, false, window, true) == Call(i + 1, Some(DropCR(window[..i])), false, false)
  {
  }

  lemma AtEndUnfolds(max: nat, behavior: Behavior, skipping: bool, window: Bytes, call: Call)
    requires 0 < max && |window| <= max
    requires call == SplitCall(max, behavior, skipping, window, true) && call.token.Some? && call.advance <= |window|
    ensures AtEnd(max, behavior, skipping, window)
         == [call.token.value] + AtEnd(max, behavior, call.skipping, window[call.advance..])
  {
  }

  lemma AtEndSkipping(max: nat, behavior: Behavior, window: Bytes)
    requires 0 < max && |window| <= max && behavior == Truncate
    ensures AtEnd(max, behavior, true, window) == []
    ensures Remaining(max, behavior, true, window) == [] <==> IndexOf(window) + 1 >= |window|
  {
    var i := IndexOf(window);
    if i < |window| {
      RemainingSome(max, behavior, window[i + 1..]);
    }
  }

  lemma AtEndLastLine(max: nat, behavior: Behavior, window: Bytes)
    requires 0 < max && |window| <= max && IndexOf(window) == |window|
    ensures AtEnd(max, behavior, false, window) == (if window == [] then [] else [DropCR(window)])
    ensures Remaining(max, behavior, false, window)
         == (if window == [] then [] else if |window| == max then [window] else [DropCR(window)])
    ensures |window| < max ==> DrainsAll(max, behavior, window)
    ensures DropCR(window) == window <==> window == [] || window[|window| - 1] != CR
  {
    if window != [] {
      assert window[|window|..] == [] && window[..|window|] == window;
      assert AtEnd(max, behavior, false, []) == [];
    }
    if window != [] && window[|window| - 1] == CR {
      assert |DropCR(window)| < |window|;
    }
  }

  lemma RemainingSome(max: nat, behavior: Behavior, s: Bytes)
    requires 0 < max
    ensures Remaining(max, behavior, false, s) == [] <==> s == []
  {
  }

  /** A call at the end of the input: it returns the next token still due, if any. */
  lemma AtEndCall(max: nat, behavior: Behavior, skipping: bool, window: Bytes, tokens: seq<Bytes>)
    requires 0 < max && |window| <= max && (skipping ==> behavior == Truncate)
    ensures var call := SplitCall(max, behavior, skipping, window, true);
            && call.advance <= |window| && (call.skipping ==> behavior == Truncate) && !call.chopped
            && (call.token.Some? ==> call.advance > 0)
            && tokens + AtEnd(max, behavior, skipping, window)
               == if call.token.None? then tokens
                  else tokens + [call.token.value] + AtEnd(max, behavior, call.skipping, window[call.advance..])
  {
    var call := SplitCall(max, behavior, skipping, window, true);
    if call.token.Some? {
      ConcatAssociative(tokens, [call.token.value], AtEnd(max, behavior, call.skipping, window[call.advance..]));
    }
  }

  /** The end of the scan: the input has ended, and the splitter is called on what
      is left until it returns no token. */
  method DrainWindow(splitter: Splitter, left: Bytes, before: seq<Bytes>) returns (tokens: seq<Bytes>, oversized: nat)
    requires 0 < splitter.max && |left| <= splitter.max
    requires splitter.skipping ==> splitter.behavior == Truncate
    modifies splitter
    ensures tokens == before + AtEnd(splitter.max, splitter.behavior, old(splitter.skipping), left)
    ensures oversized == old(splitter.oversized)
  {
    var window := left;
    tokens := before;
    var token := Some([]);
    while token.Some?
      invariant |window| <= splitter.max && (splitter.skipping ==> splitter.behavior == Truncate)
      invariant tokens + (if token.Some? then AtEnd(splitter.max, splitter.behavior, splitter.skipping, window) else [])
             == before + AtEnd(splitter.max, splitter.behavior, old(splitter.skipping), left)
      invariant splitter.oversized == old(splitter.oversized)
      decreases |window|, token.Some?
    {
      AtEndCall(splitter.max, splitter.behavior, splitter.skipping, window, tokens);
      var advance;
      advance, token := splitter.SplitData(window, true);
      window := window[advance..];
      if token.Some? {
        tokens := tokens + [token.value];
      }
    }
    oversized := splitter.oversized;
  }

  lemma ChopsNone(max: nat, behavior: Behavior, skipping: bool, s: Bytes)
    requires |s| < max && (skipping ==> IndexOf(s) == |s|)
    ensures Chops(max, behavior, skipping, s) == 0
    decreases |s|
  {
    var i := IndexOf(s);
    if i < |s| {
      ChopsNone(max, behavior, false, s[i + 1..]);
    }
  }

  /** The scan so far: the tokens and what is still to come make up the input's. */
  ghost predicate Underway(max: nat, behavior: Behavior, input: Bytes, tokens: seq<Bytes>, oversized: nat,
                           skipping: bool, window: Bytes, rest: Bytes) {
    && 0 < max && |window| <= max && (skipping ==> behavior == Truncate)
    && tokens + Remaining(max, behavior, skipping, window + rest) == Remaining(max, behavior, false, input)
    && oversized + Chops(max, behavior, skipping, window + rest) == Chops(max, behavior, false, input)
  }

  lemma UnderwayCall(max: nat, behavior: Behavior, input: Bytes, tokens: seq<Bytes>, oversized: nat,
                     skipping: bool, window: Bytes, rest: Bytes)
    requires Underway(max, behavior, input, tokens, oversized, skipping, window, rest)
    ensures var call := SplitCall(max, behavior, skipping, window, false);
            && call.advance <= |window|
            && (call.token.Some? ==> call.advance > 0)
            && Underway(max, behavior, input, tokens + (if call.token.Some? then [call.token.value] else []),
                        oversized + (if call.chopped then 1 else 0), call.skipping, window[call.advance..], rest)
            && (call.token.None? ==> WaitsForMore(max, call.skipping, window[call.advance..]))
  {
    CallSound(max, behavior, skipping, window, rest);
    var call := SplitCall(max, behavior, skipping, window, false);
    ConcatAssociative(tokens, if call.token.Some? then [call.token.value] else [],
                      Remaining(max, behavior, call.skipping, window[call.advance..] + rest));
  }

  lemma ConcatAssociative<T>(a: seq<T>, b: seq<T>, c: seq<T>)
    ensures (a + b) + c == a + (b + c)
  {
  }

  lemma UnderwayEnds(max: nat, behavior: Behavior, input: Bytes, tokens: seq<Bytes>, oversized: nat,
                     skipping: bool, window: Bytes)
    requires Underway(max, behavior, input, tokens, oversized, skipping, window, [])
    ensures tokens + AtEnd(max, behavior, skipping, window) == Remaining(max, behavior, false, input)
       <==> EndsWell(max, behavior, skipping, window)
    ensures WaitsForMore(max, skipping, window) ==> EndsWell(max, behavior, skipping, window)
    ensures WaitsForMore(max, skipping, window) ==> oversized == Chops(max, behavior, false, input)
  {
    assert window + [] == window;
    AtEndExactWhen(max, behavior, skipping, window);
    AppendedEqual(tokens, AtEnd(max, behavior, skipping, window), Remaining(max, behavior, skipping, window));
    if WaitsForMore(max, skipping, window) {
      ChopsNone(max, behavior, skipping, window);
    }
  }

  lemma ReadMoves(window: Bytes, rest: Bytes, n: nat)
    requires n <= |rest|
    ensures window + rest == (window + rest[..n]) + rest[n..]
    ensures |rest[n..]| == |rest| - n && |window + rest[..n]| == |window| + n
  {
  }

  /** One round of the scanner while the input has not ended: a call if there is
      anything to look at, and a read unless it returned a token. The reader brings
      as many bytes as it likes; it reports the end on its own or, if it likes,
      with the last bytes. */
  method ScanOn(splitter: Splitter, window: Bytes, rest: Bytes, tokens: seq<Bytes>, ghost input: Bytes)
    returns (newWindow: Bytes, newRest: Bytes, newTokens: seq<Bytes>, ended: bool, separate: bool)
    requires Underway(splitter.max, splitter.behavior, input, tokens, splitter.oversized, splitter.skipping, window, rest)
    modifies splitter
    ensures Underway(splitter.max, splitter.behavior, input, newTokens, splitter.oversized, splitter.skipping, newWindow, newRest)
    ensures ended ==> newRest == []
    ensures ended && separate ==> WaitsForMore(splitter.max, splitter.skipping, newWindow)
    ensures ended || |newWindow| + |newRest| < |window| + |rest|
         || (|newWindow| + |newRest| == |window| + |rest| && |newRest| < |rest|)
  {
    newWindow, newRest, newTokens, ended, separate := window, rest, tokens, false, true;
    var token := None;
    if window != [] {
      UnderwayCall(splitter.max, splitter.behavior, input, tokens, splitter.oversized, splitter.skipping, window, rest);
      var advance;
      advance, token := splitter.SplitData(window, false);
      newWindow := window[advance..];
    }
    if token.Some? {
      newTokens := tokens + [token.value];
      return;
    }
    assert newTokens + [] == newTokens;
    if rest == [] {
      ended := true;
    } else {
      var n: nat :| 1 <= n <= |rest| && |newWindow| + n <= splitter.max;
      ReadMoves(newWindow, rest, n);
      newWindow, newRest := newWindow + rest[..n], rest[n..];
      var withEnd: bool := *;
      if newRest == [] && withEnd {
        ended, separate := true, false;
      }
    }
  }

  /** Reading the whole input through the splitter, as bufio.Scanner drives it.
      lastWindow and lastSkipping are what the end of the input found; separate
      says it was reported on its own. */
  method ScanAll(max: nat, behavior: Behavior, input: Bytes)
    returns (tokens: seq<Bytes>, oversized: nat, lastWindow: Bytes, lastSkipping: bool, separate: bool)
    requires 0 < max
    ensures tokens == Remaining(max, behavior, false, input) <==> EndsWell(max, behavior, lastSkipping, lastWindow)
    ensures separate ==> tokens == Remaining(max, behavior, false, input)
    ensures separate ==> oversized == Chops(max, behavior, false, input)
  {
    var splitter := new Splitter(max, behavior);
    var window: Bytes, rest, ended := [], input, false;
    tokens, separate := [], true;
    assert window + rest == input;
    while !ended
      invariant fresh(splitter) && splitter.max == max && splitter.behavior == behavior
      invariant Underway(max, behavior, input, tokens, splitter.oversized, splitter.skipping, window, rest)
      invariant ended ==> rest == []
      invariant ended && separate ==> WaitsForMore(max, splitter.skipping, window)
      decreases !ended, |window| + |rest|, |rest|
    {
      window, rest, tokens, ended, separate := ScanOn(splitter, window, rest, tokens, input);
    }
    lastWindow, lastSkipping := window, splitter.skipping;
    UnderwayEnds(max, behavior, input, tokens, splitter.oversized, lastSkipping, lastWindow);
    tokens, oversized := DrainWindow(splitter, window, tokens);
  }

  lemma AppendedEqual(a: seq<Bytes>, b: seq<Bytes>, c: seq<Bytes>)
    ensures a + b == a + c <==> b == c
  {
    if a + b == a + c {
      assert b == (a + b)[|a|..] && c == (a + c)[|a|..];
    }
  }
}
