/** What the tokenizer's records are, said line by line. */
module Lines {
  import opened Records
  import opened Tokenizers

  /** A physical line; only the last of a stream may lack its newline. */
  datatype Line = Line(text: Bytes, terminated: bool)

  function FirstLine(s: Bytes): Line {
    Line(s[..IndexOf(s)], IndexOf(s) < |s|)
  }

  function AfterLine(s: Bytes): (rest: Bytes)
    ensures s != [] ==> |rest| < |s|
  {
    if IndexOf(s) < |s| then s[IndexOf(s) + 1..] else []
  }

  function LinesOf(s: Bytes): seq<Line>
    decreases |s|
  {
    if s == [] then [] else [FirstLine(s)] + LinesOf(AfterLine(s))
  }

  function Unlines(lines: seq<Line>): Bytes {
    if lines == [] then []
    else lines[0].text + (if lines[0].terminated then [LF] else []) + Unlines(lines[1..])
  }

  lemma FirstLineThenRest(s: Bytes)
    requires s != []
    ensures FirstLine(s).text + (if FirstLine(s).terminated then [LF] else []) + AfterLine(s) == s
    ensures IndexOf(FirstLine(s).text) == |FirstLine(s).text|
    ensures FirstLine(s).terminated || (AfterLine(s) == [] && FirstLine(s).text != [])
  {
    IndexOfFirst(s);
    IndexOfUnique(FirstLine(s).text, IndexOf(s));
  }

  /** Each line holds no newline, and only the last may lack its own, and then holds
      something. */
  ghost predicate WholeLines(lines: seq<Line>) {
    && (forall k :: 0 <= k < |lines| ==> IndexOf(lines[k].text) == |lines[k].text|)
    && (forall k :: 0 <= k < |lines| - 1 ==> lines[k].terminated)
    && (lines != [] && !lines[|lines| - 1].terminated ==> lines[|lines| - 1].text != [])
  }

  lemma WholeLinesFront(line: Line, lines: seq<Line>)
    requires WholeLines(lines) && IndexOf(line.text) == |line.text|
    requires line.terminated || (lines == [] && line.text != [])
    ensures WholeLines([line] + lines)
  {
    var all := [line] + lines;
    assert forall k :: 1 <= k < |all| ==> all[k] == lines[k - 1];
  }

  /** The lines of a stream are what its newlines divide it into. */
  lemma {:induction false} LinesPartition(s: Bytes)
    ensures Unlines(LinesOf(s)) == s && WholeLines(LinesOf(s))
    decreases |s|
  {
    if s != [] {
      FirstLineThenRest(s);
      LinesPartition(AfterLine(s));
      UnlinesFront(FirstLine(s), LinesOf(AfterLine(s)));
      WholeLinesFront(FirstLine(s), LinesOf(AfterLine(s)));
    }
  }

  lemma UnlinesFront(line: Line, lines: seq<Line>)
    ensures Unlines([line] + lines) == line.text + (if line.terminated then [LF] else []) + Unlines(lines)
  {
    assert ([line] + lines)[1..] == lines;
  }

  // ---------------------------------------------------------------------
  // Split
  // ---------------------------------------------------------------------

  /** A line cut into full pieces of max bytes, and then the rest. */
  function Pieces(max: nat, line: Line): seq<Bytes>
    requires 0 < max
    decreases |line.text|
  {
    if |line.text| >= max then [line.text[..max]] + Pieces(max, Line(line.text[max..], line.terminated))
    else if line.text == [] && !line.terminated then []
    else [DropCR(line.text)]
  }

  function AllPieces(max: nat, lines: seq<Line>): seq<Bytes>
    requires 0 < max
  {
    if lines == [] then [] else Pieces(max, lines[0]) + AllPieces(max, lines[1..])
  }

  /** How many times max fits into n, and what is left. */
  function Full(n: nat, max: nat): nat
    requires 0 < max
  {
    if n < max then 0 else 1 + Full(n - max, max)
  }

  function Rest(n: nat, max: nat): nat
    requires 0 < max
  {
    if n < max then n else Rest(n - max, max)
  }

  lemma {:induction false} FullAndRest(n: nat, max: nat)
    requires 0 < max
    ensures Full(n, max) == n / max && Rest(n, max) == n % max
    decreases n
  {
    if n < max {
      DivModUnique(n, max, 0, n);
    } else {
      FullAndRest(n - max, max);
      DivModUnique(n, max, (n - max) / max + 1, (n - max) % max);
    }
  }

  lemma DivModUnique(n: nat, max: nat, q: nat, r: nat)
    requires 0 < max && r < max && n == q * max + r
    ensures q == n / max && r == n % max
  {
    var d := q - n / max;
    assert d * max == n % max - r;
    MulGrows(d, max);
  }

  lemma MulGrows(d: int, max: nat)
    requires 0 < max
    ensures d >= 1 ==> d * max >= max
    ensures d <= -1 ==> d * max <= -(max as int)
  {
  }

  function FullPieces(max: nat, lines: seq<Line>): nat
    requires 0 < max
  {
    if lines == [] then 0 else Full(|lines[0].text|, max) + FullPieces(max, lines[1..])
  }

  /** Cutting the first piece off a stream shortens its first line and nothing else. */
  lemma FirstLineAfterPiece(max: nat, s: Bytes)
    requires 0 < max <= IndexOf(s)
    ensures FirstLine(s[max..]) == Line(FirstLine(s).text[max..], FirstLine(s).terminated)
    ensures FirstLine(s).text[..max] == s[..max]
    ensures AfterLine(s[max..]) == AfterLine(s)
  {
    IndexPastPiece(s, max);
    SlicesPastPiece(s, max, IndexOf(s), IndexOf(s[max..]));
  }

  lemma IndexPastPiece(s: Bytes, max: nat)
    requires max <= IndexOf(s)
    ensures IndexOf(s[max..]) == IndexOf(s) - max
  {
    IndexOfFirst(s);
    IndexOfUnique(s[max..], IndexOf(s) - max);
  }

  lemma SlicesPastPiece(s: Bytes, max: nat, i: nat, j: nat)
    requires max <= i <= |s| && j == i - max
    ensures s[max..][..j] == s[..i][max..]
    ensures s[..i][..max] == s[..max]
    ensures i < |s| ==> s[max..][j + 1..] == s[i + 1..]
  {
  }

  /** One line of the stream after another. */
  lemma LinesUnfold(max: nat, s: Bytes)
    requires 0 < max && s != []
    ensures AllPieces(max, LinesOf(s)) == Pieces(max, FirstLine(s)) + AllPieces(max, LinesOf(AfterLine(s)))
    ensures FullPieces(max, LinesOf(s)) == Full(|FirstLine(s).text|, max) + FullPieces(max, LinesOf(AfterLine(s)))
    ensures Heads(max, LinesOf(s)) == [Head(max, FirstLine(s))] + Heads(max, LinesOf(AfterLine(s)))
    ensures LongLines(max, LinesOf(s))
         == (if |FirstLine(s).text| >= max then 1 else 0) + LongLines(max, LinesOf(AfterLine(s)))
  {
    assert LinesOf(s)[1..] == LinesOf(AfterLine(s));
  }

  /** Splitting emits, for every chunking, each line's full pieces and its rest, and
      calls onOversize once for every full piece. */
  lemma {:induction false} SplitRecords(max: nat, s: Bytes)
    requires 0 < max
    ensures Remaining(max, Split, false, s) == AllPieces(max, LinesOf(s))
    ensures Chops(max, Split, false, s) == FullPieces(max, LinesOf(s))
    decreases |s|
  {
    if s != [] {
      LinesUnfold(max, s);
      if IndexOf(s) >= max {
        SplitRecords(max, s[max..]);
        SplitFirstPiece(max, s);
      } else {
        SplitRecords(max, AfterLine(s));
        SplitShortLine(max, s);
      }
    }
  }

  lemma SplitShortLine(max: nat, s: Bytes)
    requires 0 < max && s != [] && IndexOf(s) < max
    ensures Remaining(max, Split, false, s) == Pieces(max, FirstLine(s)) + Remaining(max, Split, false, AfterLine(s))
    ensures Chops(max, Split, false, s) == Chops(max, Split, false, AfterLine(s))
    ensures Full(|FirstLine(s).text|, max) == 0
  {
    assert IndexOf(s) == |s| ==> s[..|s|] == s;
    assert IndexOf([]) == 0;
  }

  lemma SplitFirstPiece(max: nat, s: Bytes)
    requires 0 < max <= IndexOf(s)
    ensures Pieces(max, FirstLine(s)) + AllPieces(max, LinesOf(AfterLine(s))) == [s[..max]] + AllPieces(max, LinesOf(s[max..]))
    ensures Full(|FirstLine(s).text|, max) + FullPieces(max, LinesOf(AfterLine(s))) == 1 + FullPieces(max, LinesOf(s[max..]))
  {
    FirstLineAfterPiece(max, s);
    PieceOff(max, FirstLine(s), FirstLine(s[max..]), AllPieces(max, LinesOf(AfterLine(s))));
    RestUnfolds(max, s[max..]);
  }

  lemma PieceOff(max: nat, line: Line, short: Line, after: seq<Bytes>)
    requires 0 < max <= |line.text| && short == Line(line.text[max..], line.terminated)
    ensures Pieces(max, line) + after == [line.text[..max]] + (Pieces(max, short) + after)
    ensures Full(|line.text|, max) == 1 + Full(|short.text|, max)
  {
    ConcatAssociative([line.text[..max]], Pieces(max, short), after);
  }

  lemma RestUnfolds(max: nat, s: Bytes)
    requires 0 < max
    ensures AllPieces(max, LinesOf(s)) == Pieces(max, FirstLine(s)) + AllPieces(max, LinesOf(AfterLine(s)))
    ensures FullPieces(max, LinesOf(s)) == Full(|FirstLine(s).text|, max) + FullPieces(max, LinesOf(AfterLine(s)))
  {
    if s != [] {
      LinesUnfold(max, s);
    }
  }

  function Joined(pieces: seq<Bytes>): Bytes {
    if pieces == [] then [] else pieces[0] + Joined(pieces[1..])
  }

  /** The pieces of a line join back to it exactly when its rest is empty or does
      not end in a carriage return. */
  lemma PiecesJoinWhen(max: nat, line: Line)
    requires 0 < max
    ensures Joined(Pieces(max, line)) == line.text
       <==> |line.text| % max == 0 || line.text[|line.text| - 1] != CR
  {
    FullAndRest(|line.text|, max);
    PiecesJoin(max, line);
  }

  lemma {:induction false} PiecesJoin(max: nat, line: Line)
    requires 0 < max
    ensures Joined(Pieces(max, line)) == line.text
       <==> Rest(|line.text|, max) == 0 || line.text == [] || line.text[|line.text| - 1] != CR
    decreases |line.text|
  {
    if |line.text| >= max {
      var rest := Line(line.text[max..], line.terminated);
      PiecesJoin(max, rest);
      JoinedFront(line.text[..max], Pieces(max, rest), line.text, max);
    } else {
      assert Joined([DropCR(line.text)]) == DropCR(line.text);
      if line.text != [] && line.text[|line.text| - 1] == CR {
        assert |DropCR(line.text)| < |line.text|;
      }
    }
  }

  lemma JoinedFront(first: Bytes, rest: seq<Bytes>, text: Bytes, max: nat)
    requires max <= |text| && first == text[..max]
    ensures Joined([first] + rest) == text <==> Joined(rest) == text[max..]
  {
    assert ([first] + rest)[1..] == rest;
    assert Joined([first] + rest) == first + Joined(rest);
    if first + Joined(rest) == text {
      assert Joined(rest) == (first + Joined(rest))[max..];
    }
    if Joined(rest) == text[max..] {
      assert first + Joined(rest) == text;
    }
  }

  /** A line of n bytes comes as n / max pieces of exactly max bytes and a shorter
      rest. The rest is empty when max divides n; then an unterminated line has none. */
  lemma PiecesShape(max: nat, line: Line)
    requires 0 < max
    ensures var pieces, n := Pieces(max, line), |line.text|;
            && |pieces| == n / max + (if line.terminated || n % max > 0 then 1 else 0)
            && (forall k :: 0 <= k < n / max ==> |pieces[k]| == max)
            && (|pieces| > n / max ==> |pieces[n / max]| < max && (n % max == 0 ==> pieces[n / max] == []))
  {
    FullAndRest(|line.text|, max);
    PiecesSizes(max, line);
  }

  lemma {:induction false} PiecesSizes(max: nat, line: Line)
    requires 0 < max
    ensures var pieces, full, rest := Pieces(max, line), Full(|line.text|, max), Rest(|line.text|, max);
            && |pieces| == full + (if line.terminated || rest > 0 then 1 else 0)
            && (forall k :: 0 <= k < full ==> |pieces[k]| == max)
            && (|pieces| > full ==> |pieces[full]| < max && (rest == 0 ==> pieces[full] == []))
    decreases |line.text|
  {
    if |line.text| >= max {
      PiecesSizes(max, Line(line.text[max..], line.terminated));
    }
  }

  // ---------------------------------------------------------------------
  // Truncate
  // ---------------------------------------------------------------------

  /** The head of a line: its first max bytes, all of it if it is shorter. */
  function Head(max: nat, line: Line): Bytes {
    if |line.text| >= max then line.text[..max] else DropCR(line.text)
  }

  function Heads(max: nat, lines: seq<Line>): seq<Bytes>
    ensures |Heads(max, lines)| == |lines|
    ensures forall k :: 0 <= k < |lines| ==> Heads(max, lines)[k] == Head(max, lines[k])
  {
    if lines == [] then [] else [Head(max, lines[0])] + Heads(max, lines[1..])
  }

  function LongLines(max: nat, lines: seq<Line>): nat {
    if lines == [] then 0 else (if |lines[0].text| >= max then 1 else 0) + LongLines(max, lines[1..])
  }

  /** Truncating emits exactly one record a line, its head, skipping no byte of the
      next; onOversize is called once for every line of at least max bytes. */
  lemma {:induction false} TruncateRecords(max: nat, s: Bytes)
    requires 0 < max
    ensures Remaining(max, Truncate, false, s) == Heads(max, LinesOf(s))
    ensures Chops(max, Truncate, false, s) == LongLines(max, LinesOf(s))
    decreases |s|
  {
    if s != [] {
      LinesUnfold(max, s);
      TruncateRecords(max, AfterLine(s));
      TruncateFirst(max, s);
    }
  }

  lemma TruncateFirst(max: nat, s: Bytes)
    requires 0 < max && s != []
    ensures Remaining(max, Truncate, false, s) == [Head(max, FirstLine(s))] + Remaining(max, Truncate, false, AfterLine(s))
    ensures Chops(max, Truncate, false, s)
         == (if |FirstLine(s).text| >= max then 1 else 0) + Chops(max, Truncate, false, AfterLine(s))
  {
    if IndexOf(s) >= max {
      FirstLineAfterPiece(max, s);
      IndexPastPiece(s, max);
    } else {
      assert IndexOf(s) == |s| ==> s[..|s|] == s;
    }
    assert IndexOf([]) == 0;
  }

  // ---------------------------------------------------------------------
  // Reads that end badly
  // ---------------------------------------------------------------------

  /** A read that brings the end together with its last bytes can lose a whole
      line. Of "xxxxx\na\n" read as "xxxx" and then the rest with the end, at most 4
      bytes a record: the first call chops the line and leaves the splitter skipping;
      at the end it skips the last "x" and stops, with the line "a" still unread. */
  lemma EndWithDataLosesLine()
    ensures var input: Bytes := [120, 120, 120, 120, 120, LF, 97, LF];
            var first := SplitCall(4, Truncate, false, input[..4], false);
            && first == Call(4, Some(input[..4]), true, true)
            && AtEnd(4, Truncate, first.skipping, input[4..]) == []
            && Remaining(4, Truncate, false, input) == [input[..4], [97]]
  {
    var input: Bytes := [120, 120, 120, 120, 120, LF, 97, LF];
    var window: Bytes := [120, LF, 97, LF];
    var line: Bytes := [97, LF];
    IndexOfUnique(input, 5);
    IndexOfUnique(input[..4], 4);
    assert input[4..] == window && input[..4][..4] == input[..4];
    assert IndexOf(input) == 5;
    assert Remaining(4, Truncate, false, input) == [input[..4]] + Remaining(4, Truncate, true, input[4..]);
    SkippedLine(window, line);
  }

  lemma SkippedLine(window: Bytes, line: Bytes)
    requires window == [120, LF] + line && line == [97, LF]
    ensures AtEnd(4, Truncate, true, window) == [] && Remaining(4, Truncate, true, window) == [[97]]
  {
    IndexOfUnique(window, 1);
    assert window[2..] == line;
    IndexOfUnique(line, 1);
    assert line[..1] == [97] && line[2..] == [];
    assert Remaining(4, Truncate, false, line) == [DropCR(line[..1])] + Remaining(4, Truncate, false, []);
  }
}
