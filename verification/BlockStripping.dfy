/** `_strip_large_braced_blocks`: a text cut into characters, closed blocks and an unclosed tail, of which the long
    ones are replaced. */
module BlockStripping {
  import opened Braces

  const PLACEHOLDER := "[JSON payload omitted]"

  datatype Segments =
    | Done
    | Outside(c: char, rest: Segments)
    | Block(text: string, rest: Segments)
    | Tail(text: string)

  /** The segments of `t` from `s` on. */
  function Cut(t: string, s: nat): Segments
    requires s <= |t|
    decreases |t| - s
  {
    if s == |t| then Done
    else if t[s] != '{' then Outside(t[s], Cut(t, s + 1))
    else
      var c := Close(t, s, 0);
      if c < |t| then Block(t[s..c + 1], Cut(t, c + 1)) else Tail(t[s..])
  }

  function Raw(segs: Segments): string {
    match segs
    case Done => ""
    case Outside(c, rest) => [c] + Raw(rest)
    case Block(x, rest) => x + Raw(rest)
    case Tail(x) => x
  }

  function Fit(x: string, threshold: int): string { if |x| > threshold then PLACEHOLDER else x }

  function Kept(segs: Segments, threshold: int): string {
    match segs
    case Done => ""
    case Outside(c, rest) => [c] + Kept(rest, threshold)
    case Block(x, rest) => Fit(x, threshold) + Kept(rest, threshold)
    case Tail(x) => Fit(x, threshold)
  }

  function Strip(t: string, threshold: int): string { Kept(Cut(t, 0), threshold) }

  // ---- The loop ----

  /** The pieces collected so far, the latest outermost. */
  datatype Pile = Empty | Plus(earlier: Pile, piece: string)

  function Join(pieces: Pile): string {
    match pieces
    case Empty => ""
    case Plus(earlier, p) => Join(earlier) + p
  }

  /** With the pieces collected so far, what comes out if the text is read on from `s`. */
  ghost predicate Collected(t: string, pieces: Pile, s: nat, threshold: int) {
    s <= |t| && Join(pieces) + Kept(Cut(t, s), threshold) == Strip(t, threshold)
  }

  lemma {:induction false} CollectChar(t: string, pieces: Pile, s: nat, threshold: int)
    requires Collected(t, pieces, s, threshold) && s < |t| && t[s] != '{'
    ensures Collected(t, Plus(pieces, [t[s]]), s + 1, threshold)
  {
    Append(pieces, [t[s]], Kept(Cut(t, s + 1), threshold));
  }

  lemma {:induction false} CollectBlock(t: string, pieces: Pile, s: nat, threshold: int)
    requires Collected(t, pieces, s, threshold) && s < |t| && t[s] == '{' && Close(t, s, 0) < |t|
    ensures var c := Close(t, s, 0); Collected(t, Plus(pieces, Fit(t[s..c + 1], threshold)), c + 1, threshold)
  {
    var c := Close(t, s, 0);
    Append(pieces, Fit(t[s..c + 1], threshold), Kept(Cut(t, c + 1), threshold));
  }

  lemma {:induction false} CollectTail(t: string, pieces: Pile, s: nat, threshold: int)
    requires Collected(t, pieces, s, threshold) && s < |t| && t[s] == '{' && Close(t, s, 0) == |t|
    ensures Join(Plus(pieces, Fit(t[s..], threshold))) == Strip(t, threshold)
  {
    Append(pieces, Fit(t[s..], threshold), "");
  }

  lemma {:induction false} Append(pieces: Pile, p: string, rest: string)
    ensures Join(Plus(pieces, p)) + rest == Join(pieces) + (p + rest)
  {
  }

  /** At position `i` the scan is `depth` braces deep, inside the block that starts at `s`. */
  ghost predicate Inside(t: string, s: int, i: nat, depth: int) {
    0 <= s < i <= |t| && depth > 0 && t[s] == '{' && Close(t, s, 0) == Close(t, i, depth)
  }

  lemma {:induction false} StepInside(t: string, s: int, i: nat, depth: int)
    requires Inside(t, s, i, depth) && i < |t|
    ensures t[i] == '{' ==> Inside(t, s, i + 1, depth + 1)
    ensures t[i] == '}' && depth > 1 ==> Inside(t, s, i + 1, depth - 1)
    ensures t[i] == '}' && depth == 1 ==> Close(t, s, 0) == i
    ensures t[i] != '{' && t[i] != '}' ==> Inside(t, s, i + 1, depth)
  {
  }

  lemma {:induction false} EnterBlock(t: string, i: nat)
    requires i < |t| && t[i] == '{'
    ensures Inside(t, i, i + 1, 1)
  {
  }

  /** Where the loop stands before character `i`: outside all blocks, or `depth` braces deep in the one that starts at
      `start`, which is collected only when it ends. */
  ghost predicate Standing(t: string, pieces: Pile, i: nat, depth: int, start: int, threshold: int) {
    if start < 0 then start == -1 && depth == 0 && Collected(t, pieces, i, threshold)
    else Inside(t, start, i, depth) && Collected(t, pieces, start, threshold)
  }

  lemma {:induction false} StandingOutside(t: string, pieces: Pile, i: nat, threshold: int)
    requires Standing(t, pieces, i, 0, -1, threshold) && i < |t|
    ensures t[i] == '{' ==> Standing(t, pieces, i + 1, 1, i, threshold)
    ensures t[i] != '{' ==> Standing(t, Plus(pieces, [t[i]]), i + 1, 0, -1, threshold)
  {
    if t[i] == '{' { EnterBlock(t, i); } else { CollectChar(t, pieces, i, threshold); }
  }

  lemma {:induction false} StandingInside(t: string, pieces: Pile, i: nat, depth: int, start: nat, threshold: int)
    requires Standing(t, pieces, i, depth, start, threshold) && i < |t|
    ensures t[i] == '{' ==> Standing(t, pieces, i + 1, depth + 1, start, threshold)
    ensures t[i] == '}' && depth > 1 ==> Standing(t, pieces, i + 1, depth - 1, start, threshold)
    ensures t[i] == '}' && depth == 1 ==>
      Standing(t, Plus(pieces, Fit(t[start..i + 1], threshold)), i + 1, 0, -1, threshold)
    ensures t[i] != '{' && t[i] != '}' ==> Standing(t, pieces, i + 1, depth, start, threshold)
  {
    StepInside(t, start, i, depth);
    if t[i] == '}' && depth == 1 { CollectBlock(t, pieces, start, threshold); }
  }

  method StripLargeBracedBlocks(t: string, threshold: int) returns (stripped: string)
    ensures stripped == Strip(t, threshold)
  {
    var result := Empty;
    var depth := 0;
    var blockStart := -1;
    for i := 0 to |t|
      invariant depth >= 0 && -1 <= blockStart < i && Standing(t, result, i, depth, blockStart, threshold)
    {
      var ch := t[i];
      if blockStart >= 0 { StandingInside(t, result, i, depth, blockStart, threshold); }
      else { StandingOutside(t, result, i, threshold); }
      if ch == '{' {
        if depth == 0 { blockStart := i; }
        depth := depth + 1;
      } else if ch == '}' {
        depth := depth - 1;
        if depth <= 0 {
          depth := 0;
          if blockStart >= 0 {
            var blockLen := i - blockStart + 1;
            if blockLen > threshold {
              result := Plus(result, PLACEHOLDER);
            } else {
              result := Plus(result, t[blockStart..i + 1]);
            }
            blockStart := -1;
          } else {
            result := Plus(result, [ch]);
          }
          continue;
        }
      }
      if depth == 0 && blockStart < 0 {
        result := Plus(result, [ch]);
      }
    }
    if blockStart >= 0 {
      CollectTail(t, result, blockStart, threshold);
      var remaining := t[blockStart..];
      if |remaining| > threshold {
        result := Plus(result, PLACEHOLDER);
      } else {
        result := Plus(result, remaining);
      }
    }
    stripped := Join(result);
  }

  // ---- The segmentation loses nothing ----

  lemma {:induction false} Lossless(t: string, s: nat)
    requires s <= |t|
    ensures Raw(Cut(t, s)) == t[s..]
    decreases |t| - s
  {
    if s == |t| {
    } else {
      var c := Close(t, s, 0);
      if t[s] != '{' { Lossless(t, s + 1); }
      else if c < |t| { Lossless(t, c + 1); }
    }
  }

  // ---- Segments of a longer text ----

  lemma {:induction false} CloseShifts(x: string, t: string, i: nat, d: nat)
    requires i <= |t|
    ensures Close(x + t, |x| + i, d) == |x| + Close(t, i, d)
    decreases |t| - i
  {
    if i == |t| {
    } else {
      assert (x + t)[|x| + i] == t[i];
      if t[i] == '{' { CloseShifts(x, t, i + 1, d + 1); }
      else if t[i] == '}' { if d > 1 { CloseShifts(x, t, i + 1, d - 1); } }
      else { CloseShifts(x, t, i + 1, d); }
    }
  }

  lemma {:induction false} ClosePrefix(x: string, t: string, i: nat, d: nat)
    requires i <= |x| && Close(x, i, d) < |x|
    ensures Close(x + t, i, d) == Close(x, i, d)
    decreases |x| - i
  {
    assert (x + t)[i] == x[i];
    if x[i] == '{' { ClosePrefix(x, t, i + 1, d + 1); }
    else if x[i] == '}' { if d > 1 { ClosePrefix(x, t, i + 1, d - 1); } }
    else { ClosePrefix(x, t, i + 1, d); }
  }

  lemma {:induction false} ShiftedPiece(x: string, t: string, i: nat, j: nat)
    requires i <= j <= |t|
    ensures (x + t)[|x| + i..|x| + j] == t[i..j] && (x + t)[|x| + i..] == t[i..]
    ensures i < |t| ==> (x + t)[|x| + i] == t[i]
  {
  }

  lemma {:induction false} CutShifts(x: string, t: string, i: nat)
    requires i <= |t|
    ensures Cut(x + t, |x| + i) == Cut(t, i)
    decreases |t| - i
  {
    if i == |t| {
    } else if t[i] != '{' {
      ShiftedPiece(x, t, i, i);
      CutShifts(x, t, i + 1);
    } else {
      var c := Close(t, i, 0);
      CloseShifts(x, t, i, 0);
      if c < |t| {
        ShiftedPiece(x, t, i, c + 1);
        CutShifts(x, t, c + 1);
      } else {
        ShiftedPiece(x, t, i, i);
      }
    }
  }

  // ---- Stripping twice ----

  ghost predicate IsBlock(x: string) { |x| > 0 && x[0] == '{' && Close(x, 0, 0) == |x| - 1 }

  ghost predicate IsTail(x: string) { |x| > 0 && x[0] == '{' && Close(x, 0, 0) == |x| }

  /** What `Cut` produces. */
  ghost predicate Proper(segs: Segments) {
    match segs
    case Done => true
    case Outside(c, rest) => c != '{' && Proper(rest)
    case Block(x, rest) => IsBlock(x) && Proper(rest)
    case Tail(x) => IsTail(x)
  }

  lemma {:induction false} CloseWithin(t: string, i: nat, d: nat, n: nat)
    requires i < n <= |t| && Close(t, i, d) >= n - 1
    ensures Close(t[..n], i, d) == if Close(t, i, d) == n - 1 then n - 1 else n
    decreases n - i
  {
    if i + 1 == n || (t[i] == '}' && d <= 1) {
    } else if t[i] == '{' { CloseWithin(t, i + 1, d + 1, n); }
    else if t[i] == '}' { CloseWithin(t, i + 1, d - 1, n); }
    else { CloseWithin(t, i + 1, d, n); }
  }

  lemma {:induction false} CutIsProper(t: string, s: nat)
    requires s <= |t|
    ensures Proper(Cut(t, s))
    decreases |t| - s
  {
    if s == |t| {
    } else {
      if t[s] != '{' { CutIsProper(t, s + 1); }
      else if Close(t, s, 0) < |t| {
        CutIsProper(t, Close(t, s, 0) + 1);
        PieceOf(t, s, Close(t, s, 0) + 1);
      } else {
        PieceOf(t, s, |t|);
        assert t[s..] == t[s..|t|];
      }
    }
  }

  lemma {:induction false} PieceOf(t: string, s: nat, n: nat)
    requires s < n <= |t| && t[s] == '{' && Close(t, s, 0) >= n - 1
    ensures if Close(t, s, 0) == n - 1 then IsBlock(t[s..n]) else IsTail(t[s..n])
  {
    CloseWithin(t, s, 0, n);
    assert t[..n] == t[..s] + t[s..n];
    CloseShifts(t[..s], t[s..n], 0, 0);
  }

  lemma {:induction false} StripChar(c: char, t: string, threshold: int)
    requires c != '{'
    ensures Strip([c] + t, threshold) == [c] + Strip(t, threshold)
  {
    CutShifts([c], t, 0);
  }

  /** A text without braces in front comes out unchanged. */
  lemma {:induction false} StripPlain(x: string, t: string, threshold: int)
    requires '{' !in x
    ensures Strip(x + t, threshold) == x + Strip(t, threshold)
    decreases |x|
  {
    if x == "" {
      assert x + t == t;
    } else {
      StripPlain(x[1..], t, threshold);
      StripChar(x[0], x[1..] + t, threshold);
      assert x + t == [x[0]] + (x[1..] + t);
      assert x + Strip(t, threshold) == [x[0]] + (x[1..] + Strip(t, threshold));
    }
  }

  lemma {:induction false} StripBlock(x: string, t: string, threshold: int)
    requires IsBlock(x)
    ensures Strip(x + t, threshold) == Fit(x, threshold) + Strip(t, threshold)
  {
    ClosePrefix(x, t, 0, 0);
    assert (x + t)[0..|x|] == x;
    CutShifts(x, t, 0);
  }

  lemma {:induction false} StripPlaceholder(t: string, threshold: int)
    ensures Strip(PLACEHOLDER + t, threshold) == PLACEHOLDER + Strip(t, threshold)
  {
    StripPlain(PLACEHOLDER, t, threshold);
  }

  lemma {:induction false} StripTail(x: string, threshold: int)
    requires IsTail(x)
    ensures Strip(Fit(x, threshold), threshold) == Fit(x, threshold)
  {
    if |x| > threshold {
      StripPlaceholder("", threshold);
      assert PLACEHOLDER + "" == PLACEHOLDER;
    } else {
      assert x[0..] == x;
    }
  }

  lemma {:induction false} StripKept(segs: Segments, threshold: int)
    requires Proper(segs)
    ensures Strip(Kept(segs, threshold), threshold) == Kept(segs, threshold)
    decreases segs
  {
    match segs
    case Done =>
    case Outside(c, rest) =>
      StripKept(rest, threshold);
      StripChar(c, Kept(rest, threshold), threshold);
    case Block(x, rest) =>
      StripKept(rest, threshold);
      if |x| > threshold { StripPlaceholder(Kept(rest, threshold), threshold); }
      else { StripBlock(x, Kept(rest, threshold), threshold); }
    case Tail(x) => StripTail(x, threshold);
  }

  /** Stripping what was stripped changes nothing, whatever the threshold. */
  lemma {:induction false} StripTwice(t: string, threshold: int)
    ensures Strip(Strip(t, threshold), threshold) == Strip(t, threshold)
  {
    CutIsProper(t, 0);
    StripKept(Cut(t, 0), threshold);
  }

  // ---- What stays ----

  /** No block, and no unclosed tail, is longer than the threshold. */
  predicate AllFit(segs: Segments, threshold: int) {
    match segs
    case Done => true
    case Outside(_, rest) => AllFit(rest, threshold)
    case Block(x, rest) => |x| <= threshold && AllFit(rest, threshold)
    case Tail(x) => |x| <= threshold
  }

  lemma {:induction false} KeptExactly(segs: Segments, threshold: int)
    requires Proper(segs)
    ensures Kept(segs, threshold) == Raw(segs) <==> AllFit(segs, threshold)
    decreases segs
  {
    match segs
    case Done =>
    case Outside(c, rest) =>
      KeptExactly(rest, threshold);
      SameHead([c], Kept(rest, threshold), Raw(rest));
    case Block(x, rest) =>
      KeptExactly(rest, threshold);
      if |x| <= threshold {
        SameHead(x, Kept(rest, threshold), Raw(rest));
      } else {
        assert Kept(segs, threshold)[0] == '[' && Raw(segs)[0] == '{';
      }
    case Tail(x) => if |x| > threshold { assert Kept(segs, threshold)[0] == '[' && Raw(segs)[0] == '{'; }
  }

  lemma {:induction false} SameHead(x: string, a: string, b: string)
    ensures x + a == x + b <==> a == b
  {
    if x + a == x + b { assert a == (x + a)[|x|..] && b == (x + b)[|x|..]; }
  }

  /** Stripping leaves a text as it is exactly when no block or tail in it is too long. */
  lemma {:induction false} UnchangedExactly(t: string, threshold: int)
    ensures Strip(t, threshold) == t <==> AllFit(Cut(t, 0), threshold)
  {
    CutIsProper(t, 0);
    Lossless(t, 0);
    KeptExactly(Cut(t, 0), threshold);
    assert t[0..] == t;
  }

  // ---- Length ----

  lemma {:induction false} KeptNotLonger(segs: Segments, threshold: int)
    requires threshold >= 21
    ensures |Kept(segs, threshold)| <= |Raw(segs)|
    decreases segs
  {
    match segs
    case Done =>
    case Outside(_, rest) => KeptNotLonger(rest, threshold);
    case Block(_, rest) => KeptNotLonger(rest, threshold);
    case Tail(_) =>
  }

  lemma {:induction false} NoCloseAfter(t: string, i: nat, d: nat)
    requires i <= |t| && '}' !in t[i..]
    ensures Close(t, i, d) == |t|
    decreases |t| - i
  {
    if i == |t| {
    } else {
      assert t[i..] == [t[i]] + t[i + 1..];
      NoCloseAfter(t, i + 1, if t[i] == '{' then d + 1 else d);
    }
  }

  /** A text that gets longer: one unclosed brace just above the threshold. */
  lemma {:induction false} Lengthened(threshold: int) returns (t: string)
    requires threshold < 21
    ensures |t| < |Strip(t, threshold)|
  {
    var n: nat := if threshold < 0 then 0 else threshold;
    t := "{" + seq(n, _ => 'x');
    NoCloseAfter(t, 0, 0);
    assert t[0..] == t;
  }

  /** No text gets longer exactly when the threshold is at least 21, one less than the placeholder's length. */
  lemma {:induction false} NeverLongerFrom21(threshold: int)
    ensures (forall t :: |Strip(t, threshold)| <= |t|) <==> threshold >= 21
  {
    if threshold >= 21 {
      forall t ensures |Strip(t, threshold)| <= |t| {
        Lossless(t, 0);
        KeptNotLonger(Cut(t, 0), threshold);
      }
    } else {
      var t := Lengthened(threshold);
    }
  }

  // ---- Agreement with the JSON scanner ----

  /** Where the closed blocks are. */
  function Spans(t: string, s: nat): seq<Interval>
    requires s <= |t|
    decreases |t| - s
  {
    if s == |t| then []
    else if t[s] != '{' then Spans(t, s + 1)
    else
      var c := Close(t, s, 0);
      if c < |t| then [(s, c)] + Spans(t, c + 1) else []
  }

  /** The first brace outside all blocks that is never closed. */
  function FirstUnclosed(t: string, s: nat): (u: nat)
    requires s <= |t|
    ensures s <= u <= |t|
    decreases |t| - s
  {
    if s == |t| then |t|
    else if t[s] != '{' then FirstUnclosed(t, s + 1)
    else
      var c := Close(t, s, 0);
      if c < |t| then FirstUnclosed(t, c + 1) else s
  }

  function Blocks(segs: Segments): seq<string> {
    match segs
    case Done => []
    case Outside(_, rest) => Blocks(rest)
    case Block(x, rest) => [x] + Blocks(rest)
    case Tail(_) => []
  }

  function Pieces(t: string, spans: seq<Interval>): seq<string> {
    if spans == [] then [] else [Piece(t, spans[0])] + Pieces(t, spans[1..])
  }

  lemma {:induction false} PiecesCons(t: string, k: Interval, spans: seq<Interval>)
    ensures Pieces(t, [k] + spans) == [Piece(t, k)] + Pieces(t, spans)
  {
    assert ([k] + spans)[1..] == spans;
  }

  /** The blocks are the texts of the spans, one by one. */
  lemma {:induction false} SpansAreBlocks(t: string, s: nat)
    requires s <= |t|
    ensures Pieces(t, Spans(t, s)) == Blocks(Cut(t, s))
    decreases |t| - s
  {
    if s == |t| {
    } else if t[s] != '{' {
      SpansAreBlocks(t, s + 1);
    } else {
      var c := Close(t, s, 0);
      if c < |t| {
        SpansAreBlocks(t, c + 1);
        PiecesCons(t, (s, c), Spans(t, c + 1));
      }
    }
  }

  lemma {:induction false} SpansInside(t: string, s: nat)
    requires s <= |t|
    ensures forall k <- Spans(t, s) :: s <= k.0 <= k.1 < |t|
    decreases |t| - s
  {
    if s == |t| {
    } else if t[s] != '{' {
      SpansInside(t, s + 1);
    } else if Close(t, s, 0) < |t| {
      SpansInside(t, Close(t, s, 0) + 1);
    }
  }

  lemma {:induction false} ConsAppend(k: Interval, a: seq<Interval>, b: seq<Interval>)
    ensures ([k] + a) + b == [k] + (a + b)
  {
  }

  lemma {:induction false} SpansThenTail(t: string, s: nat)
    requires s <= |t|
    ensures Tops(t, s) == Spans(t, s) + Tops(t, FirstUnclosed(t, s))
    decreases |t| - s
  {
    if s == |t| {
    } else if t[s] != '{' {
      SpansThenTail(t, s + 1);
    } else {
      var c := Close(t, s, 0);
      if c < |t| {
        SpansThenTail(t, c + 1);
        ConsAppend((s, c), Spans(t, c + 1), Tops(t, FirstUnclosed(t, c + 1)));
      } else {
        NoSpans(t, s);
      }
    }
  }

  lemma {:induction false} NoSpans(t: string, s: nat)
    requires s < |t| && t[s] == '{' && Close(t, s, 0) == |t|
    ensures Spans(t, s) == [] && FirstUnclosed(t, s) == s
  {
  }

  lemma {:induction false} ClearAtUnclosed(t: string, s: nat)
    requires s <= |t| && Clear(t, s)
    ensures Clear(t, FirstUnclosed(t, s))
    decreases |t| - s
  {
    if s == |t| {
    } else {
      ClearAfter(t, s);
      var c := Close(t, s, 0);
      if t[s] != '{' { ClearAtUnclosed(t, s + 1); }
      else if c < |t| { ClearAtUnclosed(t, c + 1); }
    }
  }

  /** A scan that picks nothing has nothing to pick. */
  lemma {:induction false} NothingMatched(t: string, s: nat, i: nat, j: nat)
    requires s <= |t| && Tops(t, s) == [] && s <= i
    ensures !Matched(t, i, j)
    decreases |t| - s
  {
    if s == |t| {
    } else {
      if t[s] == '{' { CloseMatches(t, s); }
      if s < i { NothingMatched(t, s + 1, i, j); }
    }
  }

  /** The stripper's blocks are the scanner's intervals exactly when no braces match from the first unclosed brace
      on; in particular when every brace is closed. */
  lemma {:induction false} AgreesWithScanner(t: string)
    ensures var u := FirstUnclosed(t, 0);
      Spans(t, 0) == Tops(t, 0) <==> forall i: nat, j: nat :: u <= i ==> !Matched(t, i, j)
  {
    var u := FirstUnclosed(t, 0);
    SpansThenTail(t, 0);
    ClearAtUnclosed(t, 0);
    if Tops(t, u) == [] {
      forall i: nat, j: nat | u <= i ensures !Matched(t, i, j) { NothingMatched(t, u, i, j); }
    } else {
      var k := Tops(t, u)[0];
      assert k in Tops(t, u);
      TopsAreMaximal(t, u, k.0, k.1);
      assert |Tops(t, 0)| > |Spans(t, 0)|;
    }
  }
}
