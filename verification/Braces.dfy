/** Matched braces in a text: what the JSON scanner and the router's block stripper both look for. */
module Braces {

  /** Opening minus closing braces in `t[i..j]`. */
  function Balance(t: string, i: nat, j: nat): int
    requires i <= j <= |t|
    decreases j
  {
    if i == j then 0
    else Balance(t, i, j - 1) + (if t[j - 1] == '{' then 1 else if t[j - 1] == '}' then -1 else 0)
  }

  /** The brace at `i` is closed by the brace at `j`: the balance counted from `i` first returns to zero there. */
  ghost predicate Matched(t: string, i: nat, j: nat) {
    i < j < |t| && t[i] == '{' && Balance(t, i, j + 1) == 0 && forall k :: i < k <= j ==> Balance(t, i, k) > 0
  }

  /** No other matched interval contains this one. */
  ghost predicate Maximal(t: string, i: nat, j: nat) {
    Matched(t, i, j) && forall a: nat, b: nat :: Matched(t, a, b) && a <= i && j <= b ==> a == i && b == j
  }

  // ---- Finding the closing brace ----

  /** Where the depth, `d` before position `i`, drops to zero; the length of the text if it never does. */
  function Close(t: string, i: nat, d: nat): (c: nat)
    requires i <= |t|
    ensures i <= c <= |t|
    ensures c < |t| ==> t[c] == '}'
    decreases |t| - i
  {
    if i == |t| then |t|
    else if t[i] == '{' then Close(t, i + 1, d + 1)
    else if t[i] == '}' then if d <= 1 then i else Close(t, i + 1, d - 1)
    else Close(t, i + 1, d)
  }

  lemma {:induction false} BalanceAdds(t: string, i: nat, j: nat, k: nat)
    requires i <= j <= k <= |t|
    ensures Balance(t, i, k) == Balance(t, i, j) + Balance(t, j, k)
    decreases k
  {
    if j < k { BalanceAdds(t, i, j, k - 1); }
  }

  /** From inside an interval, the scan ends at its closing brace. */
  lemma {:induction false} CloseFrom(t: string, i: nat, k: nat)
    requires i < k <= |t| && t[i] == '{' && forall m :: i < m <= k ==> Balance(t, i, m) > 0
    ensures var c := Close(t, k, Balance(t, i, k)); c < |t| ==> Matched(t, i, c)
    ensures Close(t, k, Balance(t, i, k)) == |t| ==> forall j: nat :: !Matched(t, i, j)
    decreases |t| - k
  {
    if k == |t| {
    } else if t[k] == '}' && Balance(t, i, k) == 1 {
      assert Balance(t, i, k + 1) == 0;
    } else {
      CloseFrom(t, i, k + 1);
    }
  }

  lemma {:induction false} MatchedOnce(t: string, i: nat, j: nat, k: nat)
    requires Matched(t, i, j) && Matched(t, i, k)
    ensures j == k
  {
  }

  /** The scan finds exactly the matching brace. */
  lemma {:induction false} CloseMatches(t: string, i: nat)
    requires i < |t| && t[i] == '{'
    ensures Close(t, i, 0) < |t| ==> Matched(t, i, Close(t, i, 0))
    ensures forall j: nat :: Matched(t, i, j) <==> j == Close(t, i, 0) < |t|
  {
    assert Balance(t, i, i + 1) == 1;
    CloseFrom(t, i, i + 1);
    forall j: nat | Matched(t, i, j) ensures j == Close(t, i, 0) { MatchedOnce(t, i, j, Close(t, i, 0)); }
  }

  /** Matched intervals are nested or disjoint. */
  lemma {:induction false} Nested(t: string, a: nat, b: nat, i: nat, j: nat)
    requires Matched(t, a, b) && Matched(t, i, j) && a < i <= b
    ensures j < b
  {
    if b <= j { BalanceAdds(t, a, i, b + 1); }
  }

  // ---- The intervals a left-to-right scan picks ----

  type Interval = (nat, nat)

  /** The text of an interval, both braces included. */
  function Piece(t: string, k: Interval): string { if k.0 <= k.1 < |t| then t[k.0..k.1 + 1] else "" }

  /** From `s` on: take the interval that starts here and continue after it, or else move one character. */
  function Tops(t: string, s: nat): seq<Interval>
    requires s <= |t|
    decreases |t| - s
  {
    if s == |t| then []
    else if t[s] == '{' && Close(t, s, 0) < |t| then [(s, Close(t, s, 0))] + Tops(t, Close(t, s, 0) + 1)
    else Tops(t, s + 1)
  }

  /** No matched interval reaches across `s`. */
  ghost predicate Clear(t: string, s: nat) { forall a: nat, b: nat :: Matched(t, a, b) && a < s ==> b < s }

  lemma {:induction false} ClearAfter(t: string, s: nat)
    requires s < |t| && Clear(t, s)
    ensures t[s] == '{' && Close(t, s, 0) < |t| ==> Clear(t, Close(t, s, 0) + 1)
    ensures !(t[s] == '{' && Close(t, s, 0) < |t|) ==> Clear(t, s + 1)
  {
    if t[s] == '{' {
      CloseMatches(t, s);
      var c := Close(t, s, 0);
      if c < |t| {
        forall a: nat, b: nat | Matched(t, a, b) && a < c + 1 ensures b < c + 1 {
          if s < a { Nested(t, s, c, a, b); }
        }
      }
    }
  }

  /** The scan picks exactly the maximal intervals. */
  lemma {:induction false} TopsAreMaximal(t: string, s: nat, i: nat, j: nat)
    requires s <= |t| && Clear(t, s)
    ensures (i, j) in Tops(t, s) <==> s <= i && Maximal(t, i, j)
    decreases |t| - s
  {
    if s == |t| {
    } else {
      ClearAfter(t, s);
      if t[s] == '{' { CloseMatches(t, s); }
      if t[s] == '{' && Close(t, s, 0) < |t| {
        var c := Close(t, s, 0);
        TopsAreMaximal(t, c + 1, i, j);
        FirstIsMaximal(t, s, c);
        if s <= i <= c && Maximal(t, i, j) && i != s {
          Nested(t, s, c, i, j);
        }
      } else {
        TopsAreMaximal(t, s + 1, i, j);
      }
    }
  }

  lemma {:induction false} FirstIsMaximal(t: string, s: nat, c: nat)
    requires Matched(t, s, c) && Clear(t, s)
    ensures Maximal(t, s, c)
  {
    forall a: nat, b: nat | Matched(t, a, b) && a <= s && c <= b ensures a == s && b == c {
      if a == s { MatchedOnce(t, s, b, c); }
    }
  }

  /** Left to right, disjoint, each once. */
  lemma {:induction false} TopsAreOrdered(t: string, s: nat)
    requires s <= |t|
    ensures forall k :: 0 <= k < |Tops(t, s)| ==> s <= Tops(t, s)[k].0 < Tops(t, s)[k].1 < |t|
    ensures forall k, m :: 0 <= k < m < |Tops(t, s)| ==> Tops(t, s)[k].1 < Tops(t, s)[m].0
    decreases |t| - s
  {
    if s == |t| {
    } else {
      if t[s] == '{' && Close(t, s, 0) < |t| {
        CloseMatches(t, s);
        TopsAreOrdered(t, Close(t, s, 0) + 1);
      } else {
        TopsAreOrdered(t, s + 1);
      }
    }
  }

  /** Over a whole text: the scan's intervals are the maximal matched ones. */
  lemma {:induction false} ScanPicksMaximal(t: string, i: nat, j: nat)
    ensures (i, j) in Tops(t, 0) <==> Maximal(t, i, j)
  {
    TopsAreMaximal(t, 0, i, j);
  }
}
