/** Escaping the content of tags, and unescaping it until nothing changes. */
module Tags {

  // ---- html.escape(quote=False) ----

  /** `s.replace(c, by)` for a single character `c`. */
  function Replace(s: string, c: char, with: string): string {
    if s == "" then "" else (if s[0] == c then with else [s[0]]) + Replace(s[1..], c, with)
  }

  function Escape(s: string): string {
    Replace(Replace(Replace(s, '&', "&amp;"), '<', "&lt;"), '>', "&gt;")
  }

  function EscapeChar(c: char): string {
    if c == '&' then "&amp;" else if c == '<' then "&lt;" else if c == '>' then "&gt;" else [c]
  }

  function EscapeEach(s: string): string { if s == "" then "" else EscapeChar(s[0]) + EscapeEach(s[1..]) }

  lemma {:induction false} ReplaceConcat(a: string, b: string, c: char, with: string)
    ensures Replace(a + b, c, with) == Replace(a, c, with) + Replace(b, c, with)
    decreases |a|
  {
    if a == "" {
      assert a + b == b;
    } else {
      assert (a + b)[1..] == a[1..] + b;
      ReplaceConcat(a[1..], b, c, with);
    }
  }

  lemma {:induction false} ReplaceNothing(a: string, c: char, with: string)
    requires c !in a
    ensures Replace(a, c, with) == a
    decreases |a|
  {
    if a == "" {
    } else {
      ReplaceNothing(a[1..], c, with);
    }
  }

  lemma {:induction false} ReplaceOne(c: char, with: string)
    ensures Replace([c], c, with) == with
  {
    assert [c][1..] == "";
  }

  lemma {:induction false} EscapeOne(c: char)
    ensures Escape([c]) == EscapeChar(c)
  {
    if c == '&' {
      ReplaceOne(c, "&amp;");
      ReplaceNothing("&amp;", '<', "&lt;");
      ReplaceNothing("&amp;", '>', "&gt;");
    } else {
      ReplaceNothing([c], '&', "&amp;");
      if c == '<' {
        ReplaceOne(c, "&lt;");
        ReplaceNothing("&lt;", '>', "&gt;");
      } else {
        ReplaceNothing([c], '<', "&lt;");
        if c == '>' { ReplaceOne(c, "&gt;"); } else { ReplaceNothing([c], '>', "&gt;"); }
      }
    }
  }

  /** No replacement touches what an earlier one wrote: the three passes act on each character by itself. */
  lemma {:induction false} EscapeIsCharwise(s: string)
    ensures Escape(s) == EscapeEach(s)
    decreases |s|
  {
    if s == "" {
    } else {
      assert s == [s[0]] + s[1..];
      var head, tail := [s[0]], s[1..];
      ReplaceConcat(head, tail, '&', "&amp;");
      var head1, tail1 := Replace(head, '&', "&amp;"), Replace(tail, '&', "&amp;");
      ReplaceConcat(head1, tail1, '<', "&lt;");
      ReplaceConcat(Replace(head1, '<', "&lt;"), Replace(tail1, '<', "&lt;"), '>', "&gt;");
      EscapeOne(s[0]);
      EscapeIsCharwise(tail);
    }
  }

  predicate StandsFor(s: string, i: nat, w: string) { i + |w| <= |s| && s[i..i + |w|] == w }

  /** No angle bracket is left, and every ampersand starts one of the three references. */
  ghost predicate Escaped(s: string) {
    && '<' !in s && '>' !in s
    && forall i: nat :: i < |s| && s[i] == '&' ==>
         StandsFor(s, i, "&amp;") || StandsFor(s, i, "&lt;") || StandsFor(s, i, "&gt;")
  }

  lemma {:induction false} EscapedConcat(a: string, b: string)
    requires Escaped(a) && Escaped(b)
    ensures Escaped(a + b)
  {
    forall i: nat | i < |a + b| && (a + b)[i] == '&'
      ensures StandsFor(a + b, i, "&amp;") || StandsFor(a + b, i, "&lt;") || StandsFor(a + b, i, "&gt;")
    {
      if i < |a| { StandsBefore(a, b, i); } else { StandsAfter(a, b, i - |a|); }
    }
  }

  lemma {:induction false} StandsBefore(a: string, b: string, i: nat)
    ensures forall w: string :: StandsFor(a, i, w) ==> StandsFor(a + b, i, w)
  {
    forall w: string | StandsFor(a, i, w) ensures StandsFor(a + b, i, w) {
      assert (a + b)[i..i + |w|] == a[i..i + |w|];
    }
  }

  lemma {:induction false} StandsAfter(a: string, b: string, i: nat)
    ensures forall w: string :: StandsFor(b, i, w) ==> StandsFor(a + b, |a| + i, w)
  {
    forall w: string | StandsFor(b, i, w) ensures StandsFor(a + b, |a| + i, w) {
      assert (a + b)[|a| + i..|a| + i + |w|] == b[i..i + |w|];
    }
  }

  lemma {:induction false} CharEscaped(c: char)
    ensures Escaped(EscapeChar(c))
  {
    var s := EscapeChar(c);
    assert s[0..|s|] == s;
  }

  /** What is escaped can be put into a tag: it opens none and closes none. */
  lemma {:induction false} EscapeEscapes(s: string)
    ensures Escaped(Escape(s))
    decreases |s|
  {
    EscapeIsCharwise(s);
    if s != "" {
      EscapeIsCharwise(s[1..]);
      CharEscaped(s[0]);
      EscapeEscapes(s[1..]);
      EscapedConcat(EscapeChar(s[0]), EscapeEach(s[1..]));
    }
  }

  // ---- html.unescape, for the references amp, lt and gt ----

  predicate StartsWith(s: string, name: string) { |name| <= |s| && s[..|name|] == name }

  /** The character that a reference at the start of `s` stands for, and the reference's length without a final
      semicolon; length 0 when there is none (section 13.5 of the HTML standard). */
  function Reference(s: string): (r: (char, nat))
    ensures r.1 == 0 || 3 <= r.1 <= |s|
    ensures r.1 > 0 ==> s[0] == '&'
  {
    if StartsWith(s, "&amp") || StartsWith(s, "&AMP") then ('&', 4)
    else if StartsWith(s, "&lt") || StartsWith(s, "&LT") then ('<', 3)
    else if StartsWith(s, "&gt") || StartsWith(s, "&GT") then ('>', 3)
    else (' ', 0)
  }

  /** The semicolon may be missing. */
  function WithSemicolon(s: string, n: nat): (m: nat)
    requires n <= |s|
    ensures n <= m <= |s|
  {
    if n < |s| && s[n] == ';' then n + 1 else n
  }

  function UnescapeOnce(s: string): string
    decreases |s|
  {
    if s == "" then ""
    else
      var r := Reference(s);
      if r.1 > 0 then [r.0] + UnescapeOnce(s[WithSemicolon(s, r.1)..]) else [s[0]] + UnescapeOnce(s[1..])
  }

  /** The names of the HTML standard for the three characters, which it lets stand without a semicolon. */
  lemma {:induction false} ReferencesExactly(s: string)
    ensures Reference(s).1 > 0 <==> exists name <- ["&amp", "&AMP", "&lt", "&LT", "&gt", "&GT"] :: name <= s
    ensures "&amp" <= s || "&AMP" <= s ==> Reference(s) == ('&', 4)
    ensures "&lt" <= s || "&LT" <= s ==> Reference(s) == ('<', 3)
    ensures "&gt" <= s || "&GT" <= s ==> Reference(s) == ('>', 3)
  {
    var names := ["&amp", "&AMP", "&lt", "&LT", "&gt", "&GT"];
    forall name <- names ensures StartsWith(s, name) <==> name <= s { }
    assert forall i :: 0 <= i < 6 ==> names[i] in names;
    assert names[0] == "&amp" && names[1] == "&AMP" && names[2] == "&lt";
    assert names[3] == "&LT" && names[4] == "&gt" && names[5] == "&GT";
    if "&lt" <= s || "&LT" <= s { assert s[1] == 'l' || s[1] == 'L'; }
    if "&gt" <= s || "&GT" <= s { assert s[1] == 'g' || s[1] == 'G'; }
  }

  ghost predicate HasReference(s: string) { exists i: nat :: i < |s| && Reference(s[i..]).1 > 0 }

  lemma {:induction false} AmpersandBack(t: string)
    ensures UnescapeOnce("&amp;" + t) == "&" + UnescapeOnce(t)
  {
    var s := "&amp;" + t;
    assert s[..4] == "&amp" && s[4] == ';' && s[5..] == t;
    assert Reference(s) == ('&', 4);
  }

  lemma {:induction false} LessThanBack(t: string)
    ensures UnescapeOnce("&lt;" + t) == "<" + UnescapeOnce(t)
  {
    var s := "&lt;" + t;
    assert s[1] == 'l';
    assert s[..3] == "&lt" && s[3] == ';' && s[4..] == t;
    assert Reference(s) == ('<', 3);
  }

  lemma {:induction false} GreaterThanBack(t: string)
    ensures UnescapeOnce("&gt;" + t) == ">" + UnescapeOnce(t)
  {
    var s := "&gt;" + t;
    assert s[1] == 'g';
    assert s[..3] == "&gt" && s[3] == ';' && s[4..] == t;
    assert Reference(s) == ('>', 3);
  }

  lemma {:induction false} OrdinaryCharacter(c: char, t: string)
    requires c != '&'
    ensures UnescapeOnce([c] + t) == [c] + UnescapeOnce(t)
  {
    var s := [c] + t;
    assert s[0] == c && s[1..] == t;
  }

  /** One pass undoes the escaping of any text. */
  lemma {:induction false} OncePassUndoesEscape(s: string)
    ensures UnescapeOnce(EscapeEach(s)) == s
    decreases |s|
  {
    if s == "" {
    } else {
      OncePassUndoesEscape(s[1..]);
      if s[0] == '&' { AmpersandBack(EscapeEach(s[1..])); }
      else if s[0] == '<' { LessThanBack(EscapeEach(s[1..])); }
      else if s[0] == '>' { GreaterThanBack(EscapeEach(s[1..])); }
      else { OrdinaryCharacter(s[0], EscapeEach(s[1..])); }
    }
  }

  lemma {:induction false} UnescapeUndoesEscape(s: string)
    ensures UnescapeOnce(Escape(s)) == s
  {
    EscapeIsCharwise(s);
    OncePassUndoesEscape(s);
  }

  /** A pass that changes anything shortens the text, and it changes something exactly when there is a reference. */
  lemma {:induction false} EffectivePassShortens(s: string)
    ensures |UnescapeOnce(s)| <= |s|
    ensures UnescapeOnce(s) != s <==> |UnescapeOnce(s)| < |s|
    ensures UnescapeOnce(s) != s <==> HasReference(s)
    decreases |s|
  {
    if s == "" {
    } else {
      var r := Reference(s);
      if r.1 > 0 {
        EffectivePassShortens(s[WithSemicolon(s, r.1)..]);
        assert s[0..] == s;
        assert HasReference(s);
      } else {
        EffectivePassShortens(s[1..]);
        assert UnescapeOnce(s)[1..] == UnescapeOnce(s[1..]);
        NoReferenceFirst(s);
      }
    }
  }

  lemma {:induction false} NoReferenceFirst(s: string)
    requires s != "" && Reference(s).1 == 0
    ensures HasReference(s) <==> HasReference(s[1..])
  {
    if HasReference(s) {
      var i: nat :| i < |s| && Reference(s[i..]).1 > 0;
      assert s[0..] == s;
      assert s[1..][i - 1..] == s[i..];
    }
    if HasReference(s[1..]) {
      var i: nat :| i < |s[1..]| && Reference(s[1..][i..]).1 > 0;
      assert s[1..][i..] == s[i + 1..];
    }
  }

  // ---- The fixpoint ----

  function Unescaped(s: string): string
    decreases |s|
  {
    EffectivePassShortens(s);
    if UnescapeOnce(s) == s then s else Unescaped(UnescapeOnce(s))
  }

  method Unescape(s: string) returns (content: string)
    ensures content == Unescaped(s)
    ensures !HasReference(content)
  {
    content := s;
    while content != UnescapeOnce(content)
      invariant Unescaped(content) == Unescaped(s)
      decreases |content|
    {
      EffectivePassShortens(content);
      content := UnescapeOnce(content);
    }
    EffectivePassShortens(content);
  }

  lemma {:induction false} UnescapedHasNoReference(s: string)
    ensures !HasReference(Unescaped(s)) && Unescaped(Unescaped(s)) == Unescaped(s)
    decreases |s|
  {
    EffectivePassShortens(s);
    if UnescapeOnce(s) != s { UnescapedHasNoReference(UnescapeOnce(s)); }
  }

  /** Escaping first makes no difference to the fixpoint. */
  lemma {:induction false} UnescapedIgnoresEscape(s: string)
    ensures Unescaped(Escape(s)) == Unescaped(s)
  {
    UnescapeUndoesEscape(s);
  }

  /** What was escaped comes back exactly when it held no reference of its own. */
  lemma {:induction false} RoundTripExactlyWhenNoReference(s: string)
    ensures Unescaped(Escape(s)) == s <==> !HasReference(s)
  {
    UnescapedIgnoresEscape(s);
    EffectivePassShortens(s);
    if !HasReference(s) { assert Unescaped(s) == s; } else { UnescapedHasNoReference(s); }
  }
}
