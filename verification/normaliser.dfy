/**
  The lyrics normaliser of lyricsipsum: every run of one or more newline
  characters becomes a single newline, then leading and trailing whitespace is
  trimmed, as Python's `str.strip()` does with no argument.

  The functions below are plain definitions; what they guarantee is stated by
  the lemmas that follow them.
 */
module Normaliser {
  import opened Subsequences

  /** The characters Python's `str.strip()` removes: those for which
      `str.isspace()` holds. */
  predicate IsWs(c: char) {
    || '\U{0009}' <= c <= '\U{000D}'
    || '\U{001C}' <= c <= '\U{001F}'
    || c == ' '
    || c == '\U{0085}'
    || c == '\U{00A0}'
    || c == '\U{1680}'
    || '\U{2000}' <= c <= '\U{200A}'
    || c == '\U{2028}'
    || c == '\U{2029}'
    || c == '\U{202F}'
    || c == '\U{205F}'
    || c == '\U{3000}'
  }

  predicate AllWs(s: string) {
    forall i :: 0 <= i < |s| ==> IsWs(s[i])
  }

  /** No two consecutive newline characters. The second index is a bound
      variable of its own (rather than `i + 1`) so that instantiating the
      quantifier creates no new index terms, which would feed it again. */
  predicate NoDoubleNewline(s: string) {
    forall i, j | 0 <= i < |s| && 0 <= j < |s| && j == i + 1 :: !(s[i] == '\n' && s[j] == '\n')
  }

  /** Empty, or starting and ending with a character that is not whitespace. */
  predicate Trimmed(s: string) {
    s == [] || (!IsWs(s[0]) && !IsWs(s[|s| - 1]))
  }

  /** What the normaliser promises of every result. */
  predicate IsNormalised(s: string) {
    NoDoubleNewline(s) && Trimmed(s)
  }

  /** Length of the maximal run of newlines at the front of `s`: the part the
      pattern `\n+` matches there. */
  function LeadingNewlines(s: string): (n: nat)
    ensures n <= |s|
    ensures forall i :: 0 <= i < n ==> s[i] == '\n'
    ensures n < |s| ==> s[n] != '\n'
  {
    if s != [] && s[0] == '\n' then 1 + LeadingNewlines(s[1..]) else 0
  }

  /** `re.sub(r"\n+", "\n", s)`: the string is scanned left to right and each
      maximal run of newlines is replaced by one newline. */
  function CollapseNewlines(s: string): string
    decreases |s|
  {
    if s == [] then []
    else if s[0] == '\n' then "\n" + CollapseNewlines(s[LeadingNewlines(s)..])
    else [s[0]] + CollapseNewlines(s[1..])
  }

  /** Removes leading whitespace (the first half of `str.strip()`). */
  function TrimStart(s: string): string {
    if s != [] && IsWs(s[0]) then TrimStart(s[1..]) else s
  }

  /** Removes trailing whitespace (the second half of `str.strip()`). */
  function TrimEnd(s: string): string {
    if s != [] && IsWs(s[|s| - 1]) then TrimEnd(s[..|s| - 1]) else s
  }

  /** Python's `str.strip()` with no argument. */
  function Strip(s: string): string {
    TrimEnd(TrimStart(s))
  }

  /** The normaliser applied to raw lyrics before they are stored. */
  function Normalise(raw: string): string {
    Strip(CollapseNewlines(raw))
  }

  // ---------------------------------------------------------------------
  // Helpers on the predicates

  lemma AllWsConcat(a: string, b: string)
    ensures AllWs(a + b) <==> AllWs(a) && AllWs(b)
  {
    if AllWs(a) && AllWs(b) {
      forall j | 0 <= j < |a + b| ensures IsWs((a + b)[j]) {
        if j >= |a| { assert (a + b)[j] == b[j - |a|]; }
      }
    }
    if AllWs(a + b) {
      forall j | 0 <= j < |a| ensures IsWs(a[j]) {
        assert a[j] == (a + b)[j];
      }
      forall j | 0 <= j < |b| ensures IsWs(b[j]) {
        assert b[j] == (a + b)[j + |a|];
      }
    }
  }

  /** Putting a character in front keeps adjacent newlines out, unless it is
      a newline put before a newline. */
  lemma NoDoubleNewlineCons(c: char, s: string)
    requires NoDoubleNewline(s)
    requires c != '\n' || s == [] || s[0] != '\n'
    ensures NoDoubleNewline([c] + s)
  {
  }

  // ---------------------------------------------------------------------
  // TrimStart, TrimEnd and Strip

  /** `TrimStart` drops a prefix made of whitespace only, and what is left is
      empty or starts with a character that is not whitespace. */
  lemma {:induction false} TrimStartSpec(s: string)
    ensures |TrimStart(s)| <= |s|
    ensures TrimStart(s) == s[|s| - |TrimStart(s)|..]
    ensures AllWs(s[..|s| - |TrimStart(s)|])
    ensures TrimStart(s) == [] || !IsWs(TrimStart(s)[0])
  {
    if s != [] && IsWs(s[0]) {
      TrimStartSpec(s[1..]);
      var k := |s| - |TrimStart(s)|;
      assert s[1..][k - 1..] == s[k..];
      assert s[..k] == [s[0]] + s[1..][..k - 1];
      AllWsConcat([s[0]], s[1..][..k - 1]);
    }
  }

  /** `TrimEnd` drops a suffix made of whitespace only, and what is left is
      empty or ends with a character that is not whitespace. */
  lemma {:induction false} TrimEndSpec(s: string)
    ensures |TrimEnd(s)| <= |s|
    ensures TrimEnd(s) == s[..|TrimEnd(s)|]
    ensures AllWs(s[|TrimEnd(s)|..])
    ensures TrimEnd(s) == [] || !IsWs(TrimEnd(s)[|TrimEnd(s)| - 1])
  {
    if s != [] && IsWs(s[|s| - 1]) {
      var t := s[..|s| - 1];
      TrimEndSpec(t);
      var k := |TrimEnd(s)|;
      assert t[..k] == s[..k];
      assert s[k..] == t[k..] + [s[|s| - 1]];
      AllWsConcat(t[k..], [s[|s| - 1]]);
    }
  }

  /** The result of `Strip` is trimmed, it is a contiguous piece of its
      input, and only whitespace was cut off on either side. */
  lemma StripSpec(s: string) returns (i: nat)
    ensures Trimmed(Strip(s))
    ensures i + |Strip(s)| <= |s|
    ensures Strip(s) == s[i..i + |Strip(s)|]
    ensures AllWs(s[..i]) && AllWs(s[i + |Strip(s)|..])
  {
    var t := TrimStart(s);
    var r := TrimEnd(t);
    TrimStartSpec(s);
    TrimEndSpec(t);
    i := |s| - |t|;
    assert r == t[..|r|] == s[i..i + |r|];
    assert t[|r|..] == s[i + |r|..];
    if r != [] {
      assert r[0] == t[0];
    }
  }

  /** Cutting off ends cannot create two adjacent newlines. */
  lemma StripKeepsNoDoubleNewline(s: string)
    requires NoDoubleNewline(s)
    ensures NoDoubleNewline(Strip(s))
  {
    var i := StripSpec(s);
    var r := Strip(s);
    forall k, l | 0 <= k < |r| && 0 <= l < |r| && l == k + 1
      ensures !(r[k] == '\n' && r[l] == '\n')
    {
      assert r[k] == s[i + k] && r[l] == s[i + l];
    }
  }

  /** `Strip` leaves an already trimmed string alone. */
  lemma StripFixesTrimmed(s: string)
    requires Trimmed(s)
    ensures Strip(s) == s
  {
  }

  /** `Strip` yields the empty string exactly for all-whitespace input. */
  lemma StripEmptyIff(s: string)
    ensures Strip(s) == [] <==> AllWs(s)
  {
    var i := StripSpec(s);
    if Strip(s) == [] {
      assert s == s[..i] + s[i..];
      AllWsConcat(s[..i], s[i..]);
    } else {
      assert !IsWs(s[i]);
    }
  }

  /** `Strip` only deletes characters. */
  lemma StripSubsequence(s: string)
    ensures IsSubsequence(Strip(s), s)
  {
    var t := TrimStart(s);
    TrimStartSpec(s);
    TrimEndSpec(t);
    SuffixIsSubsequence(s, |s| - |t|);
    PrefixIsSubsequence(t, |TrimEnd(t)|);
    SubsequenceTransitive(Strip(s), t, s);
  }

  // ---------------------------------------------------------------------
  // CollapseNewlines

  /** The collapse keeps the first character. */
  lemma CollapseHead(s: string)
    requires s != []
    ensures CollapseNewlines(s) != [] && CollapseNewlines(s)[0] == s[0]
  {
  }

  /** After the collapse no two newlines are adjacent. */
  lemma {:induction false} CollapseNoDoubleNewline(s: string)
    ensures NoDoubleNewline(CollapseNewlines(s))
    decreases |s|
  {
    if s == [] {
    } else if s[0] == '\n' {
      var t := s[LeadingNewlines(s)..];
      CollapseNoDoubleNewline(t);
      if t != [] {
        CollapseHead(t);
      }
      NoDoubleNewlineCons('\n', CollapseNewlines(t));
    } else {
      CollapseNoDoubleNewline(s[1..]);
      NoDoubleNewlineCons(s[0], CollapseNewlines(s[1..]));
    }
  }

  /** A string without two adjacent newlines is left unchanged. */
  lemma {:induction false} CollapseFixesNoDoubleNewline(s: string)
    requires NoDoubleNewline(s)
    ensures CollapseNewlines(s) == s
    decreases |s|
  {
    if s == [] {
    } else {
      if s[0] == '\n' {
        assert LeadingNewlines(s) == 1 by {
          assert |s| > 1 ==> s[1] != '\n';
        }
      }
      assert NoDoubleNewline(s[1..]) by {
        forall k, l | 0 <= k < |s[1..]| && 0 <= l < |s[1..]| && l == k + 1
          ensures !(s[1..][k] == '\n' && s[1..][l] == '\n')
        {
          assert s[1..][k] == s[k + 1] && s[1..][l] == s[l + 1];
        }
      }
      CollapseFixesNoDoubleNewline(s[1..]);
    }
  }

  /** Collapsing only deletes characters. */
  lemma {:induction false} CollapseSubsequence(s: string)
    ensures IsSubsequence(CollapseNewlines(s), s)
    decreases |s|
  {
    var r := CollapseNewlines(s);
    if s == [] {
    } else if s[0] == '\n' {
      var k := LeadingNewlines(s);
      CollapseSubsequence(s[k..]);
      SuffixIsSubsequence(s[1..], k - 1);
      assert s[1..][k - 1..] == s[k..];
      SubsequenceTransitive(CollapseNewlines(s[k..]), s[k..], s[1..]);
      assert r[1..] == CollapseNewlines(s[k..]);
    } else {
      CollapseSubsequence(s[1..]);
      assert r[1..] == CollapseNewlines(s[1..]);
    }
  }

  /** Collapsing keeps a string all-whitespace exactly when it was: only
      newlines, which are whitespace, are ever removed, and every other
      character survives. */
  lemma {:induction false} CollapseAllWsIff(s: string)
    ensures AllWs(CollapseNewlines(s)) <==> AllWs(s)
    decreases |s|
  {
    if s == [] {
    } else if s[0] == '\n' {
      var k := LeadingNewlines(s);
      CollapseAllWsIff(s[k..]);
      AllWsConcat("\n", CollapseNewlines(s[k..]));
      assert s == s[..k] + s[k..];
      AllWsConcat(s[..k], s[k..]);
    } else {
      CollapseAllWsIff(s[1..]);
      AllWsConcat([s[0]], CollapseNewlines(s[1..]));
      assert s == [s[0]] + s[1..];
      AllWsConcat([s[0]], s[1..]);
    }
  }

  /** Characters other than newlines pass through the collapse unchanged. */
  lemma {:induction false} CollapsePlainPrefix(p: string, t: string)
    requires forall i :: 0 <= i < |p| ==> p[i] != '\n'
    ensures CollapseNewlines(p + t) == p + CollapseNewlines(t)
    decreases |p|
  {
    if p != [] {
      var s := p + t;
      assert s[0] == p[0] != '\n';
      assert s[1..] == p[1..] + t;
      CollapsePlainPrefix(p[1..], t);
      calc {
        CollapseNewlines(s);
        [s[0]] + CollapseNewlines(s[1..]);
        [p[0]] + (p[1..] + CollapseNewlines(t));
        { assert [p[0]] + p[1..] == p; }
        p + CollapseNewlines(t);
      }
    } else {
      assert p + t == t;
    }
  }

  /** A maximal run of newlines becomes exactly one newline. */
  lemma CollapseNewlineRun(run: string, t: string)
    requires run != [] && forall i :: 0 <= i < |run| ==> run[i] == '\n'
    requires t == [] || t[0] != '\n'
    ensures CollapseNewlines(run + t) == "\n" + CollapseNewlines(t)
  {
    assert LeadingNewlines(run + t) == |run| by {
      if |run + t| > |run| {
        assert (run + t)[|run|] == t[0];
      }
    }
    assert (run + t)[|run|..] == t;
  }

  // ---------------------------------------------------------------------
  // Normalise

  /** Normalised lyrics never hold two adjacent newlines, and are empty or
      begin and end with a character that is not whitespace. */
  lemma NormaliseIsNormalised(raw: string)
    ensures IsNormalised(Normalise(raw))
  {
    CollapseNoDoubleNewline(raw);
    StripKeepsNoDoubleNewline(CollapseNewlines(raw));
    var _ := StripSpec(CollapseNewlines(raw));
  }

  /** Normalising an already normalised string returns it unchanged. */
  lemma NormaliseIdempotent(raw: string)
    ensures Normalise(Normalise(raw)) == Normalise(raw)
  {
    var r := Normalise(raw);
    NormaliseIsNormalised(raw);
    CollapseFixesNoDoubleNewline(r);
    StripFixesTrimmed(r);
  }

  /** A normalised string is its own normal form, and only such strings are. */
  lemma NormaliseFixedPoints(s: string)
    ensures Normalise(s) == s <==> IsNormalised(s)
  {
    NormaliseIsNormalised(s);
    if IsNormalised(s) {
      CollapseFixesNoDoubleNewline(s);
      StripFixesTrimmed(s);
    }
  }

  /** The normaliser only deletes characters: its output is a subsequence of
      the raw lyrics. */
  lemma NormaliseSubsequence(raw: string)
    ensures IsSubsequence(Normalise(raw), raw)
  {
    var c := CollapseNewlines(raw);
    CollapseSubsequence(raw);
    StripSubsequence(c);
    SubsequenceTransitive(Normalise(raw), c, raw);
  }

  /** The normaliser yields the empty string exactly when the raw lyrics are
      made of whitespace only (the empty string included). */
  lemma NormaliseEmptyIff(raw: string)
    ensures Normalise(raw) == [] <==> AllWs(raw)
  {
    CollapseAllWsIff(raw);
    StripEmptyIff(CollapseNewlines(raw));
  }

  /** Two lines separated by a run of blank lines and followed by trailing
      newlines normalise to the two lines joined by a single newline. */
  lemma NormaliseBlankLines(a: string, gap: string, b: string, tail: string)
    requires a != [] && !IsWs(a[0]) && forall i :: 0 <= i < |a| ==> a[i] != '\n'
    requires b != [] && !IsWs(b[|b| - 1]) && forall i :: 0 <= i < |b| ==> b[i] != '\n'
    requires gap != [] && forall i :: 0 <= i < |gap| ==> gap[i] == '\n'
    requires forall i :: 0 <= i < |tail| ==> tail[i] == '\n'
    ensures Normalise(a + gap + b + tail) == a + "\n" + b
  {
    var end := if tail == [] then "" else "\n";
    assert CollapseNewlines(b + tail) == b + end by {
      if tail != [] {
        CollapseNewlineRun(tail, "");
        assert tail + "" == tail;
      }
      CollapsePlainPrefix(b, tail);
    }
    CollapseNewlineRun(gap, b + tail);
    CollapsePlainPrefix(a, gap + (b + tail));
    assert a + gap + b + tail == a + (gap + (b + tail));
    var y := a + "\n" + b;
    assert CollapseNewlines(a + gap + b + tail) == y + end;
    assert TrimStart(y + end) == y + end by {
      assert (y + end)[0] == a[0];
    }
    assert TrimEnd(y + end) == y by {
      if tail != [] {
        assert (y + end)[..|y + end| - 1] == y;
      }
      assert y[|y| - 1] == b[|b| - 1];
    }
  }

  /** The worked example: blank lines between and after two lines are
      removed. */
  // The literal is a parameter fixed by `requires` so that the verifier does
  // not unroll the normaliser on a literal argument without bound.
  lemma NormaliseExample(raw: string)
    requires raw == "Line1\n\n\n\nLine2\n\n"
    ensures Normalise(raw) == "Line1\nLine2"
  {
    assert raw == "Line1" + "\n\n\n\n" + "Line2" + "\n\n";
    NormaliseBlankLines("Line1", "\n\n\n\n", "Line2", "\n\n");
    assert "Line1" + "\n" + "Line2" == "Line1\nLine2";
  }
}
