/**
 * The string primitives the order form relies on: JavaScript's `String.prototype.trim`
 * and `s.replace(/\s/g, "")`. Both use the same notion of white space, the ECMAScript
 * WhiteSpace and LineTerminator code points.
 */
module Text {

  /** ECMAScript white space: what `trim` removes and what the class `\s` matches. */
  predicate IsWhitespace(c: char) {
    || c == '\t' || c == '\n' || c == '\U{000B}' || c == '\U{000C}' || c == '\r' || c == ' '
    || c == '\U{00A0}' || c == '\U{1680}' || ('\U{2000}' <= c <= '\U{200A}')
    || c == '\U{2028}' || c == '\U{2029}' || c == '\U{202F}' || c == '\U{205F}'
    || c == '\U{3000}' || c == '\U{FEFF}'
  }

  /** An ASCII decimal digit: the class `\d` of a regular expression without the `u` flag. */
  predicate IsDigit(c: char) {
    '0' <= c <= '9'
  }

  /** Every character of `s` is white space (the empty string included). */
  predicate IsBlank(s: string) {
    forall i :: 0 <= i < |s| ==> IsWhitespace(s[i])
  }

  /** `s` with its leading white space removed. */
  function TrimStart(s: string): (r: string)
    ensures |r| <= |s| && r == s[|s| - |r|..]
    ensures IsBlank(s[..|s| - |r|])
    ensures r == [] || !IsWhitespace(r[0])
  {
    if s == [] || !IsWhitespace(s[0]) then s else TrimStart(s[1..])
  }

  /** `s` with its trailing white space removed. */
  function TrimEnd(s: string): (r: string)
    ensures |r| <= |s| && r == s[..|r|]
    ensures IsBlank(s[|r|..])
    ensures r == [] || !IsWhitespace(r[|r| - 1])
  {
    if s == [] || !IsWhitespace(s[|s| - 1]) then s else TrimEnd(s[..|s| - 1])
  }

  /** `s.trim()`: nothing is left exactly when `s` is blank, and what is left neither
      starts nor ends with white space. */
  function Trim(s: string): (r: string)
    ensures r == [] <==> IsBlank(s)
    ensures r == [] || (!IsWhitespace(r[0]) && !IsWhitespace(r[|r| - 1]))
  {
    TrimEnds(s);
    TrimEnd(TrimStart(s))
  }

  /** A string made of two blank parts is blank. */
  lemma BlankJoin(s: string, k: nat)
    requires k <= |s| && IsBlank(s[..k]) && IsBlank(s[k..])
    ensures IsBlank(s)
  {
    forall i | 0 <= i < |s|
      ensures IsWhitespace(s[i])
    {
      if i < k {
        assert s[..k][i] == s[i];
      } else {
        assert s[k..][i - k] == s[i];
      }
    }
  }

  /** The two facts `Trim` promises, shown on its definition. */
  lemma TrimEnds(s: string)
    ensures TrimEnd(TrimStart(s)) == [] <==> IsBlank(s)
    ensures TrimEnd(TrimStart(s)) == []
            || (!IsWhitespace(TrimEnd(TrimStart(s))[0])
                && !IsWhitespace(TrimEnd(TrimStart(s))[|TrimEnd(TrimStart(s))| - 1]))
  {
    var a := TrimStart(s);
    var r := TrimEnd(a);
    var k := |s| - |a|;
    if r == [] {
      assert a[|r|..] == a;
      assert s[k..] == a;
      BlankJoin(s, k);
    } else {
      assert r[0] == a[0];
      assert s[k] == a[0];
    }
  }

  /** Trimming twice is trimming once. */
  lemma TrimIdempotent(s: string)
    ensures Trim(Trim(s)) == Trim(s)
  {
    var r := Trim(s);
    assert TrimStart(r) == r;
    assert TrimEnd(r) == r;
  }

  /** Leading blanks do not change where trimming the start stops. */
  lemma {:induction false} TrimStartSkipsBlank(gap: string, s: string)
    requires IsBlank(gap)
    ensures TrimStart(gap + s) == TrimStart(s)
  {
    if gap != [] {
      assert (gap + s)[0] == gap[0] && IsWhitespace(gap[0]);
      assert (gap + s)[1..] == gap[1..] + s;
      assert IsBlank(gap[1..]);
      TrimStartSkipsBlank(gap[1..], s);
    } else {
      assert gap + s == s;
    }
  }

  /** Trailing blanks do not change where trimming the end stops. */
  lemma {:induction false} TrimEndSkipsBlank(s: string, gap: string)
    requires IsBlank(gap)
    ensures TrimEnd(s + gap) == TrimEnd(s)
  {
    if gap != [] {
      assert (s + gap)[|s + gap| - 1] == gap[|gap| - 1] && IsWhitespace(gap[|gap| - 1]);
      assert (s + gap)[..|s + gap| - 1] == s + gap[..|gap| - 1];
      assert IsBlank(gap[..|gap| - 1]);
      TrimEndSkipsBlank(s, gap[..|gap| - 1]);
    } else {
      assert s + gap == s;
    }
  }

  /** Trimming removes exactly the padding around a text that starts and ends with a
      visible character; white space inside the text is kept. */
  lemma TrimPadded(before: string, s: string, after: string)
    requires IsBlank(before) && IsBlank(after)
    requires s != [] && !IsWhitespace(s[0]) && !IsWhitespace(s[|s| - 1])
    ensures Trim(before + s + after) == s
  {
    assert before + s + after == before + (s + after);
    TrimStartSkipsBlank(before, s + after);
    assert TrimStart(s + after) == s + after;
    TrimEndSkipsBlank(s, after);
  }

  /** `s.replace(/\s/g, "")`: `s` with every white-space character removed, the others
      kept in order. */
  function StripWhitespace(s: string): (r: string)
    ensures |r| <= |s|
    ensures forall i :: 0 <= i < |r| ==> !IsWhitespace(r[i])
    ensures r == [] <==> IsBlank(s)
  {
    if s == [] then []
    else if IsWhitespace(s[0]) then StripWhitespace(s[1..])
    else [s[0]] + StripWhitespace(s[1..])
  }

  /** Stripping distributes over concatenation, so interior white space anywhere in
      the string disappears: `StripWhitespace("017 1234") == "0171234"`. */
  lemma {:induction false} StripAppend(a: string, b: string)
    ensures StripWhitespace(a + b) == StripWhitespace(a) + StripWhitespace(b)
  {
    if a == [] {
      assert a + b == b;
    } else {
      assert (a + b)[1..] == a[1..] + b;
      StripAppend(a[1..], b);
    }
  }

  /** White space between two parts of a string vanishes when stripping. */
  lemma StripDropsGap(a: string, gap: string, b: string)
    requires IsBlank(gap)
    ensures StripWhitespace(a + gap + b) == StripWhitespace(a) + StripWhitespace(b)
  {
    StripAppend(a + gap, b);
    StripAppend(a, gap);
  }

  /** No digit is white space. */
  lemma DigitsAreVisible(s: string)
    requires forall i :: 0 <= i < |s| ==> IsDigit(s[i])
    ensures forall i :: 0 <= i < |s| ==> !IsWhitespace(s[i])
  {
  }

  /** A string of digits is left unchanged by stripping. */
  lemma DigitsKeptByStrip(s: string)
    requires forall i :: 0 <= i < |s| ==> IsDigit(s[i])
    ensures StripWhitespace(s) == s
  {
    DigitsAreVisible(s);
    StripKeepsWhitespaceFree(s);
  }

  /** Stripping after trimming the start removes the same characters as stripping
      alone. */
  lemma {:induction false} StripIgnoresTrimStart(s: string)
    ensures StripWhitespace(TrimStart(s)) == StripWhitespace(s)
  {
    if s != [] && IsWhitespace(s[0]) {
      StripIgnoresTrimStart(s[1..]);
    }
  }

  /** Stripping after trimming the end removes the same characters as stripping
      alone. */
  lemma {:induction false} StripIgnoresTrimEnd(s: string)
    ensures StripWhitespace(TrimEnd(s)) == StripWhitespace(s)
  {
    if s != [] && IsWhitespace(s[|s| - 1]) {
      var init := s[..|s| - 1];
      assert s == init + [s[|s| - 1]];
      StripAppend(init, [s[|s| - 1]]);
      assert StripWhitespace([s[|s| - 1]]) == [];
      StripIgnoresTrimEnd(init);
    }
  }

  /** Stripping after trimming removes the same characters as stripping alone. */
  lemma StripIgnoresTrim(s: string)
    ensures StripWhitespace(Trim(s)) == StripWhitespace(s)
  {
    StripIgnoresTrimEnd(TrimStart(s));
    StripIgnoresTrimStart(s);
  }

  /** A string without white space is left unchanged by stripping. */
  lemma {:induction false} StripKeepsWhitespaceFree(s: string)
    requires forall i :: 0 <= i < |s| ==> !IsWhitespace(s[i])
    ensures StripWhitespace(s) == s
  {
    if s != [] {
      StripKeepsWhitespaceFree(s[1..]);
    }
  }
}
