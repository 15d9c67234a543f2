/**
 * The search `re.search(r"([0-9]+\.?[0-9]*)", line)` and the conversion `float(match.group(1))`
 * used by parse_nutrition. `[0-9]` matches the ASCII digits only, and the value is kept as an
 * exact `real` instead of a binary float.
 */
module NumberToken {
  import opened Wrappers

  predicate IsDigit(c: char)
  {
    '0' <= c <= '9'
  }

  ghost predicate AllDigits(s: string)
  {
    forall k :: 0 <= k < |s| ==> IsDigit(s[k])
  }

  /** `w` belongs to the language of `[0-9]+\.?[0-9]*`: digits, or digits, a dot and possibly more digits. */
  ghost predicate MatchesPattern(w: string)
  {
    || (|w| >= 1 && AllDigits(w))
    || exists n :: 1 <= n < |w| && AllDigits(w[..n]) && w[n] == '.' && AllDigits(w[n + 1..])
  }

  /** Length of the longest run of ASCII digits at the front of `s`. */
  function DigitRun(s: string): (n: nat)
    ensures n <= |s|
    ensures forall k :: 0 <= k < n ==> IsDigit(s[k])
    ensures n < |s| ==> !IsDigit(s[n])
  {
    if s != [] && IsDigit(s[0]) then 1 + DigitRun(s[1..]) else 0
  }

  /** Position of the first ASCII digit of `s`, if there is one. */
  function FirstDigit(s: string): (r: Option<nat>)
    ensures r.Some? ==> r.value < |s| && IsDigit(s[r.value])
    ensures forall k :: 0 <= k < |s| && (r.None? || k < r.value) ==> !IsDigit(s[k])
  {
    if s == [] then None
    else if IsDigit(s[0]) then Some(0)
    else match FirstDigit(s[1..])
      case None => None
      case Some(i) => Some(i + 1)
  }

  /** A match of the pattern: where it starts and its three parts (`15`, `.`, `5` in "15.5"). */
  datatype NumberMatch = NumberMatch(start: nat, intDigits: string, hasDot: bool, fracDigits: string)
  {
    /** The matched text, `match.group(1)`. */
    function Text(): string
    {
      intDigits + (if hasDot then "." else "") + fracDigits
    }

    /** The position just after the match. */
    function End(): nat
    {
      start + |Text()|
    }

    ghost predicate WellFormed()
    {
      |intDigits| >= 1 && AllDigits(intDigits) && AllDigits(fracDigits) && (!hasDot ==> fracDigits == "")
    }
  }

  /**
   * The leftmost match of `[0-9]+\.?[0-9]*` in `line`: it starts at the first digit, takes the
   * whole digit run, then a '.' if one follows, then the digit run after that dot.
   */
  function FirstNumberToken(line: string): (r: Option<NumberMatch>)
    ensures r.None? <==> forall k :: 0 <= k < |line| ==> !IsDigit(line[k])
    ensures r.Some? ==> r.value.WellFormed() && r.value.End() <= |line|
    ensures r.Some? ==> line[r.value.start..r.value.End()] == r.value.Text()
  {
    match FirstDigit(line)
    case None => None
    case Some(s) =>
      var n := DigitRun(line[s..]);
      var p := s + n;
      if p < |line| && line[p] == '.' then
        var f := DigitRun(line[p + 1..]);
        RunSlice(line, s, n);
        RunSlice(line, p + 1, f);
        DottedSlice(line, s, p, p + 1 + f);
        Some(NumberMatch(s, line[s..p], true, line[p + 1..p + 1 + f]))
      else
        RunSlice(line, s, n);
        Some(NumberMatch(s, line[s..p], false, ""))
  }

  /** A digit run found in a suffix is all digits when sliced out of the whole line. */
  lemma RunSlice(line: string, s: nat, n: nat)
    requires s + n <= |line|
    requires forall k :: 0 <= k < n ==> IsDigit(line[s..][k])
    ensures AllDigits(line[s..s + n])
  {
    var w := line[s..s + n];
    forall k | 0 <= k < n
      ensures IsDigit(w[k])
    {
      assert w[k] == line[s..][k];
    }
  }

  /** Slicing across a dot splits into the part before it, the dot and the part after it. */
  lemma DottedSlice(line: string, s: nat, p: nat, e: nat)
    requires s <= p < e <= |line| && line[p] == '.'
    ensures line[s..e] == line[s..p] + "." + line[p + 1..e]
  {
  }

  /** Any text the pattern matches begins with a digit. */
  lemma MatchStartsWithDigit(w: string)
    requires MatchesPattern(w)
    ensures |w| >= 1 && IsDigit(w[0])
  {
    if !(|w| >= 1 && AllDigits(w)) {
      var n :| 1 <= n < |w| && AllDigits(w[..n]) && w[n] == '.' && AllDigits(w[n + 1..]);
      assert w[..n][0] == w[0];
    }
  }

  /** No match of the pattern can start at a position that is not a digit. */
  lemma NoMatchAtNonDigit(line: string, s: int)
    requires 0 <= s < |line| && !IsDigit(line[s])
    ensures forall e :: s <= e <= |line| ==> !MatchesPattern(line[s..e])
  {
    forall e | s <= e <= |line| && MatchesPattern(line[s..e])
      ensures false
    {
      MatchStartsWithDigit(line[s..e]);
    }
  }

  /** End of the greedy match of the pattern at `st`: the digit run, then a dot and its digit run. */
  ghost function GreedyEnd(line: string, st: nat): nat
    requires st <= |line|
  {
    var p := st + DigitRun(line[st..]);
    if p < |line| && line[p] == '.' then p + 1 + DigitRun(line[p + 1..]) else p
  }

  lemma FirstNumberTokenEnd(line: string)
    requires FirstNumberToken(line).Some?
    ensures FirstNumberToken(line).value.End() == GreedyEnd(line, FirstNumberToken(line).value.start)
  {
  }

  /** No match at `st` reaches past the greedy one. */
  lemma LongestAtStart(line: string, st: nat, e: int)
    requires st < |line| && IsDigit(line[st])
    requires GreedyEnd(line, st) < e <= |line|
    ensures !MatchesPattern(line[st..e])
  {
    var w := line[st..e];
    var n := DigitRun(line[st..]);
    var p := st + n;
    assert p < e;
    assert !IsDigit(line[p]) by {
      assert line[st..][n] == line[p];
    }
    if |w| >= 1 && AllDigits(w) {
      DigitInSlice(line, st, e, p);
    } else if n' :| 1 <= n' < |w| && AllDigits(w[..n']) && w[n'] == '.' && AllDigits(w[n' + 1..]) {
      if n' > n {
        assert w[..n'] == line[st..st + n'];
        DigitInSlice(line, st, st + n', p);
      } else if n' == n {
        var f := DigitRun(line[p + 1..]);
        assert GreedyEnd(line, st) == p + 1 + f;
        assert !IsDigit(line[p + 1 + f]) by {
          assert line[p + 1..][f] == line[p + 1 + f];
        }
        assert w[n' + 1..] == line[p + 1..e];
        DigitInSlice(line, p + 1, e, p + 1 + f);
      }
    }
  }

  lemma DigitInSlice(line: string, i: int, j: int, k: int)
    requires 0 <= i <= k < j <= |line| && AllDigits(line[i..j])
    ensures IsDigit(line[k])
  {
    assert line[i..j][k - i] == line[k];
  }

  /**
   * FirstNumberToken is what `re.search` returns: no text matches the pattern when the line has
   * no digit; otherwise the match it gives is one of the pattern, no match starts earlier, and
   * none starting at the same place is longer (greedy quantifiers take the longest match here).
   */
  lemma FirstNumberTokenIsLeftmostLongest(line: string)
    ensures FirstNumberToken(line).None? <==>
              forall s, e :: 0 <= s <= e <= |line| ==> !MatchesPattern(line[s..e])
    ensures FirstNumberToken(line).Some? ==>
              var m := FirstNumberToken(line).value;
              && MatchesPattern(m.Text())
              && (forall s, e :: 0 <= s < m.start && s <= e <= |line| ==> !MatchesPattern(line[s..e]))
              && (forall e :: m.End() < e <= |line| ==> !MatchesPattern(line[m.start..e]))
  {
    match FirstNumberToken(line)
    case None =>
      forall s, e | 0 <= s <= e <= |line| ensures !MatchesPattern(line[s..e]) {
        if s < |line| {
          NoMatchAtNonDigit(line, s);
        } else {
          assert line[s..e] == [];
        }
      }
    case Some(m) =>
      MatchIsPattern(m);
      forall s, e | 0 <= s < m.start && s <= e <= |line| ensures !MatchesPattern(line[s..e]) {
        NoMatchAtNonDigit(line, s);
      }
      FirstNumberTokenEnd(line);
      forall e | m.End() < e <= |line| ensures !MatchesPattern(line[m.start..e]) {
        LongestAtStart(line, m.start, e);
      }
      assert MatchesPattern(line[m.start..m.End()]);
  }

  /** The text of a well-formed match is in the pattern's language. */
  lemma MatchIsPattern(m: NumberMatch)
    requires m.WellFormed()
    ensures MatchesPattern(m.Text())
  {
    var w := m.Text();
    if m.hasDot {
      var n := |m.intDigits|;
      assert w[..n] == m.intDigits && w[n] == '.' && w[n + 1..] == m.fracDigits;
    } else {
      assert w == m.intDigits;
    }
  }

  /** Value of a string of decimal digits. */
  function DigitsValue(ds: string): nat
    requires AllDigits(ds)
  {
    if ds == [] then 0 else DigitsValue(ds[..|ds| - 1]) * 10 + (ds[|ds| - 1] as int - '0' as int)
  }

  function Pow10(n: nat): (r: nat)
    ensures r >= 1
  {
    if n == 0 then 1 else 10 * Pow10(n - 1)
  }

  /** `float(match.group(1))`, exactly: the integer digits plus the fraction digits scaled down. */
  function Value(m: NumberMatch): real
    requires m.WellFormed()
  {
    DigitsValue(m.intDigits) as real + DigitsValue(m.fracDigits) as real / Pow10(|m.fracDigits|) as real
  }

  /** A token without a dot reads as the integer its digits spell. */
  lemma ValueOfWhole(m: NumberMatch)
    requires m.WellFormed() && !m.hasDot
    ensures Value(m) == DigitsValue(m.intDigits) as real
  {
    assert m.fracDigits == [];
  }

  /** Reading a digit string in two pieces: the front piece is shifted left by the length of the back. */
  lemma {:induction false} DigitsConcat(a: string, b: string)
    requires AllDigits(a) && AllDigits(b)
    ensures AllDigits(a + b)
    ensures DigitsValue(a + b) == DigitsValue(a) * Pow10(|b|) + DigitsValue(b)
  {
    if b != [] {
      var b' := b[..|b| - 1];
      DigitsConcat(a, b');
      assert (a + b)[..|a + b| - 1] == a + b';
      var d := b[|b| - 1] as int - '0' as int;
      assert (a + b)[|a + b| - 1] == b[|b| - 1];
      assert DigitsValue(a + b) == DigitsValue(a + b') * 10 + d;
      assert DigitsValue(b) == DigitsValue(b') * 10 + d;
      assert Pow10(|b|) == Pow10(|b'|) * 10;
      ShiftStep(DigitsValue(a), DigitsValue(b'), Pow10(|b'|), d);
    } else {
      assert a + b == a;
    }
  }

  /** A string of k digits is worth less than 10^k. */
  lemma {:induction false} DigitsBound(ds: string)
    requires AllDigits(ds)
    ensures DigitsValue(ds) < Pow10(|ds|)
  {
    if ds != [] {
      DigitsBound(ds[..|ds| - 1]);
    }
  }

  /**
   * The value is the matched digits read without the dot, divided by 10 to the number of
   * fraction digits: "15.5" is 155 / 10.
   */
  lemma ValueIsDecimal(m: NumberMatch)
    requires m.WellFormed()
    ensures AllDigits(m.intDigits + m.fracDigits)
    ensures Value(m) == DigitsValue(m.intDigits + m.fracDigits) as real / Pow10(|m.fracDigits|) as real
  {
    DigitsConcat(m.intDigits, m.fracDigits);
    DecimalScale(DigitsValue(m.intDigits), DigitsValue(m.fracDigits), Pow10(|m.fracDigits|),
                 DigitsValue(m.intDigits + m.fracDigits), Value(m));
  }

  lemma DecimalScale(i: nat, f: nat, q: nat, c: nat, v: real)
    requires q >= 1
    requires c == i * q + f
    requires v == i as real + f as real / q as real
    ensures v == c as real / q as real
  {
    assert (i * q) as real == i as real * q as real;
  }

  /**
   * The whole part of the value is the integer digits: the fraction digits add less than one.
   * In particular the value is never negative (the pattern has no sign).
   */
  lemma ValueWholePart(m: NumberMatch)
    requires m.WellFormed()
    ensures DigitsValue(m.intDigits) as real <= Value(m) < DigitsValue(m.intDigits) as real + 1.0
  {
    DigitsBound(m.fracDigits);
    FractionBelowOne(DigitsValue(m.fracDigits) as real, Pow10(|m.fracDigits|) as real);
  }

  lemma ShiftStep(x: int, y: int, q: int, d: int)
    ensures (x * q + y) * 10 + d == x * (q * 10) + (y * 10 + d)
  {
  }

  lemma FractionBelowOne(f: real, q: real)
    requires 0.0 <= f < q
    ensures 0.0 <= f / q < 1.0
  {
  }

  /** A maximal run of digits occupies positions `i` to `j - 1` of `line`. */
  ghost predicate RunBetween(line: string, i: int, j: int)
  {
    0 <= i <= j <= |line| && (forall k :: i <= k < j ==> IsDigit(line[k])) && (j < |line| ==> !IsDigit(line[j]))
  }

  /** DigitRun measures exactly such a run. */
  lemma DigitRunIs(line: string, i: int, j: int)
    requires RunBetween(line, i, j)
    ensures DigitRun(line[i..]) == j - i
  {
  }

  /** The first digit is at `st` when there is a digit there and none before. */
  lemma FirstDigitIs(line: string, st: nat)
    requires st < |line| && IsDigit(line[st])
    requires forall k :: 0 <= k < st ==> !IsDigit(line[k])
    ensures FirstDigit(line) == Some(st)
  {
  }

  /** FirstNumberToken on a line whose first digit run, at `st` up to `p`, is followed by a dot and a run up to `q`. */
  lemma TokenWithDot(line: string, st: nat, p: nat, q: nat)
    requires st < p && RunBetween(line, st, p)
    requires forall k :: 0 <= k < st ==> !IsDigit(line[k])
    requires p < |line| && line[p] == '.' && RunBetween(line, p + 1, q)
    ensures FirstNumberToken(line) == Some(NumberMatch(st, line[st..p], true, line[p + 1..q]))
  {
    FirstDigitIs(line, st);
    DigitRunIs(line, st, p);
    DigitRunIs(line, p + 1, q);
  }

  /** FirstNumberToken on a line whose first digit run, at `st` up to `p`, is not followed by a dot. */
  lemma TokenWithoutDot(line: string, st: nat, p: nat)
    requires st < p && RunBetween(line, st, p)
    requires forall k :: 0 <= k < st ==> !IsDigit(line[k])
    requires !(p < |line| && line[p] == '.')
    ensures FirstNumberToken(line) == Some(NumberMatch(st, line[st..p], false, ""))
  {
    FirstDigitIs(line, st);
    DigitRunIs(line, st, p);
  }
}
