/**
 * The two pieces of Python string behaviour that the nutrient scraper relies on:
 * `str.split('\n')` and the substring test `pat in s`.
 */
module Text {

  /** `s.split('\n')`: the pieces between newlines, always at least one (an empty text gives [""]). */
  function SplitLines(s: string): (lines: seq<string>)
    ensures |lines| >= 1
    ensures forall i :: 0 <= i < |lines| ==> '\n' !in lines[i]
  {
    if s == [] then [""]
    else
      var rest := SplitLines(s[1..]);
      if s[0] == '\n' then [""] + rest
      else [[s[0]] + rest[0]] + rest[1..]
  }

  /** `'\n'.join(lines)`, the inverse of SplitLines. */
  function Join(lines: seq<string>): string
    requires |lines| >= 1
  {
    if |lines| == 1 then lines[0] else lines[0] + "\n" + Join(lines[1..])
  }

  /** Splitting and joining again gives back the original text. */
  lemma {:induction false} JoinSplit(s: string)
    ensures Join(SplitLines(s)) == s
  {
    if s != [] {
      var rest := SplitLines(s[1..]);
      JoinSplit(s[1..]);
      if s[0] == '\n' {
        assert SplitLines(s)[1..] == rest;
      } else {
        var lines := SplitLines(s);
        if |rest| == 1 {
          assert Join(lines) == [s[0]] + rest[0];
        } else {
          assert lines[1..] == rest[1..];
          assert Join(rest) == rest[0] + "\n" + Join(rest[1..]);
        }
      }
    }
  }

  /** A piece without a newline splits into itself followed by whatever the rest splits into. */
  lemma {:induction false} SplitPiece(piece: string, rest: string)
    requires '\n' !in piece
    ensures SplitLines(piece) == [piece]
    ensures SplitLines(piece + "\n" + rest) == [piece] + SplitLines(rest)
  {
    if piece != [] {
      SplitPiece(piece[1..], rest);
      assert (piece + "\n" + rest)[1..] == piece[1..] + "\n" + rest;
      assert [piece[0]] + piece[1..] == piece;
    } else {
      assert piece + "\n" + rest == "\n" + rest;
    }
  }

  /** Joining newline-free pieces and splitting again gives back the pieces. */
  lemma {:induction false} SplitJoin(lines: seq<string>)
    requires |lines| >= 1
    requires forall i :: 0 <= i < |lines| ==> '\n' !in lines[i]
    ensures SplitLines(Join(lines)) == lines
  {
    if |lines| == 1 {
      SplitPiece(lines[0], "");
    } else {
      SplitJoin(lines[1..]);
      SplitPiece(lines[0], Join(lines[1..]));
    }
  }

  /** Python's `pat in s` for strings: `pat` occurs somewhere in `s`. */
  predicate IsSubstring(pat: string, s: string)
    ensures IsSubstring(pat, s) ==> |pat| <= |s|
    decreases |s|
  {
    pat <= s || (|s| > 0 && IsSubstring(pat, s[1..]))
  }

  /** What occurs in a suffix of `s` occurs in `s`. */
  lemma {:induction false} SuffixSubstring(pat: string, s: string, k: nat)
    requires k <= |s| && IsSubstring(pat, s[k..])
    ensures IsSubstring(pat, s)
  {
    if k > 0 {
      assert s[1..][k - 1..] == s[k..];
      SuffixSubstring(pat, s[1..], k - 1);
    }
  }

  /** An occurrence of `pat` in `s` at offset `i`. */
  ghost predicate OccursAt(pat: string, s: string, i: int)
  {
    0 <= i && i + |pat| <= |s| && s[i..i + |pat|] == pat
  }

  /** IsSubstring holds exactly when there is an offset where `pat` occurs. */
  lemma {:induction false} IsSubstringIff(pat: string, s: string)
    ensures IsSubstring(pat, s) <==> exists i :: OccursAt(pat, s, i)
    decreases |s|
  {
    if pat <= s {
      assert OccursAt(pat, s, 0);
    } else if |s| > 0 {
      IsSubstringIff(pat, s[1..]);
      if IsSubstring(pat, s[1..]) {
        var i :| OccursAt(pat, s[1..], i);
        OccursShift(pat, s, i);
      }
      if i :| OccursAt(pat, s, i) {
        OccursUnshift(pat, s, i);
      }
    } else {
      assert |pat| > 0;
    }
  }

  /** An occurrence in the tail of `s` is an occurrence in `s`, one place later. */
  lemma OccursShift(pat: string, s: string, i: int)
    requires |s| > 0 && OccursAt(pat, s[1..], i)
    ensures OccursAt(pat, s, i + 1)
  {
    assert s[1..][i..i + |pat|] == s[i + 1..i + 1 + |pat|];
  }

  /** An occurrence in `s` other than a prefix is an occurrence in the tail, one place earlier. */
  lemma OccursUnshift(pat: string, s: string, i: int)
    requires !(pat <= s) && OccursAt(pat, s, i)
    ensures i > 0 && OccursAt(pat, s[1..], i - 1)
  {
    assert s[1..][i - 1..i - 1 + |pat|] == s[i..i + |pat|];
  }


  /** Occurrence is transitive: a pattern inside a piece of `s` is inside `s`. */
  lemma SubstringTrans(pat: string, mid: string, s: string)
    requires IsSubstring(pat, mid) && IsSubstring(mid, s)
    ensures IsSubstring(pat, s)
  {
    IsSubstringIff(pat, mid);
    IsSubstringIff(mid, s);
    IsSubstringIff(pat, s);
    var i :| OccursAt(pat, mid, i);
    var j :| OccursAt(mid, s, j);
    forall k | 0 <= k < |pat| ensures s[j + i + k] == pat[k] {
      assert mid[i + k] == pat[k];
      assert s[j..j + |mid|][i + k] == s[j + i + k];
    }
    assert OccursAt(pat, s, j + i);
  }

  /** Every line produced by SplitLines occurs in the text it came from. */
  lemma {:induction false} SplitLinesInText(s: string, k: int)
    requires 0 <= k < |SplitLines(s)|
    ensures IsSubstring(SplitLines(s)[k], s)
  {
    SplitLinesShape(s);
    var lines := SplitLines(s);
    if k == 0 {
      assert lines[0] <= s;
    } else {
      assert s != [];
      var rest := SplitLines(s[1..]);
      var k' := if s[0] == '\n' then k - 1 else k;
      assert lines[k] == rest[k'];
      SplitLinesInText(s[1..], k');
      IsSubstringIff(lines[k], s[1..]);
      IsSubstringIff(lines[k], s);
      var i :| OccursAt(lines[k], s[1..], i);
      assert s[1..][i..i + |lines[k]|] == s[i + 1..i + 1 + |lines[k]|];
      assert OccursAt(lines[k], s, i + 1);
    }
  }

  /** The first line is a prefix of the text. */
  lemma {:induction false} SplitLinesShape(s: string)
    ensures SplitLines(s)[0] <= s
  {
    if s != [] && s[0] != '\n' {
      SplitLinesShape(s[1..]);
    }
  }

  /** A pattern whose first character does not occur in `s` is not in `s`. */
  lemma {:induction false} FirstCharAbsent(pat: string, s: string)
    requires |pat| > 0 && pat[0] !in s
    ensures !IsSubstring(pat, s)
    decreases |s|
  {
    if |s| > 0 {
      assert s[0] in s;
      assert forall c :: c in s[1..] ==> c in s;
      FirstCharAbsent(pat, s[1..]);
    }
  }
}
