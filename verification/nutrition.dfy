/**
 * parse_nutrition: the scraper that turns the model's free-text answer into a partial map from
 * the five nutrient labels to numbers. Each line is tested for each label in turn; when the
 * label occurs in the line, the line's first number (see NumberToken) is stored under it,
 * overwriting whatever an earlier line stored.
 */
module Nutrition {
  import opened Wrappers
  import opened Text
  import opened NumberToken

  /** The labels energy, protein, fat, carbohydrate and potassium, in the order they are tested. */
  const Labels: seq<string> := ["エネルギー", "たんぱく質", "脂質", "糖質", "カリウム"]

  /** The line mentions `nutrient` and has a number, so processing it stores a value under `nutrient`. */
  predicate Hits(line: string, nutrient: string)
  {
    IsSubstring(nutrient, line) && FirstNumberToken(line).Some?
  }

  /** The number a line contributes: the value of its first numeric token. */
  function LineValue(line: string): (v: real)
    requires FirstNumberToken(line).Some?
    ensures v >= 0.0
  {
    var m := FirstNumberToken(line).value;
    ValueWholePart(m);
    Value(m)
  }

  /** What one line stores: every label among `labels` that the line contains gets the line's number. */
  function LineReadings(labels: seq<string>, line: string): map<string, real>
  {
    if FirstNumberToken(line).Some? then
      map l | l in labels && IsSubstring(l, line) :: LineValue(line)
    else
      map[]
  }

  /** The readings left after processing `lines` in order, later lines overwriting earlier ones. */
  function ParseLines(lines: seq<string>): (data: map<string, real>)
    ensures forall l :: l in data ==> l in Labels && data[l] >= 0.0
  {
    if lines == [] then map[]
    else ParseLines(lines[..|lines| - 1]) + LineReadings(Labels, lines[|lines| - 1])
  }

  /** The result of parse_nutrition on `text`. */
  function ParseNutritionSpec(text: string): map<string, real>
  {
    ParseLines(SplitLines(text))
  }

  /** Processing one more line adds what that line stores. */
  lemma ParseLinesPrefix(lines: seq<string>, i: nat)
    requires i < |lines|
    ensures ParseLines(lines[..i + 1]) == ParseLines(lines[..i]) + LineReadings(Labels[..|Labels|], lines[i])
  {
    assert lines[..i + 1][..i] == lines[..i];
    assert Labels[..|Labels|] == Labels;
  }

  /** One turn of the inner loop adds the line's number under `nutrient` when the line hits it. */
  lemma ReadingsStep(prev: map<string, real>, labels: seq<string>, j: nat, line: string)
    requires j < |labels|
    ensures prev + LineReadings(labels[..j + 1], line) ==
            if Hits(line, labels[j]) then (prev + LineReadings(labels[..j], line))[labels[j] := LineValue(line)]
            else prev + LineReadings(labels[..j], line)
  {
    assert labels[..j + 1] == labels[..j] + [labels[j]];
  }

  /** parse_nutrition: the nested loops over lines and labels, updating `data` in place. */
  method ParseNutrition(text: string) returns (data: map<string, real>)
    ensures data == ParseNutritionSpec(text)
  {
    data := map[];
    var lines := SplitLines(text);
    var i := 0;
    while i < |lines|
      invariant 0 <= i <= |lines|
      invariant data == ParseLines(lines[..i])
    {
      var line := lines[i];
      ghost var prev := data;
      var j := 0;
      while j < |Labels|
        invariant 0 <= j <= |Labels|
        invariant data == prev + LineReadings(Labels[..j], line)
      {
        var nutrient := Labels[j];
        if IsSubstring(nutrient, line) {
          var found := FirstNumberToken(line);
          if found.Some? {
            data := data[nutrient := Value(found.value)];
          }
        }
        ReadingsStep(prev, Labels, j, line);
        j := j + 1;
      }
      ParseLinesPrefix(lines, i);
      i := i + 1;
    }
    assert lines[..|lines|] == lines;
  }

  /** The labels a single line stores are the ones it hits. */
  lemma ReadingsKeys(line: string, nutrient: string)
    ensures nutrient in LineReadings(Labels, line) <==> nutrient in Labels && Hits(line, nutrient)
  {
  }

  /** A label is in the result exactly when it is one of the five and some line hits it. */
  lemma {:induction false} ParsedIff(lines: seq<string>, nutrient: string)
    ensures nutrient in ParseLines(lines) <==>
              nutrient in Labels && exists i :: 0 <= i < |lines| && Hits(lines[i], nutrient)
  {
    if lines != [] {
      var init, last := lines[..|lines| - 1], lines[|lines| - 1];
      ParsedIff(init, nutrient);
      ReadingsKeys(last, nutrient);
      assert nutrient in ParseLines(lines) <==> nutrient in ParseLines(init) || nutrient in LineReadings(Labels, last);
      if exists i :: 0 <= i < |lines| && Hits(lines[i], nutrient) {
        var i :| 0 <= i < |lines| && Hits(lines[i], nutrient);
        if i < |lines| - 1 {
          assert Hits(init[i], nutrient);
        }
      }
      if exists i :: 0 <= i < |init| && Hits(init[i], nutrient) {
        var i :| 0 <= i < |init| && Hits(init[i], nutrient);
        assert Hits(lines[i], nutrient);
      }
    }
  }

  /**
   * The value stored under a label comes from the last line that hits it: later lines
   * overwrite earlier ones.
   */
  lemma {:induction false} LastHitWins(lines: seq<string>, nutrient: string, k: int)
    requires nutrient in Labels
    requires 0 <= k < |lines| && Hits(lines[k], nutrient)
    requires forall j :: k < j < |lines| ==> !Hits(lines[j], nutrient)
    ensures nutrient in ParseLines(lines) && ParseLines(lines)[nutrient] == LineValue(lines[k])
  {
    var init, last := lines[..|lines| - 1], lines[|lines| - 1];
    if k < |lines| - 1 {
      assert !Hits(last, nutrient);
      LastHitWins(init, nutrient, k);
    }
  }

  /** Two labels whose last hit is the same line both get that line's number. */
  lemma SharedLineSameValue(lines: seq<string>, n1: string, n2: string, k: int)
    requires n1 in Labels && n2 in Labels
    requires 0 <= k < |lines| && Hits(lines[k], n1) && Hits(lines[k], n2)
    requires forall j :: k < j < |lines| ==> !Hits(lines[j], n1) && !Hits(lines[j], n2)
    ensures n1 in ParseLines(lines) && n2 in ParseLines(lines)
    ensures ParseLines(lines)[n1] == ParseLines(lines)[n2] == LineValue(lines[k])
  {
    LastHitWins(lines, n1, k);
    LastHitWins(lines, n2, k);
  }

  /**
   * A line that does not hit a label (it lacks the label, or has no digit) leaves that label's
   * entry as it was: still absent, or still holding the earlier value.
   */
  lemma LineWithoutHitKeeps(lines: seq<string>, line: string, nutrient: string)
    requires !Hits(line, nutrient)
    ensures nutrient in ParseLines(lines + [line]) <==> nutrient in ParseLines(lines)
    ensures nutrient in ParseLines(lines) ==> ParseLines(lines + [line])[nutrient] == ParseLines(lines)[nutrient]
  {
    assert (lines + [line])[..|lines|] == lines;
  }

  /** A line with no digit at all changes nothing. */
  lemma LineWithoutDigitKeeps(lines: seq<string>, line: string)
    requires forall k :: 0 <= k < |line| ==> !IsDigit(line[k])
    ensures ParseLines(lines + [line]) == ParseLines(lines)
  {
    assert (lines + [line])[..|lines|] == lines;
  }

  /** Every label in the result occurs in the text. */
  lemma ParsedLabelOccurs(text: string, nutrient: string)
    requires nutrient in ParseNutritionSpec(text)
    ensures nutrient in Labels && IsSubstring(nutrient, text)
  {
    var lines := SplitLines(text);
    ParsedIff(lines, nutrient);
    var i :| 0 <= i < |lines| && Hits(lines[i], nutrient);
    SplitLinesInText(text, i);
    SubstringTrans(nutrient, lines[i], text);
  }

  /** Text that mentions none of the labels, the empty text included, parses to the empty map. */
  lemma NoLabelNoData(text: string)
    requires forall n :: n in Labels ==> !IsSubstring(n, text)
    ensures ParseNutritionSpec(text) == map[]
  {
    if nutrient :| nutrient in ParseNutritionSpec(text) {
      ParsedLabelOccurs(text, nutrient);
    }
  }

  /** A line that contains exactly one of the labels, and a number, stores that label only. */
  lemma OnlyHit(line: string, nutrient: string)
    requires nutrient in Labels && Hits(line, nutrient)
    requires forall n :: n in Labels && n != nutrient ==> !IsSubstring(n, line)
    ensures LineReadings(Labels, line) == map[nutrient := LineValue(line)]
  {
  }

  /** A text without newlines is a single line. */
  lemma SingleLine(line: string)
    requires '\n' !in line
    ensures ParseNutritionSpec(line) == LineReadings(Labels, line)
  {
    SplitPiece(line, "");
    assert [line][..0] == [];
    assert ParseLines([line]) == map[] + LineReadings(Labels, line);
  }
}
