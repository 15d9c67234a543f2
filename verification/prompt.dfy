/**
 * analyze_nutrition's request to the language model: the dish name followed by a fixed
 * instruction that lists the five nutrients, separated by '、', and asks for concrete numbers
 * with units. The model's answer is outside this model; it reaches the app as the `reply` text
 * of Ledger.SubmitDish.
 */
module Analysis {
  import opened Text
  import opened Nutrition

  /** The pieces of the instruction: its opening, the five labels separated by '、', its closing. */
  const TailPieces: seq<string> := [
    "の栄養成分（", Labels[0], "、", Labels[1], "、", Labels[2], "、", Labels[3], "、", Labels[4],
    "）を具体的な数値で教えてください。単位もつけてください。"
  ]

  /** The pieces written one after another. */
  function Concat(pieces: seq<string>): string
  {
    if pieces == [] then "" else Concat(pieces[..|pieces| - 1]) + pieces[|pieces| - 1]
  }

  /** The instruction that follows the dish name. */
  const PromptTail: string := Concat(TailPieces)

  /** The prompt sent for `dish`: the dish name, then an instruction that names every label. */
  function Prompt(dish: string): (p: string)
    ensures |dish| <= |p| && p[..|dish|] == dish
    ensures forall n :: n in Labels ==> IsSubstring(n, p[|dish|..])
  {
    TailNamesEveryLabel();
    dish + PromptTail
  }

  /** Different dish names give different prompts, so the dish can be read back from its prompt. */
  lemma PromptInjective(d1: string, d2: string)
    requires Prompt(d1) == Prompt(d2)
    ensures d1 == d2
  {
    assert |d1| == |d2|;
    assert d1 == Prompt(d1)[..|d1|];
  }

  /** Each piece occurs in the concatenation of the pieces. */
  lemma {:induction false} PieceInConcat(pieces: seq<string>, i: int)
    requires 0 <= i < |pieces|
    ensures IsSubstring(pieces[i], Concat(pieces))
  {
    var init, last := pieces[..|pieces| - 1], pieces[|pieces| - 1];
    var s := Concat(pieces);
    assert s == Concat(init) + last;
    if i == |pieces| - 1 {
      assert s[|Concat(init)|..|s|] == last;
      assert OccursAt(last, s, |Concat(init)|);
    } else {
      assert init[i] == pieces[i];
      PieceInConcat(init, i);
      IsSubstringIff(pieces[i], Concat(init));
      var k :| OccursAt(pieces[i], Concat(init), k);
      assert s[k..k + |pieces[i]|] == Concat(init)[k..k + |pieces[i]|];
      assert OccursAt(pieces[i], s, k);
    }
    IsSubstringIff(pieces[i], s);
  }

  /** The instruction names each of the five labels. */
  lemma TailNamesEveryLabel()
    ensures forall n :: n in Labels ==> IsSubstring(n, PromptTail)
  {
    forall n | n in Labels
      ensures IsSubstring(n, PromptTail)
    {
      var i :| 0 <= i < |Labels| && Labels[i] == n;
      assert TailPieces[2 * i + 1] == n;
      PieceInConcat(TailPieces, 2 * i + 1);
    }
  }

  /** Whatever the dish, the prompt names each of the five nutrients the parser looks for. */
  lemma PromptNamesEveryLabel(dish: string)
    ensures forall n :: n in Labels ==> IsSubstring(n, Prompt(dish))
  {
    var p := Prompt(dish);
    forall n | n in Labels
      ensures IsSubstring(n, p)
    {
      SuffixSubstring(n, p, |dish|);
    }
  }
}
