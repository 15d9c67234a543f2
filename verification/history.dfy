/**
 * The session's meal log: entries built from a dish name and its parsed readings, the
 * append-only history kept in the session state, and the per-label column totals that the
 * history chart and the comparison chart show.
 */
module History {
  import opened Wrappers
  import opened Nutrition

  /** A cell of a history row: the dish name or a nutrient amount. */
  datatype Cell = Str(s: string) | Num(amount: real)

  /** One history row, a dictionary from column name to cell. */
  type Entry = map<string, Cell>

  /** The column that holds the dish name. */
  const DishKey: string := "料理名"

  /** `entry = {"料理名": dish}; entry.update(readings)`: the readings' keys override the dish column. */
  function MakeEntry(dish: string, readings: map<string, real>): (e: Entry)
    ensures e.Keys == {DishKey} + readings.Keys
  {
    map[DishKey := Str(dish)] + map k | k in readings :: Num(readings[k])
  }

  /** The nutrient columns of a row, read back as amounts. */
  function EntryReadings(e: Entry): (r: map<string, real>)
    ensures forall k :: k in r ==> k in Labels
  {
    map k | k in e && k in Labels && e[k].Num? :: e[k].amount
  }

  /** A row as the app builds it: the dish name, plus non-negative amounts under nutrient labels. */
  ghost predicate WellFormedEntry(e: Entry)
  {
    && DishKey in e && e[DishKey].Str?
    && forall k :: k in e && k != DishKey ==> k in Labels && e[k].Num? && e[k].amount >= 0.0
  }

  lemma DishKeyIsNoLabel()
    ensures DishKey !in Labels
  {
    assert DishKey[0] == '料';
  }

  /**
   * An entry built from parsed readings holds the dish name under "料理名" and gives back exactly
   * those readings.
   */
  lemma EntryRoundTrip(dish: string, readings: map<string, real>)
    requires forall k :: k in readings ==> k in Labels
    ensures MakeEntry(dish, readings)[DishKey] == Str(dish)
    ensures EntryReadings(MakeEntry(dish, readings)) == readings
  {
    DishKeyIsNoLabel();
  }

  /** The entry built from a parse result is well formed. */
  lemma ParsedEntryWellFormed(dish: string, text: string)
    ensures WellFormedEntry(MakeEntry(dish, ParseNutritionSpec(text)))
  {
    DishKeyIsNoLabel();
  }

  /** What a row adds to the total of column `nutrient`: pandas skips the rows that lack it. */
  function Contribution(e: Entry, nutrient: string): real
  {
    if nutrient in e && e[nutrient].Num? then e[nutrient].amount else 0.0
  }

  /** `df[nutrient].sum()`: the column total over the whole history. */
  function ColumnSum(history: seq<Entry>, nutrient: string): real
  {
    if history == [] then 0.0
    else ColumnSum(history[..|history| - 1], nutrient) + Contribution(history[|history| - 1], nutrient)
  }

  /** Some row has the column, so `df[nutrients]` finds it. */
  predicate HasColumn(history: seq<Entry>, nutrient: string)
  {
    exists i :: 0 <= i < |history| && nutrient in history[i]
  }

  /** What the two total charts show. */
  datatype TotalsView =
    | NoHistory                         // empty history: "食事履歴がありません。", no totals
    | MissingColumn                     // `df[nutrients]` raises KeyError: a label is in no row
    | Chart(totals: map<string, real>)  // `df[nutrients].sum()`

  /** The totals taken when the history is shown (app.py lines 40-47 and 89-92). */
  function Totals(history: seq<Entry>): (v: TotalsView)
    ensures v.NoHistory? <==> history == []
    ensures v.MissingColumn? <==> history != [] && exists n :: n in Labels && !HasColumn(history, n)
    ensures v.Chart? ==> v.totals.Keys == set n | n in Labels
    ensures v.Chart? ==> forall n :: n in Labels ==> v.totals[n] == Sum(PresentAmounts(history, n))
  {
    ColumnSumsArePresentSums(history);
    if history == [] then NoHistory
    else if forall n :: n in Labels ==> HasColumn(history, n) then
      Chart(map n | n in Labels :: ColumnSum(history, n))
    else MissingColumn
  }

  /** Column totals add up over a split of the history. */
  lemma {:induction false} ColumnSumConcat(a: seq<Entry>, b: seq<Entry>, nutrient: string)
    ensures ColumnSum(a + b, nutrient) == ColumnSum(a, nutrient) + ColumnSum(b, nutrient)
    decreases |b|
  {
    if b == [] {
      assert a + b == a;
    } else {
      var b' := b[..|b| - 1];
      assert (a + b)[..|a + b| - 1] == a + b';
      ColumnSumConcat(a, b', nutrient);
    }
  }

  /** The amounts present in column `nutrient`, in history order: the column without its gaps. */
  function PresentAmounts(history: seq<Entry>, nutrient: string): (s: seq<real>)
    ensures |s| <= |history|
  {
    if history == [] then []
    else
      var e := history[0];
      (if nutrient in e && e[nutrient].Num? then [e[nutrient].amount] else []) + PresentAmounts(history[1..], nutrient)
  }

  function Sum(s: seq<real>): real
  {
    if s == [] then 0.0 else s[0] + Sum(s[1..])
  }

  /**
   * Each column total is the sum of the amounts of the rows that have that column; the rows
   * that lack it contribute nothing.
   */
  lemma {:induction false} ColumnSumIsSumOfPresent(history: seq<Entry>, nutrient: string)
    ensures ColumnSum(history, nutrient) == Sum(PresentAmounts(history, nutrient))
  {
    if history != [] {
      var e, rest := history[0], history[1..];
      ColumnSumIsSumOfPresent(rest, nutrient);
      var single: seq<Entry> := [e];
      ColumnSumConcat(single, rest, nutrient);
      assert single + rest == history;
      assert single[..0] == [];
      assert ColumnSum(single, nutrient) == Contribution(e, nutrient);
      var r := PresentAmounts(rest, nutrient);
      if nutrient in e && e[nutrient].Num? {
        assert PresentAmounts(history, nutrient) == [e[nutrient].amount] + r;
        assert ([e[nutrient].amount] + r)[1..] == r;
      } else {
        assert PresentAmounts(history, nutrient) == r;
      }
    }
  }

  /** ColumnSumIsSumOfPresent for every column at once. */
  lemma ColumnSumsArePresentSums(history: seq<Entry>)
    ensures forall n :: ColumnSum(history, n) == Sum(PresentAmounts(history, n))
  {
    forall n {
      ColumnSumIsSumOfPresent(history, n);
    }
  }

  /** A two-row history totals the two rows' amounts. */
  lemma ColumnSumPair(e1: Entry, e2: Entry, nutrient: string)
    ensures ColumnSum([e1, e2], nutrient) == Contribution(e1, nutrient) + Contribution(e2, nutrient)
  {
    var h := [e1, e2];
    var single: seq<Entry> := [e1];
    assert h[..1] == single && single[..0] == [];
    assert ColumnSum(single, nutrient) == 0.0 + Contribution(e1, nutrient);
    assert ColumnSum(h, nutrient) == ColumnSum(single, nutrient) + Contribution(e2, nutrient);
  }

  /** A column absent from every row totals zero. */
  lemma {:induction false} AbsentColumnIsZero(history: seq<Entry>, nutrient: string)
    requires !HasColumn(history, nutrient)
    ensures ColumnSum(history, nutrient) == 0.0
  {
    if history != [] {
      var init := history[..|history| - 1];
      assert !HasColumn(init, nutrient);
      AbsentColumnIsZero(init, nutrient);
    }
  }

  /** Totals of well-formed rows are never negative. */
  lemma {:induction false} ColumnSumNonNegative(history: seq<Entry>, nutrient: string)
    requires forall i :: 0 <= i < |history| ==> WellFormedEntry(history[i])
    ensures ColumnSum(history, nutrient) >= 0.0
  {
    if history != [] {
      ColumnSumNonNegative(history[..|history| - 1], nutrient);
      assert WellFormedEntry(history[|history| - 1]);
    }
  }

  /**
   * Appending a row to a history whose totals are charted adds that row's amounts to the
   * totals, column by column.
   */
  lemma TotalsAfterAppend(history: seq<Entry>, e: Entry)
    requires Totals(history).Chart?
    ensures Totals(history + [e]).Chart?
    ensures forall n :: n in Labels ==>
              Totals(history + [e]).totals[n] == Totals(history).totals[n] + Contribution(e, n)
  {
    var h := history + [e];
    assert h[..|h| - 1] == history;
    forall n | n in Labels
      ensures HasColumn(h, n)
    {
      var i :| 0 <= i < |history| && n in history[i];
      assert n in h[i];
    }
  }

  /** The session state's `history` list. */
  class Ledger {
    var history: seq<Entry>

    /** Every row was built by the app from a parse result. */
    ghost predicate Valid()
      reads this
    {
      forall i :: 0 <= i < |history| ==> WellFormedEntry(history[i])
    }

    /** The totals charted for a valid ledger are never negative. */
    lemma TotalsNonNegative()
      requires Valid()
      ensures Totals(history).Chart? ==> forall n :: n in Labels ==> Totals(history).totals[n] >= 0.0
    {
      forall n | n in Labels
        ensures ColumnSum(history, n) >= 0.0
      {
        ColumnSumNonNegative(history, n);
      }
    }

    /** `st.session_state.history = []` on the session's first run. */
    constructor ()
      ensures Valid() && history == []
    {
      history := [];
    }

    /** add_to_history: append the entry at the end; earlier rows are untouched. */
    method AddToHistory(entry: Entry)
      modifies this
      ensures history == old(history) + [entry]
      ensures old(Valid()) && WellFormedEntry(entry) ==> Valid()
    {
      history := history + [entry];
    }

    /**
     * One run of the analysis part of main for a dish name: `reply` is the model's answer to
     * Prompt(dishName) and `addClicked` whether the "add to history" button was pressed. A
     * non-empty parse result is offered, and added as a row when the button is pressed.
     */
    method SubmitDish(dishName: string, reply: string, addClicked: bool)
        returns (parsed: Option<map<string, real>>)
      requires Valid()
      modifies this
      ensures Valid()
      ensures parsed == if dishName == "" then None else Some(ParseNutritionSpec(reply))
      ensures history ==
                if parsed.Some? && parsed.value != map[] && addClicked
                then old(history) + [MakeEntry(dishName, parsed.value)]
                else old(history)
    {
      parsed := None;
      if dishName != "" {
        var nutritionData := ParseNutrition(reply);
        parsed := Some(nutritionData);
        if nutritionData != map[] && addClicked {
          var entry := MakeEntry(dishName, nutritionData);
          ParsedEntryWellFormed(dishName, reply);
          AddToHistory(entry);
        }
      }
    }
  }
}
