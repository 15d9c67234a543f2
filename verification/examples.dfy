/** The parser and the totals on the concrete inputs the app is described with. */
module Examples {
  import opened Wrappers
  import opened Text
  import opened NumberToken
  import opened Nutrition
  import opened History

  lemma ProteinLineShape(line: string)
    requires line == "たんぱく質は15.5gです"
    ensures RunBetween(line, 6, 8) && line[8] == '.' && RunBetween(line, 9, 10)
    ensures forall k :: 0 <= k < 6 ==> !IsDigit(line[k])
  {
  }

  lemma ProteinLineToken(line: string)
    requires line == "たんぱく質は15.5gです"
    ensures FirstNumberToken(line) == Some(NumberMatch(6, "15", true, "5"))
    ensures LineValue(line) == 15.5
  {
    ProteinLineShape(line);
    TokenWithDot(line, 6, 8, 10);
    assert line[6..8] == "15";
    assert line[9..10] == "5";
    assert Value(NumberMatch(6, "15", true, "5")) == 15.5;
  }

  lemma ProteinLineLabels(line: string)
    requires line == "たんぱく質は15.5gです"
    ensures IsSubstring("たんぱく質", line)
    ensures forall n :: n in Labels && n != "たんぱく質" ==> !IsSubstring(n, line)
  {
    assert "たんぱく質" <= line;
    ProteinLineLacks(line);
    FirstCharAbsent("糖質", line);
    FirstCharAbsent("カリウム", line);
  }

  lemma ProteinLineLacks(line: string)
    requires line == "たんぱく質は15.5gです"
    ensures !IsSubstring("エネルギー", line) && !IsSubstring("脂質", line)
  {
    FirstCharAbsent("エネルギー", line);
    FirstCharAbsent("脂質", line);
  }

  /** "たんぱく質は15.5gです" gives protein 15.5 and nothing else. */
  lemma ProteinExample(line: string)
    requires line == "たんぱく質は15.5gです"
    ensures ParseNutritionSpec(line) == map["たんぱく質" := 15.5]
  {
    ProteinLineToken(line);
    ProteinLineLabels(line);
    OnlyHit(line, "たんぱく質");
    SingleLine(line);
  }

  /** The value of a two-digit number, digit by digit. */
  lemma TwoDigits(ds: string)
    requires |ds| == 2 && AllDigits(ds)
    ensures DigitsValue(ds) == 10 * (ds[0] as int - '0' as int) + (ds[1] as int - '0' as int)
  {
    assert ds[..1][0] == ds[0] && |ds[..1][..0]| == 0;
    assert DigitsValue(ds[..1]) == ds[0] as int - '0' as int;
  }

  /** The value of a three-digit number, digit by digit. */
  lemma ThreeDigits(ds: string)
    requires |ds| == 3 && AllDigits(ds)
    ensures DigitsValue(ds) == 100 * (ds[0] as int - '0' as int) + 10 * (ds[1] as int - '0' as int) + (ds[2] as int - '0' as int)
  {
    var d0, d1, d2 := ds[0] as int - '0' as int, ds[1] as int - '0' as int, ds[2] as int - '0' as int;
    assert ds[..2][..1] == ds[..1] && ds[..2][1] == ds[1] && ds[..1][0] == ds[0];
    assert |ds[..1][..0]| == 0;
    assert DigitsValue(ds[..1]) == d0;
    assert DigitsValue(ds[..2]) == d0 * 10 + d1;
    assert DigitsValue(ds) == (d0 * 10 + d1) * 10 + d2;
  }

  lemma EnergyLineToken(line: string)
    requires line == "エネルギー: 250kcal"
    ensures FirstNumberToken(line).Some? && LineValue(line) == 250.0
  {
    assert RunBetween(line, 7, 10) && line[10] == 'k';
    assert forall k :: 0 <= k < 7 ==> !IsDigit(line[k]);
    TokenWithoutDot(line, 7, 10);
    ValueOfWhole(NumberMatch(7, line[7..10], false, ""));
    ThreeDigits(line[7..10]);
  }

  lemma EnergyLineLabels(line: string)
    requires line == "エネルギー: 250kcal"
    ensures IsSubstring("エネルギー", line) && '\n' !in line
    ensures forall n :: n in Labels && n != "エネルギー" ==> !IsSubstring(n, line)
  {
    assert "エネルギー" <= line;
    EnergyLineLacks(line);
    FirstCharAbsent("糖質", line);
    FirstCharAbsent("カリウム", line);
  }

  lemma EnergyLineLacks(line: string)
    requires line == "エネルギー: 250kcal"
    ensures '\n' !in line && !IsSubstring("たんぱく質", line) && !IsSubstring("脂質", line)
  {
    FirstCharAbsent("たんぱく質", line);
    FirstCharAbsent("脂質", line);
  }

  /** "エネルギー: 250kcal" gives energy 250 and nothing else. */
  lemma EnergyExample(line: string)
    requires line == "エネルギー: 250kcal"
    ensures ParseNutritionSpec(line) == map["エネルギー" := 250.0]
  {
    EnergyLineToken(line);
    EnergyLineLabels(line);
    OnlyHit(line, "エネルギー");
    SingleLine(line);
  }

  /** The empty text is one empty line and gives the empty map. */
  lemma EmptyTextExample()
    ensures ParseNutritionSpec("") == map[]
  {
    forall n | n in Labels
      ensures !IsSubstring(n, "")
    {
      assert |n| > 0;
    }
    NoLabelNoData("");
  }

  lemma PotassiumLineToken(line: string)
    requires line == "カリウム 600mg"
    ensures Hits(line, "カリウム") && LineValue(line) == 600.0
  {
    PotassiumLineLabel(line);
    assert RunBetween(line, 5, 8) && line[8] == 'm';
    assert forall k :: 0 <= k < 5 ==> !IsDigit(line[k]);
    TokenWithoutDot(line, 5, 8);
    ValueOfWhole(NumberMatch(5, line[5..8], false, ""));
    ThreeDigits(line[5..8]);
  }

  lemma PotassiumLineLabel(line: string)
    requires line == "カリウム 600mg"
    ensures IsSubstring("カリウム", line)
  {
    assert "カリウム" <= line;
  }

  lemma PotassiumLines(text: string)
    requires text == "カリウム 500mg" + "\n" + "カリウム 600mg"
    ensures SplitLines(text) == ["カリウム 500mg", "カリウム 600mg"]
  {
    var l1, l2 := "カリウム 500mg", "カリウム 600mg";
    assert '\n' !in l1 && '\n' !in l2;
    SplitJoin([l1, l2]);
  }

  /** Potassium on two lines, 500 then 600: the later line wins. */
  lemma PotassiumLastLineWins(text: string)
    requires text == "カリウム 500mg" + "\n" + "カリウム 600mg"
    ensures "カリウム" in ParseNutritionSpec(text)
    ensures ParseNutritionSpec(text)["カリウム"] == 600.0
  {
    var lines := SplitLines(text);
    PotassiumLines(text);
    PotassiumLineToken(lines[1]);
    LastHitWins(lines, "カリウム", 1);
  }

  lemma SharedLineToken(line: string)
    requires line == "脂質と糖質 10g"
    ensures Hits(line, "脂質") && Hits(line, "糖質")
    ensures LineValue(line) == 10.0
  {
    assert "脂質" <= line;
    assert OccursAt("糖質", line, 3);
    IsSubstringIff("糖質", line);
    assert RunBetween(line, 6, 8) && line[8] == 'g';
    assert forall k :: 0 <= k < 6 ==> !IsDigit(line[k]);
    TokenWithoutDot(line, 6, 8);
    ValueOfWhole(NumberMatch(6, line[6..8], false, ""));
    TwoDigits(line[6..8]);
  }

  /** Fat and carbohydrate named on one line both receive that line's single number. */
  lemma SharedLineExample(line: string)
    requires line == "脂質と糖質 10g"
    ensures "脂質" in ParseNutritionSpec(line) && "糖質" in ParseNutritionSpec(line)
    ensures ParseNutritionSpec(line)["脂質"] == ParseNutritionSpec(line)["糖質"] == 10.0
  {
    SharedLineToken(line);
    SharedLineUnbroken(line);
    SingleLine(line);
    ReadingsKeys(line, "脂質");
    ReadingsKeys(line, "糖質");
  }

  lemma SharedLineUnbroken(line: string)
    requires line == "脂質と糖質 10g"
    ensures '\n' !in line
  {
  }

  /** The pattern has no sign: "脂質: -3g" stores fat 3. */
  lemma NoSignExample(line: string)
    requires line == "脂質: -3g"
    ensures "脂質" in ParseNutritionSpec(line) && ParseNutritionSpec(line)["脂質"] == 3.0
  {
    assert "脂質" <= line;
    assert RunBetween(line, 5, 6) && line[6] == 'g';
    assert forall k :: 0 <= k < 5 ==> !IsDigit(line[k]);
    TokenWithoutDot(line, 5, 6);
    assert line[5..6] == "3";
    assert Value(NumberMatch(5, "3", false, "")) == 3.0;
    SingleLine(line);
  }

  /**
   * Two rows, {energy 500, protein 20} and {energy 300, fat 10}: energy totals 800, but no row
   * has a carbohydrate or potassium column, so `df[nutrients]` fails and no chart is drawn.
   */
  lemma TotalsExample(dish1: string, dish2: string)
    ensures var h := [MakeEntry(dish1, map["エネルギー" := 500.0, "たんぱく質" := 20.0]),
                      MakeEntry(dish2, map["エネルギー" := 300.0, "脂質" := 10.0])];
            && ColumnSum(h, "エネルギー") == 800.0
            && ColumnSum(h, "たんぱく質") == 20.0
            && ColumnSum(h, "脂質") == 10.0
            && Totals(h) == MissingColumn
  {
    var e1 := MakeEntry(dish1, map["エネルギー" := 500.0, "たんぱく質" := 20.0]);
    var e2 := MakeEntry(dish2, map["エネルギー" := 300.0, "脂質" := 10.0]);
    var h := [e1, e2];
    DishKeyIsNoLabel();
    assert e1["エネルギー"] == Num(500.0) && e1["たんぱく質"] == Num(20.0) && "脂質" !in e1;
    assert e2["エネルギー"] == Num(300.0) && e2["脂質"] == Num(10.0) && "たんぱく質" !in e2;
    ColumnSumPair(e1, e2, "エネルギー");
    ColumnSumPair(e1, e2, "たんぱく質");
    ColumnSumPair(e1, e2, "脂質");
    assert "糖質" !in e1 && "糖質" !in e2;
    assert !HasColumn(h, "糖質");
  }
}
