/**
 * The fulfilment evaluation: for each nutrient of the chosen profile, in the
 * profile's order, the lunch target, the actual total, the percentage of the
 * target reached and the progress-bar value; every nutrient below 100 % is
 * listed by its short name.
 */
module Fulfilment {
  import opened Tables
  import opened Text

  /** What the report shows for one nutrient. */
  datatype Line = Line(nutrient: string, actual: real, target: real, percentage: real, progress: int)

  /** The lunch share of a daily intake (`nilai_harian * porsi_makan`): 35 % of it. */
  function Target(daily: real): (t: real)
    ensures t * 20.0 == daily * 7.0
    ensures daily > 0.0 ==> 0.0 < t < daily
  {
    daily * MEAL_FRACTION
  }

  /** `total_gizi_makanan.get(gizi, 0)`: a nutrient missing from the totals counts as zero. */
  function Actual(totals: map<string, real>, nutrient: string): (a: real)
    ensures nutrient in totals ==> a == totals[nutrient]
    ensures nutrient !in totals ==> a == 0.0
  {
    if nutrient in totals then totals[nutrient] else 0.0
  }

  /**
   * The percentage of the target reached; a target that is not positive gives
   * 0 instead of a division.
   */
  function Percentage(actual: real, target: real): (p: real)
    ensures target > 0.0 ==> p * target == actual * 100.0
    ensures target <= 0.0 ==> p == 0.0
  {
    if target > 0.0 then (actual / target) * 100.0 else 0.0
  }

  /** Python's `int(x)` on a real: the integer part, rounding toward zero. */
  function Truncate(x: real): (r: int)
    ensures x >= 0.0 ==> r as real <= x < r as real + 1.0
    ensures x < 0.0 ==> r as real - 1.0 < x <= r as real
  {
    if x >= 0.0 then x.Floor else -((-x).Floor)
  }

  /** The progress-bar value `int(min(persentase, 100))`. */
  function Progress(percentage: real): (r: int)
    ensures r <= 100
    ensures percentage >= 100.0 ==> r == 100
    ensures 0.0 <= percentage < 100.0 ==> r as real <= percentage < r as real + 1.0
    ensures 0.0 <= percentage ==> 0 <= r
    ensures percentage < 0.0 ==> r as real - 1.0 < percentage <= r as real
  {
    Truncate(if percentage < 100.0 then percentage else 100.0)
  }

  /** A nutrient is short when its unclamped percentage is below 100. */
  predicate Deficient(line: Line) {
    line.percentage < 100.0
  }

  /** The short name of a nutrient: its first space-delimited word, lower-cased. */
  function ShortName(nutrient: string): (s: string)
    ensures ' ' !in s
    ensures |s| <= |nutrient|
  {
    LowerKeepsSpaces(FirstToken(nutrient));
    Lower(FirstToken(nutrient))
  }

  /** A name made of a word, a space and a unit is shortened to the lower-cased word. */
  lemma ShortNameOfWord(word: string, rest: string)
    requires ' ' !in word
    ensures ShortName(word + " " + rest) == Lower(word)
  {
    FirstTokenOfSpaceFree(word, " " + rest);
    assert word + " " + rest == word + (" " + rest);
  }

  /** The energy line is listed as "energi". */
  lemma EnergyShortName(nutrient: string)
    requires nutrient == ENERGY
    ensures ShortName(nutrient) == "energi"
  {
    var word, unit := "Energi", "(kkal)";
    assert nutrient == word + " " + unit;
    ShortNameOfWord(word, unit);
    LowerEnergi(word);
  }

  /** "Energi" lower-cases to "energi". */
  lemma LowerEnergi(word: string)
    requires word == "Energi"
    ensures Lower(word) == "energi"
  {
  }

  /**
   * The report line for one profile nutrient. With a positive daily value the
   * nutrient is short exactly when its actual value is below the lunch target;
   * otherwise it reads as 0 % and is short.
   */
  function Assess(totals: map<string, real>, intake: Intake): (line: Line)
    ensures line.nutrient == intake.nutrient && line.progress <= 100
    ensures intake.daily > 0.0 ==> (Deficient(line) <==> line.actual < line.target)
    ensures intake.daily <= 0.0 ==> line.percentage == 0.0 && Deficient(line)
  {
    var target := Target(intake.daily);
    var actual := Actual(totals, intake.nutrient);
    var percentage := Percentage(actual, target);
    assert intake.daily > 0.0 ==> (percentage >= 100.0 <==> actual >= target) by {
      if intake.daily > 0.0 {
        MetIffTargetReached(actual, target);
      }
    }
    Line(intake.nutrient, actual, target, percentage, Progress(percentage))
  }

  /** The report lines, one per profile nutrient and in profile order. */
  function Evaluate(totals: map<string, real>, intakes: seq<Intake>): (lines: seq<Line>)
    ensures |lines| == |intakes|
    ensures forall k :: 0 <= k < |intakes| ==> lines[k].nutrient == intakes[k].nutrient
  {
    seq(|intakes|, k requires 0 <= k < |intakes| => Assess(totals, intakes[k]))
  }

  /** The short names of the deficient nutrients (`komponen_kurang`): at most one per nutrient, none with a space. */
  function Shortfall(totals: map<string, real>, intakes: seq<Intake>): (s: seq<string>)
    ensures |s| <= |intakes|
    ensures forall j :: 0 <= j < |s| ==> ' ' !in s[j]
  {
    if intakes == [] then []
    else
      var n := |intakes| - 1;
      Shortfall(totals, intakes[..n])
      + (if Deficient(Assess(totals, intakes[n])) then [ShortName(intakes[n].nutrient)] else [])
  }

  /** Extending the evaluated prefix by one nutrient appends its short name exactly when it is deficient. */
  lemma ShortfallStep(totals: map<string, real>, intakes: seq<Intake>, n: nat, short: bool)
    requires n < |intakes|
    requires short == Deficient(Assess(totals, intakes[n]))
    ensures Shortfall(totals, intakes[..n + 1])
            == Shortfall(totals, intakes[..n]) + (if short then [ShortName(intakes[n].nutrient)] else [])
  {
    assert intakes[..n + 1][..n] == intakes[..n];
  }

  /** Extending the evaluated prefix by one nutrient appends its line. */
  lemma EvaluateStep(totals: map<string, real>, intakes: seq<Intake>, n: nat)
    requires n < |intakes|
    ensures Evaluate(totals, intakes[..n + 1]) == Evaluate(totals, intakes[..n]) + [Assess(totals, intakes[n])]
  {
  }

  /** The positions of the deficient nutrients in the profile. */
  function DeficientRows(totals: map<string, real>, intakes: seq<Intake>): (rows: seq<nat>)
    ensures forall j :: 0 <= j < |rows| ==> rows[j] < |intakes|
  {
    if intakes == [] then []
    else
      var n := |intakes| - 1;
      DeficientRows(totals, intakes[..n]) + (if Deficient(Assess(totals, intakes[n])) then [n] else [])
  }

  /**
   * The loop that fills the report: for each profile nutrient in order it
   * computes target, actual value, percentage and progress, and appends the
   * short name of every nutrient below 100 %.
   */
  method EvaluateMeal(totals: map<string, real>, intakes: seq<Intake>)
    returns (lines: seq<Line>, shortfall: seq<string>)
    ensures lines == Evaluate(totals, intakes)
    ensures shortfall == Shortfall(totals, intakes)
  {
    lines, shortfall := [], [];
    for i := 0 to |intakes|
      invariant lines == Evaluate(totals, intakes[..i])
      invariant shortfall == Shortfall(totals, intakes[..i])
    {
      var intake := intakes[i];
      var target := intake.daily * MEAL_FRACTION;
      var actual := if intake.nutrient in totals then totals[intake.nutrient] else 0.0;
      var percentage := if target > 0.0 then (actual / target) * 100.0 else 0.0;
      assert Assess(totals, intake) == Line(intake.nutrient, actual, target, percentage, Progress(percentage));
      lines := lines + [Line(intake.nutrient, actual, target, percentage, Progress(percentage))];
      if percentage < 100.0 {
        shortfall := shortfall + [Lower(FirstToken(intake.nutrient))];
      }
      EvaluateStep(totals, intakes, i);
      ShortfallStep(totals, intakes, i, percentage < 100.0);
    }
    assert intakes[..|intakes|] == intakes;
  }

  /** With a positive target, a nutrient is met exactly when the actual value reaches the target. */
  lemma MetIffTargetReached(actual: real, target: real)
    requires target > 0.0
    ensures Percentage(actual, target) >= 100.0 <==> actual >= target
  {
  }

  /** Reaching the target exactly gives exactly 100 %, which is not a shortfall. */
  lemma ExactTargetIsMet(totals: map<string, real>, intake: Intake)
    requires intake.daily > 0.0
    requires Actual(totals, intake.nutrient) == Target(intake.daily)
    ensures Assess(totals, intake).percentage == 100.0
    ensures !Deficient(Assess(totals, intake))
    ensures Assess(totals, intake).progress == 100
  {
  }

  /** A zero or negative target never divides: it reads as 0 % and so as a shortfall. */
  lemma DegenerateTarget(totals: map<string, real>, intake: Intake)
    requires intake.daily <= 0.0
    ensures Assess(totals, intake).percentage == 0.0
    ensures Deficient(Assess(totals, intake))
    ensures Assess(totals, intake).progress == 0
  {
  }

  /**
   * Each line's target is the lunch share of the daily value, its actual value
   * is the total or 0, its percentage is the actual value as a share of the
   * target and its progress is that percentage clamped and truncated.
   */
  lemma LineValues(totals: map<string, real>, intakes: seq<Intake>, k: nat)
    requires k < |intakes|
    ensures Evaluate(totals, intakes)[k].target * 20.0 == intakes[k].daily * 7.0
    ensures intakes[k].nutrient in totals ==> Evaluate(totals, intakes)[k].actual == totals[intakes[k].nutrient]
    ensures intakes[k].nutrient !in totals ==> Evaluate(totals, intakes)[k].actual == 0.0
    ensures var line := Evaluate(totals, intakes)[k];
      line.percentage == Percentage(line.actual, line.target) && line.progress == Progress(line.percentage)
  {
  }

  /** The deficient positions are exactly the lines below 100 %, in ascending order. */
  lemma {:induction false} DeficientRowsExactly(totals: map<string, real>, intakes: seq<Intake>)
    ensures Increasing(DeficientRows(totals, intakes))
    ensures forall k :: 0 <= k < |intakes| ==>
              (k in DeficientRows(totals, intakes) <==> Evaluate(totals, intakes)[k].percentage < 100.0)
  {
    if intakes != [] {
      var n := |intakes| - 1;
      DeficientRowsExactly(totals, intakes[..n]);
      assert forall k :: 0 <= k < n ==> intakes[..n][k] == intakes[k];
      assert n !in DeficientRows(totals, intakes[..n]);
    }
  }

  /**
   * The shortfall list holds one short name per deficient nutrient, in the
   * profile's order.
   */
  lemma {:induction false} ShortfallFollowsProfile(totals: map<string, real>, intakes: seq<Intake>)
    ensures |Shortfall(totals, intakes)| == |DeficientRows(totals, intakes)|
    ensures forall j :: 0 <= j < |Shortfall(totals, intakes)| ==>
              Shortfall(totals, intakes)[j] == ShortName(intakes[DeficientRows(totals, intakes)[j]].nutrient)
  {
    if intakes != [] {
      var n := |intakes| - 1;
      ShortfallFollowsProfile(totals, intakes[..n]);
      var rows := DeficientRows(totals, intakes[..n]);
      assert forall j :: 0 <= j < |rows| ==> intakes[..n][rows[j]] == intakes[rows[j]];
    }
  }

  /** Every nutrient is met exactly when the shortfall list is empty. */
  lemma AllMetIffNoShortfall(totals: map<string, real>, intakes: seq<Intake>)
    ensures Shortfall(totals, intakes) == [] <==>
            forall k :: 0 <= k < |intakes| ==> Evaluate(totals, intakes)[k].percentage >= 100.0
  {
    ShortfallFollowsProfile(totals, intakes);
    DeficientRowsExactly(totals, intakes);
    var rows := DeficientRows(totals, intakes);
    if rows != [] {
      assert rows[0] in rows;
      assert Evaluate(totals, intakes)[rows[0]].percentage < 100.0;
    }
  }

  /** With no negative totals and no negative intakes, every progress value lies in 0..100. */
  lemma ProgressInRange(totals: map<string, real>, intakes: seq<Intake>)
    requires forall n :: n in totals ==> totals[n] >= 0.0
    requires forall k :: 0 <= k < |intakes| ==> intakes[k].daily >= 0.0
    ensures forall k :: 0 <= k < |intakes| ==> 0 <= Evaluate(totals, intakes)[k].progress <= 100
  {
  }

  /** 390 kcal against the 2650 kcal day of an adult man: a 927.5 kcal target, not met; the bar shows 42. */
  lemma AdultEnergyExample()
    ensures Target(2650.0) == 927.5
    ensures Percentage(390.0, 927.5) < 100.0
    ensures Progress(Percentage(390.0, 927.5)) == 42
  {
  }
}
