/**
 * One analysis of a confirmed tray: nothing is analysed when the selection is
 * empty; otherwise the selection is aggregated, every nutrient of the chosen
 * profile is evaluated against its lunch target, and the conclusion is either
 * that everything is met or a warning naming the short nutrients.
 */
module Analysis {
  import opened Tables
  import opened Text
  import opened Aggregation
  import opened Fulfilment

  /** The conclusion shown under the report. */
  datatype Verdict = FullyMet | PartiallyMet(components: string)

  /** Everything an analysis produces. */
  datatype Report = Report(totals: map<string, real>, lines: seq<Line>, shortfall: seq<string>, verdict: Verdict)

  /**
   * Full marks when nothing is short; otherwise a warning that lists the short
   * names joined by ", ".
   */
  function Conclude(shortfall: seq<string>): (v: Verdict)
    ensures v.FullyMet? <==> shortfall == []
  {
    if shortfall == [] then FullyMet else PartiallyMet(Join(", ", shortfall))
  }

  /** The analysis of a confirmed selection list against a profile; none for an empty list. */
  function Analyze(c: Catalog, profile: Profile, selection: seq<string>): (r: Option<Report>)
    requires c.Valid()
    ensures r.None? <==> selection == []
    ensures r.Some? ==> |r.value.lines| == |profile.intakes|
  {
    if selection == [] then None
    else
      var totals := Aggregate(c, selection);
      var shortfall := Shortfall(totals, profile.intakes);
      Some(Report(totals, Evaluate(totals, profile.intakes), shortfall, Conclude(shortfall)))
  }

  /** The analysis as the page runs it, with the evaluation loop. */
  method RunAnalysis(c: Catalog, profile: Profile, selection: seq<string>) returns (r: Option<Report>)
    requires c.Valid()
    ensures r == Analyze(c, profile, selection)
  {
    if selection == [] {
      return None;
    }
    var totals := Aggregate(c, selection);
    var lines, shortfall := EvaluateMeal(totals, profile.intakes);
    var verdict := if shortfall == [] then FullyMet else PartiallyMet(Join(", ", shortfall));
    r := Some(Report(totals, lines, shortfall, verdict));
  }

  /** The verdict is "fully met" exactly when every nutrient reaches 100 %. */
  lemma FullyMetIffAllReached(c: Catalog, profile: Profile, selection: seq<string>)
    requires c.Valid()
    requires selection != []
    ensures var report := Analyze(c, profile, selection).value;
      report.verdict == FullyMet <==>
      forall k :: 0 <= k < |report.lines| ==> report.lines[k].percentage >= 100.0
  {
    var totals := Aggregate(c, selection);
    AllMetIffNoShortfall(totals, profile.intakes);
  }

  /** The warning names exactly the short nutrients, in profile order: the list can be read back from it. */
  lemma WarningListsShortfall(c: Catalog, profile: Profile, selection: seq<string>)
    requires c.Valid()
    requires selection != []
    ensures var report := Analyze(c, profile, selection).value;
      report.verdict.PartiallyMet? ==> SplitList(report.verdict.components) == report.shortfall
  {
    var totals := Aggregate(c, selection);
    var shortfall := Shortfall(totals, profile.intakes);
    if shortfall != [] {
      SplitJoin(shortfall);
    }
  }

  /** Two confirmed lists with the same foods give the same analysis, whatever their order or repetition. */
  lemma SameFoodsSameAnalysis(c: Catalog, profile: Profile, l1: seq<string>, l2: seq<string>)
    requires c.Valid()
    requires forall x :: x in l1 <==> x in l2
    ensures Analyze(c, profile, l1) == Analyze(c, profile, l2)
  {
    assert (l1 == []) == (l2 == []) by {
      if l1 != [] {
        assert l1[0] in l2;
      }
      if l2 != [] {
        assert l2[0] in l1;
      }
    }
    AggregateDependsOnlyOnSet(c, l1, l2);
  }

  /**
   * A non-empty list of identifiers that are all unknown is still analysed:
   * every actual value is zero, so every nutrient with a positive target is short.
   */
  lemma UnknownFoodsOnly(c: Catalog, profile: Profile, selection: seq<string>)
    requires c.Valid()
    requires selection != []
    requires forall x :: x in selection ==> x !in c.ids
    ensures var report := Analyze(c, profile, selection).value;
      forall k :: 0 <= k < |report.lines| ==>
        report.lines[k].actual == 0.0 && (profile.intakes[k].daily > 0.0 ==> Deficient(report.lines[k]))
  {
    var sel := Selection(selection);
    assert sel * Selection(c.ids) == {};
    UnknownIgnored(c, sel);
    EmptySelection(c);
  }

  /**
   * With the configured catalog and any configured profile, every progress
   * value lies between 0 and 100.
   */
  lemma ConfiguredProgressInRange(c: Catalog, i: nat, selection: seq<string>)
    requires c == FoodCatalog()
    requires i < |Profiles()|
    requires selection != []
    ensures c.Valid()
    ensures var report := Analyze(c, Profiles()[i], selection).value;
      forall k :: 0 <= k < |report.lines| ==> 0 <= report.lines[k].progress <= 100
  {
    FoodCatalogValid();
    ProfilesMatchCatalog();
    var totals := Aggregate(c, selection);
    TotalsNonNegative(c, Selection(selection));
    ProgressInRange(totals, Profiles()[i].intakes);
  }

  /** Against an adult man's day, these totals reach the protein target only. */
  lemma AdultLines(totals: map<string, real>, intakes: seq<Intake>)
    requires Actual(totals, ENERGY) == 390.0 && Actual(totals, PROTEIN) == 28.0 && Actual(totals, FAT) == 15.3
    requires Actual(totals, CARBOHYDRATE) == 32.0 && Actual(totals, FIBRE) == 0.5
    requires intakes == DailyIntakes(2650.0, 65.0, 75.0, 430.0, 37.0)
    ensures Deficient(Assess(totals, intakes[0])) && !Deficient(Assess(totals, intakes[1]))
    ensures Deficient(Assess(totals, intakes[2])) && Deficient(Assess(totals, intakes[3]))
    ensures Deficient(Assess(totals, intakes[4]))
  {
  }

  /** Five nutrients of which only the second is met leave the other four in the shortfall list, in order. */
  lemma OnlySecondMet(totals: map<string, real>, intakes: seq<Intake>)
    requires |intakes| == 5
    requires Deficient(Assess(totals, intakes[0])) && !Deficient(Assess(totals, intakes[1]))
    requires Deficient(Assess(totals, intakes[2])) && Deficient(Assess(totals, intakes[3]))
    requires Deficient(Assess(totals, intakes[4]))
    ensures Shortfall(totals, intakes)
            == [ShortName(intakes[0].nutrient), ShortName(intakes[2].nutrient),
                ShortName(intakes[3].nutrient), ShortName(intakes[4].nutrient)]
  {
    assert intakes[..0] == [];
    ShortfallStep(totals, intakes, 0, true);
    ShortfallStep(totals, intakes, 1, false);
    ShortfallStep(totals, intakes, 2, true);
    ShortfallStep(totals, intakes, 3, true);
    ShortfallStep(totals, intakes, 4, true);
    assert intakes[..5] == intakes;
  }

  /**
   * Rice and chicken for an adult man: only protein (28 g of a 22.75 g target)
   * is met; energy, fat, carbohydrate and fibre are short.
   */
  lemma AdultRiceAndChicken(c: Catalog)
    requires c == FoodCatalog()
    ensures c.Valid()
    ensures var report := Analyze(c, Profiles()[DefaultProfileIndex()], ["nasi_putih", "ayam"]).value;
      report.shortfall == [ShortName(ENERGY), ShortName(FAT), ShortName(CARBOHYDRATE), ShortName(FIBRE)]
  {
    FoodCatalogValid();
    RiceAndChicken(c);
    var totals := Aggregate(c, ["nasi_putih", "ayam"]);
    var intakes := Profiles()[DefaultProfileIndex()].intakes;
    AdultLines(totals, intakes);
    OnlySecondMet(totals, intakes);
  }
}
