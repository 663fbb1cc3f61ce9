/**
 * The aggregation step: the confirmed selection is turned into a set, the
 * catalog rows whose identifier is in that set are kept
 * (`df_gizi[df_gizi['nama_makanan'].isin(final_food_set)]`) and every
 * nutrient column of the kept rows is summed (`estimasi.sum(numeric_only=True)`).
 */
module Aggregation {
  import opened Tables

  /** The rows whose identifier is in `sel`, in row order: the `isin` filter. */
  function Matches(ids: seq<string>, sel: set<string>): (rows: seq<nat>)
    ensures forall i :: 0 <= i < |rows| ==> rows[i] < |ids|
  {
    if ids == [] then []
    else
      var n := |ids| - 1;
      Matches(ids[..n], sel) + (if ids[n] in sel then [n] else [])
  }

  /**
   * The filter keeps exactly the rows whose identifier is selected, each once
   * and in row order; identifiers of `sel` that name no row select nothing.
   */
  lemma {:induction false} MatchesExactly(ids: seq<string>, sel: set<string>)
    ensures Increasing(Matches(ids, sel))
    ensures forall k :: 0 <= k < |ids| ==> (k in Matches(ids, sel) <==> ids[k] in sel)
  {
    if ids != [] {
      var n := |ids| - 1;
      var before := Matches(ids[..n], sel);
      MatchesExactly(ids[..n], sel);
      assert forall k :: 0 <= k < n ==> ids[..n][k] == ids[k];
      assert n !in before;
    }
  }

  /** The sum of `values` over the given rows; a sum of non-negative values is non-negative. */
  function ColumnSum(values: seq<real>, rows: seq<nat>): (s: real)
    requires forall i :: 0 <= i < |rows| ==> rows[i] < |values|
    ensures (forall i :: 0 <= i < |rows| ==> values[rows[i]] >= 0.0) ==> s >= 0.0
  {
    if rows == [] then 0.0
    else ColumnSum(values, rows[..|rows| - 1]) + values[rows[|rows| - 1]]
  }

  /** The total of one nutrient column over the selected foods. */
  function SelectedTotal(ids: seq<string>, values: seq<real>, sel: set<string>): (s: real)
    requires |values| == |ids|
    ensures (forall k :: 0 <= k < |values| ==> values[k] >= 0.0) ==> s >= 0.0
  {
    ColumnSum(values, Matches(ids, sel))
  }

  /**
   * The per-nutrient totals of the selected foods (`total_gizi_makanan`):
   * one entry per catalog column, whatever the selection.
   */
  function Totals(c: Catalog, sel: set<string>): (t: map<string, real>)
    requires c.Shaped()
    ensures forall n :: n in t <==> n in c.Nutrients()
    ensures forall j :: 0 <= j < |c.columns| ==>
              t[c.columns[j].nutrient] == SelectedTotal(c.ids, c.columns[j].values, sel)
  {
    map j | 0 <= j < |c.columns| :: c.columns[j].nutrient := SelectedTotal(c.ids, c.columns[j].values, sel)
  }

  /** `set(final_food_list)`. */
  function Selection(list: seq<string>): (s: set<string>)
    ensures forall x :: x in s <==> x in list
  {
    set x | x in list
  }

  /**
   * The totals for a confirmed selection list: one entry per nutrient column,
   * all zero when nothing is listed.
   */
  function Aggregate(c: Catalog, list: seq<string>): (t: map<string, real>)
    requires c.Shaped()
    ensures forall n :: n in t <==> n in c.Nutrients()
    ensures list == [] ==> forall n :: n in t ==> t[n] == 0.0
  {
    EmptySelection(c);
    assert list == [] ==> Selection(list) == {};
    Totals(c, Selection(list))
  }

  /** Values at rows below `m` are the same in `values` and in its first `m` entries. */
  lemma {:induction false} ColumnSumPrefix(values: seq<real>, rows: seq<nat>, m: nat)
    requires m <= |values|
    requires forall i :: 0 <= i < |rows| ==> rows[i] < m
    ensures ColumnSum(values[..m], rows) == ColumnSum(values, rows)
  {
    if rows != [] {
      ColumnSumPrefix(values, rows[..|rows| - 1], m);
    }
  }

  /** The total over all rows is the total over all rows but the last, plus the last row if selected. */
  lemma SelectedTotalStep(ids: seq<string>, values: seq<real>, sel: set<string>)
    requires |values| == |ids| > 0
    ensures var n := |ids| - 1;
      SelectedTotal(ids, values, sel)
      == SelectedTotal(ids[..n], values[..n], sel) + (if ids[n] in sel then values[n] else 0.0)
  {
    var n := |ids| - 1;
    var before := Matches(ids[..n], sel);
    ColumnSumPrefix(values, before, n);
    if ids[n] in sel {
      assert Matches(ids, sel) == before + [n];
      assert (before + [n])[..|before|] == before;
    } else {
      assert Matches(ids, sel) == before;
    }
  }

  /** Two selections that agree on every catalog identifier match the same rows. */
  lemma {:induction false} MatchesAgree(ids: seq<string>, s1: set<string>, s2: set<string>)
    requires forall k :: 0 <= k < |ids| ==> (ids[k] in s1 <==> ids[k] in s2)
    ensures Matches(ids, s1) == Matches(ids, s2)
  {
    if ids != [] {
      var n := |ids| - 1;
      MatchesAgree(ids[..n], s1, s2);
    }
  }

  /** Identifiers that name no food contribute nothing: only the known part of a selection counts. */
  lemma UnknownIgnored(c: Catalog, sel: set<string>)
    requires c.Shaped()
    ensures Totals(c, sel) == Totals(c, sel * Selection(c.ids))
  {
    MatchesAgree(c.ids, sel, sel * Selection(c.ids));
  }

  /** Adding an identifier that is not in the catalog leaves every total unchanged. */
  lemma AddUnknown(c: Catalog, sel: set<string>, unknown: string)
    requires c.Shaped()
    requires unknown !in c.ids
    ensures Totals(c, sel + {unknown}) == Totals(c, sel)
  {
    MatchesAgree(c.ids, sel + {unknown}, sel);
  }

  /** With nothing selected a column totals exactly zero. */
  lemma {:induction false} NothingSelected(ids: seq<string>, values: seq<real>)
    requires |values| == |ids|
    ensures SelectedTotal(ids, values, {}) == 0.0
  {
    if ids != [] {
      var n := |ids| - 1;
      SelectedTotalStep(ids, values, {});
      NothingSelected(ids[..n], values[..n]);
    }
  }

  /** With nothing selected every nutrient totals exactly zero. */
  lemma EmptySelection(c: Catalog)
    requires c.Shaped()
    ensures forall n :: n in Totals(c, {}) ==> Totals(c, {})[n] == 0.0
  {
    forall j | 0 <= j < |c.columns| {
      NothingSelected(c.ids, c.columns[j].values);
    }
  }

  /**
   * Adding one more food to the selection adds its value once: the totals are
   * the fold of the selected set, whatever order or repetition built it.
   */
  lemma {:induction false} AddFood(ids: seq<string>, values: seq<real>, sel: set<string>, k: nat)
    requires |values| == |ids|
    requires Distinct(ids)
    requires k < |ids| && ids[k] !in sel
    ensures SelectedTotal(ids, values, sel + {ids[k]}) == SelectedTotal(ids, values, sel) + values[k]
  {
    var n := |ids| - 1;
    var more := sel + {ids[k]};
    var last := if ids[n] in sel then values[n] else 0.0;
    SelectedTotalStep(ids, values, sel);
    SelectedTotalStep(ids, values, more);
    if k == n {
      assert forall i :: 0 <= i < n ==> ids[..n][i] == ids[i] != ids[k];
      MatchesAgree(ids[..n], more, sel);
      assert SelectedTotal(ids, values, more) == SelectedTotal(ids[..n], values[..n], sel) + values[k];
    } else {
      assert ids[..n][k] == ids[k];
      assert Distinct(ids[..n]) by {
        forall i, j | 0 <= i < j < n ensures ids[..n][i] != ids[..n][j] {
          assert ids[..n][i] == ids[i] && ids[..n][j] == ids[j];
        }
      }
      AddFood(ids[..n], values[..n], sel, k);
      assert ids[n] != ids[k];
      assert (ids[n] in more) == (ids[n] in sel);
      assert SelectedTotal(ids, values, more) == SelectedTotal(ids[..n], values[..n], more) + last;
    }
  }

  /** Adding a food to the selection adds its row to every nutrient total. */
  lemma TotalsAddFood(c: Catalog, sel: set<string>, k: nat)
    requires c.Valid()
    requires k < |c.ids| && c.ids[k] !in sel
    ensures forall j :: 0 <= j < |c.columns| ==>
              Totals(c, sel + {c.ids[k]})[c.columns[j].nutrient]
              == Totals(c, sel)[c.columns[j].nutrient] + c.columns[j].values[k]
  {
    forall j | 0 <= j < |c.columns| {
      AddFood(c.ids, c.columns[j].values, sel, k);
    }
  }

  /** A catalog without negative values gives no negative total. */
  lemma TotalsNonNegative(c: Catalog, sel: set<string>)
    requires c.Shaped()
    requires forall j, k :: 0 <= j < |c.columns| && 0 <= k < |c.ids| ==> c.columns[j].values[k] >= 0.0
    ensures forall n :: n in Totals(c, sel) ==> Totals(c, sel)[n] >= 0.0
  {
  }

  /** Order and repetition in the confirmed list do not change the totals. */
  lemma AggregateDependsOnlyOnSet(c: Catalog, l1: seq<string>, l2: seq<string>)
    requires c.Shaped()
    requires forall x :: x in l1 <==> x in l2
    ensures Aggregate(c, l1) == Aggregate(c, l2)
  {
    assert Selection(l1) == Selection(l2);
  }

  /** A food listed twice is counted once. */
  lemma NoDoubleCount(c: Catalog, k: nat)
    requires c.Valid()
    requires k < |c.ids|
    ensures forall j :: 0 <= j < |c.columns| ==>
              Aggregate(c, [c.ids[k], c.ids[k]])[c.columns[j].nutrient] == c.columns[j].values[k]
  {
    assert Selection([c.ids[k], c.ids[k]]) == {} + {c.ids[k]};
    EmptySelection(c);
    TotalsAddFood(c, {}, k);
  }

  /** Selecting the first two foods adds up their two rows, in any column. */
  lemma FirstTwoFoods(ids: seq<string>, values: seq<real>)
    requires |values| == |ids| >= 2
    requires Distinct(ids)
    ensures SelectedTotal(ids, values, {ids[0], ids[1]}) == values[0] + values[1]
  {
    NothingSelected(ids, values);
    AddFood(ids, values, {}, 0);
    assert {} + {ids[0]} == {ids[0]};
    AddFood(ids, values, {ids[0]}, 1);
    assert {ids[0]} + {ids[1]} == {ids[0], ids[1]};
  }

  /** In any column of the catalog, rice and chicken add up their two rows. */
  lemma RiceAndChickenColumn(values: seq<real>)
    requires |values| == |FoodIds()|
    ensures SelectedTotal(FoodIds(), values, {"nasi_putih", "ayam"}) == values[0] + values[1]
  {
    FoodIdsDistinct();
    FirstTwoFoods(FoodIds(), values);
    assert {FoodIds()[0], FoodIds()[1]} == {"nasi_putih", "ayam"};
  }

  /** The catalog's totals have exactly the five nutrients as keys. */
  lemma FoodCatalogKeys(c: Catalog, sel: set<string>)
    requires c == FoodCatalog()
    ensures c.Shaped()
    ensures Totals(c, sel).Keys == {ENERGY, PROTEIN, FAT, CARBOHYDRATE, FIBRE}
  {
    assert c.Nutrients() == [ENERGY, PROTEIN, FAT, CARBOHYDRATE, FIBRE];
  }

  /** The catalog's totals, nutrient by nutrient. */
  lemma FoodCatalogTotals(c: Catalog, sel: set<string>)
    requires c == FoodCatalog()
    ensures c.Shaped()
    ensures Totals(c, sel).Keys == {ENERGY, PROTEIN, FAT, CARBOHYDRATE, FIBRE}
    ensures Totals(c, sel)[ENERGY] == SelectedTotal(FoodIds(), EnergyColumn(), sel)
    ensures Totals(c, sel)[PROTEIN] == SelectedTotal(FoodIds(), ProteinColumn(), sel)
    ensures Totals(c, sel)[FAT] == SelectedTotal(FoodIds(), FatColumn(), sel)
    ensures Totals(c, sel)[CARBOHYDRATE] == SelectedTotal(FoodIds(), CarbohydrateColumn(), sel)
    ensures Totals(c, sel)[FIBRE] == SelectedTotal(FoodIds(), FibreColumn(), sel)
  {
    FoodCatalogKeys(c, sel);
    FoodCatalogColumns(c);
    var t := Totals(c, sel);
    assert t[c.columns[0].nutrient] == SelectedTotal(c.ids, c.columns[0].values, sel);
    assert t[c.columns[1].nutrient] == SelectedTotal(c.ids, c.columns[1].values, sel);
    assert t[c.columns[2].nutrient] == SelectedTotal(c.ids, c.columns[2].values, sel);
    assert t[c.columns[3].nutrient] == SelectedTotal(c.ids, c.columns[3].values, sel);
    assert t[c.columns[4].nutrient] == SelectedTotal(c.ids, c.columns[4].values, sel);
  }

  /** The two rows of rice and chicken, column by column. */
  lemma RiceAndChickenRows()
    ensures SelectedTotal(FoodIds(), EnergyColumn(), {"nasi_putih", "ayam"}) == 390.0
    ensures SelectedTotal(FoodIds(), ProteinColumn(), {"nasi_putih", "ayam"}) == 28.0
    ensures SelectedTotal(FoodIds(), FatColumn(), {"nasi_putih", "ayam"}) == 15.3
    ensures SelectedTotal(FoodIds(), CarbohydrateColumn(), {"nasi_putih", "ayam"}) == 32.0
    ensures SelectedTotal(FoodIds(), FibreColumn(), {"nasi_putih", "ayam"}) == 0.5
  {
    RiceAndChickenColumn(EnergyColumn());
    RiceAndChickenColumn(ProteinColumn());
    RiceAndChickenColumn(FatColumn());
    RiceAndChickenColumn(CarbohydrateColumn());
    RiceAndChickenColumn(FibreColumn());
  }

  /**
   * Rice and chicken together: 140 + 250 kcal of energy, 3 + 25 g of protein,
   * 0.3 + 15 g of fat, 30 + 2 g of carbohydrate and 0.5 + 0 g of fibre.
   */
  lemma RiceAndChicken(c: Catalog)
    requires c == FoodCatalog()
    ensures c.Shaped()
    ensures Aggregate(c, ["nasi_putih", "ayam"]).Keys == {ENERGY, PROTEIN, FAT, CARBOHYDRATE, FIBRE}
    ensures Aggregate(c, ["nasi_putih", "ayam"])[ENERGY] == 390.0
    ensures Aggregate(c, ["nasi_putih", "ayam"])[PROTEIN] == 28.0
    ensures Aggregate(c, ["nasi_putih", "ayam"])[FAT] == 15.3
    ensures Aggregate(c, ["nasi_putih", "ayam"])[CARBOHYDRATE] == 32.0
    ensures Aggregate(c, ["nasi_putih", "ayam"])[FIBRE] == 0.5
  {
    var sel := Selection(["nasi_putih", "ayam"]);
    assert sel == {"nasi_putih", "ayam"};
    FoodCatalogTotals(c, sel);
    RiceAndChickenRows();
  }
}
