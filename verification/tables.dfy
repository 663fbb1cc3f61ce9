/**
 * The static tables of the lunch analysis: the food catalog (`data_gizi`),
 * the daily-intake profiles (`akg_profiles`) and the lunch share of a day
 * (`PORSI_MAKAN_SIANG`). Values are exact reals.
 */
module Tables {

  /** One numeric column of the catalog: a nutrient and its value for every food, row by row. */
  datatype Column = Column(nutrient: string, values: seq<real>)

  /**
   * The catalog in the column layout of `data_gizi`: the `nama_makanan`
   * identifiers and, for each nutrient, one value per identifier.
   */
  datatype Catalog = Catalog(ids: seq<string>, columns: seq<Column>) {

    /** Every column has one value per food and no two columns share a nutrient name. */
    predicate Shaped() {
      && (forall j :: 0 <= j < |columns| ==> |columns[j].values| == |ids|)
      && Distinct(Nutrients())
    }

    /** A shaped catalog whose food identifiers are unique as well. */
    predicate Valid() {
      Shaped() && Distinct(ids)
    }

    /** The nutrient names, in column order. */
    function Nutrients(): (ns: seq<string>)
      ensures |ns| == |columns|
      ensures forall j :: 0 <= j < |columns| ==> ns[j] == columns[j].nutrient
    {
      seq(|columns|, j requires 0 <= j < |columns| => columns[j].nutrient)
    }
  }

  /** A daily intake for one nutrient. */
  datatype Intake = Intake(nutrient: string, daily: real)

  /** A named daily-intake profile; its intakes are in declaration order. */
  datatype Profile = Profile(name: string, intakes: seq<Intake>)

  predicate Distinct<T(==)>(s: seq<T>) {
    forall i, j :: 0 <= i < j < |s| ==> s[i] != s[j]
  }

  /** Row positions listed in strictly ascending order. */
  predicate Increasing(rows: seq<nat>) {
    forall i, j :: 0 <= i < j < |rows| ==> rows[i] < rows[j]
  }

  /** The nutrient names of a profile, in declaration order. */
  function IntakeNames(p: Profile): (ns: seq<string>)
    ensures |ns| == |p.intakes|
    ensures forall j :: 0 <= j < |ns| ==> ns[j] == p.intakes[j].nutrient
  {
    seq(|p.intakes|, j requires 0 <= j < |p.intakes| => p.intakes[j].nutrient)
  }

  /** The share of the daily intake that lunch is expected to cover. */
  const MEAL_FRACTION: real := 0.35

  const ENERGY := "Energi (kkal)"
  const PROTEIN := "Protein (g)"
  const FAT := "Lemak (g)"
  const CARBOHYDRATE := "Karbohidrat (g)"
  const FIBRE := "Serat (g)"

  /** The `nama_makanan` column: the food identifiers, in row order. */
  function FoodIds(): seq<string> {
      ["nasi_putih", "ayam", "nasi_kuning", "nasi_liwet", "buah_jeruk",
       "buah_melon", "buah_pisang", "buah_duku", "sayur_capcay",
       "sayur_wortel_kacang", "sayur", "wortel", "susu", "tahu", "tempe",
       "tempe_bacem", "ayam_kecap", "buah_semangka"]
  }

  /** The food catalog, column by column. */
  function FoodCatalog(): (c: Catalog)
    ensures |c.ids| == 18 && |c.columns| == 5
    ensures forall j :: 0 <= j < |c.columns| ==> |c.columns[j].values| == |c.ids|
  {
    Catalog(FoodIds(),
            [Column(ENERGY, EnergyColumn()), Column(PROTEIN, ProteinColumn()), Column(FAT, FatColumn()),
             Column(CARBOHYDRATE, CarbohydrateColumn()), Column(FIBRE, FibreColumn())])
  }

  function EnergyColumn(): seq<real> {
    [140.0, 250.0, 180.0, 190.0, 70.0, 34.0, 105.0, 70.0, 80.0, 60.0,
     50.0, 41.0, 80.0, 80.0, 100.0, 110.0, 220.0, 45.0]
  }

  function ProteinColumn(): seq<real> {
    [3.0, 25.0, 4.0, 4.5, 1.5, 0.8, 1.3, 1.0, 4.0, 2.5,
     2.0, 0.9, 4.0, 7.0, 9.0, 10.0, 23.0, 0.9]
  }

  function FatColumn(): seq<real> {
    [0.3, 15.0, 5.0, 6.0, 0.2, 0.2, 0.4, 0.2, 4.0, 3.0,
     2.5, 0.2, 4.5, 6.0, 6.0, 5.0, 10.0, 0.2]
  }

  function CarbohydrateColumn(): seq<real> {
    [30.0, 2.0, 30.0, 31.0, 18.0, 8.0, 27.0, 17.0, 9.0, 7.0,
     6.0, 10.0, 6.0, 2.0, 8.0, 10.0, 10.0, 11.0]
  }

  function FibreColumn(): seq<real> {
    [0.5, 0.0, 1.0, 1.0, 3.5, 0.9, 3.1, 4.0, 3.5, 3.0,
     3.0, 2.8, 0.0, 1.0, 1.5, 1.4, 0.5, 0.6]
  }

  function DailyIntakes(energy: real, protein: real, fat: real, carbohydrate: real, fibre: real): seq<Intake> {
    [Intake(ENERGY, energy), Intake(PROTEIN, protein), Intake(FAT, fat),
     Intake(CARBOHYDRATE, carbohydrate), Intake(FIBRE, fibre)]
  }

  /** The profile registry, in declaration order. */
  function Profiles(): (ps: seq<Profile>)
    ensures |ps| == 5
    ensures forall i :: 0 <= i < |ps| ==> |ps[i].intakes| == 5
  {
    [Profile("Anak SD (7-12 Tahun)", DailyIntakes(1825.0, 48.0, 60.0, 275.0, 26.0)),
     Profile("Anak SMP (13-15 Tahun)", DailyIntakes(2225.0, 68.0, 75.0, 325.0, 32.0)),
     Profile("Anak SMA (16-18 Tahun)", DailyIntakes(2375.0, 70.0, 78.0, 350.0, 33.0)),
     Profile("Ibu Hamil (Trimester 2 & 3)", DailyIntakes(2550.0, 90.0, 70.0, 400.0, 34.0)),
     Profile("Laki-laki Dewasa (19-29)", DailyIntakes(2650.0, 65.0, 75.0, 430.0, 37.0))]
  }

  /** The labels offered by the profile selector, in declaration order. */
  function ProfileLabels(): (ls: seq<string>)
    ensures |ls| == |Profiles()|
    ensures forall i :: 0 <= i < |ls| ==> ls[i] == Profiles()[i].name
  {
    seq(|Profiles()|, i requires 0 <= i < |Profiles()| => Profiles()[i].name)
  }

  /** The selector starts on the last profile. */
  function DefaultProfileIndex(): (i: nat)
    ensures i < |Profiles()|
    ensures Profiles()[i].name == "Laki-laki Dewasa (19-29)"
  {
    |Profiles()| - 1
  }

  /** `akg_profiles[choice]`: the profile with the given label, if any. */
  function FindProfile(profiles: seq<Profile>, choice: string): (p: Option<Profile>)
    ensures p.Some? <==> exists i :: 0 <= i < |profiles| && profiles[i].name == choice
    ensures p.Some? ==> p.value.name == choice && p.value in profiles
  {
    if profiles == [] then None
    else if profiles[0].name == choice then Some(profiles[0])
    else FindProfile(profiles[1..], choice)
  }

  datatype Option<T> = None | Some(value: T)

  /** Every label the selector offers finds its own profile. */
  lemma FindConfigured(i: nat)
    requires i < |Profiles()|
    ensures FindProfile(Profiles(), ProfileLabels()[i]) == Some(Profiles()[i])
  {
    ProfilesMatchCatalog();
  }

  /** The catalog's identifier column and its five nutrient columns, by position. */
  lemma FoodCatalogColumns(c: Catalog)
    requires c == FoodCatalog()
    ensures c.ids == FoodIds() && |c.columns| == 5
    ensures c.columns[0] == Column(ENERGY, EnergyColumn()) && c.columns[1] == Column(PROTEIN, ProteinColumn())
    ensures c.columns[2] == Column(FAT, FatColumn()) && c.columns[3] == Column(CARBOHYDRATE, CarbohydrateColumn())
    ensures c.columns[4] == Column(FIBRE, FibreColumn())
  {
  }

  /** No two foods share an identifier. */
  lemma FoodIdsDistinct()
    ensures Distinct(FoodIds())
  {
  }

  /** The catalog is well formed and holds no negative value. */
  lemma FoodCatalogValid()
    ensures FoodCatalog().Valid()
    ensures forall j, k :: 0 <= j < |FoodCatalog().columns| && 0 <= k < |FoodCatalog().ids| ==>
              FoodCatalog().columns[j].values[k] >= 0.0
  {
    FoodIdsDistinct();
  }

  /**
   * Every profile has unique labels, declares exactly the catalog's nutrients
   * in the catalog's order, and asks for positive amounts.
   */
  lemma ProfilesMatchCatalog()
    ensures Distinct(ProfileLabels())
    ensures forall i :: 0 <= i < |Profiles()| ==> IntakeNames(Profiles()[i]) == FoodCatalog().Nutrients()
    ensures forall i, j :: 0 <= i < |Profiles()| && 0 <= j < |Profiles()[i].intakes| ==>
              Profiles()[i].intakes[j].daily > 0.0
    ensures 0.0 < MEAL_FRACTION <= 1.0
  {
  }
}
