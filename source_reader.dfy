/**
 * Source Reader: turns one day of the fitness provider's data into a
 * nutrition snapshot. The provider calls themselves are not modelled; their
 * results (the day, or nothing, and the water reading) are parameters.
 */
module SourceReader {
  import opened Wrappers

  /** One logged exercise entry; its nutrition information maps a label to an amount. */
  datatype Entry = Entry(nutritionInformation: map<string, int>)

  /** A group of exercise entries, as the provider lists them. */
  datatype ExerciseGroup = ExerciseGroup(entries: seq<Entry>)

  /** What the provider returns for one day: food totals by label and the exercise groups. */
  datatype Day = Day(totals: map<string, int>, exercises: seq<ExerciseGroup>)

  /** One day's totals, as they are compared with and written to the store. */
  datatype Snapshot = Snapshot(
    date: string,
    caloriesIn: int,
    caloriesOut: int,
    netCalories: int,
    protein: int,
    carbs: int,
    fats: int,
    water: int)

  const CaloriesKey := "calories"
  const ProteinKey := "protein"
  const CarbsKey := "carbohydrates"
  const FatKey := "fat"
  const CaloriesBurnedKey := "calories burned"

  /** A label's amount, 0 when the label is missing. */
  function Lookup(m: map<string, int>, key: string): int {
    if key in m then m[key] else 0
  }

  /** Calories one entry burned. */
  function Burned(e: Entry): int {
    Lookup(e.nutritionInformation, CaloriesBurnedKey)
  }

  /** Calories burned over a list of entries, summed front to back. */
  function EntriesBurned(es: seq<Entry>): int {
    if es == [] then 0 else EntriesBurned(es[..|es| - 1]) + Burned(es[|es| - 1])
  }

  /** Calories burned over every entry of every group, summed group by group. */
  function TotalBurned(gs: seq<ExerciseGroup>): int {
    if gs == [] then 0 else TotalBurned(gs[..|gs| - 1]) + EntriesBurned(gs[|gs| - 1].entries)
  }

  /** All entries of all groups, in order. */
  function AllEntries(gs: seq<ExerciseGroup>): seq<Entry> {
    if gs == [] then [] else AllEntries(gs[..|gs| - 1]) + gs[|gs| - 1].entries
  }

  lemma {:induction false} EntriesBurnedAppend(a: seq<Entry>, b: seq<Entry>)
    ensures EntriesBurned(a + b) == EntriesBurned(a) + EntriesBurned(b)
    decreases |b|
  {
    if b == [] {
      assert a + b == a;
    } else {
      var b' := b[..|b| - 1];
      assert (a + b)[..|a + b| - 1] == a + b';
      EntriesBurnedAppend(a, b');
    }
  }

  /** Summing group by group is summing over the flat list of all entries. */
  lemma {:induction false} TotalBurnedIsSumOfAllEntries(gs: seq<ExerciseGroup>)
    ensures TotalBurned(gs) == EntriesBurned(AllEntries(gs))
    decreases |gs|
  {
    if gs != [] {
      TotalBurnedIsSumOfAllEntries(gs[..|gs| - 1]);
      EntriesBurnedAppend(AllEntries(gs[..|gs| - 1]), gs[|gs| - 1].entries);
    }
  }

  lemma {:induction false} EntriesWithoutKeyBurnNothing(es: seq<Entry>)
    requires forall i :: 0 <= i < |es| ==> CaloriesBurnedKey !in es[i].nutritionInformation
    ensures EntriesBurned(es) == 0
    decreases |es|
  {
    if es != [] {
      EntriesWithoutKeyBurnNothing(es[..|es| - 1]);
    }
  }

  /** Entries with no "calories burned" label count as 0, so a day whose entries carry none burns 0. */
  lemma TotalBurnedWithoutKeyIsZero(gs: seq<ExerciseGroup>)
    requires forall i :: 0 <= i < |AllEntries(gs)| ==> CaloriesBurnedKey !in AllEntries(gs)[i].nutritionInformation
    ensures TotalBurned(gs) == 0
  {
    TotalBurnedIsSumOfAllEntries(gs);
    EntriesWithoutKeyBurnNothing(AllEntries(gs));
  }

  /**
   * The nested loop that adds up calories burned: every entry of every
   * exercise group, a missing label counting as 0.
   */
  method CaloriesBurned(exercises: seq<ExerciseGroup>) returns (total: int)
    ensures total == TotalBurned(exercises)
    ensures exercises == [] ==> total == 0
  {
    total := 0;
    for i := 0 to |exercises|
      invariant total == TotalBurned(exercises[..i])
    {
      var group := exercises[i];
      for j := 0 to |group.entries|
        invariant total == TotalBurned(exercises[..i]) + EntriesBurned(group.entries[..j])
      {
        assert group.entries[..j + 1][..j] == group.entries[..j];
        total := total + Burned(group.entries[j]);
      }
      assert group.entries[..|group.entries|] == group.entries;
      assert exercises[..i + 1][..i] == exercises[..i];
    }
    assert exercises[..|exercises|] == exercises;
  }

  /**
   * The snapshot for `date`: nothing when the provider has no day; otherwise the
   * food totals (a missing label reading 0), the calories burned, their simple
   * difference as net calories, and the water reading with a missing one as 0.
   */
  function SnapshotOf(date: string, day: Option<Day>, water: Option<int>): (r: Option<Snapshot>)
    ensures r.Some? <==> day.Some?
    ensures r.Some? ==> r.value.date == date
    ensures r.Some? ==> r.value.caloriesOut == TotalBurned(day.value.exercises)
    ensures r.Some? ==> r.value.netCalories == r.value.caloriesIn - r.value.caloriesOut
    ensures r.Some? ==> r.value.water == if water.Some? then water.value else 0
    ensures r.Some? ==> r.value.caloriesIn == Lookup(day.value.totals, CaloriesKey)
    ensures r.Some? ==> r.value.protein == Lookup(day.value.totals, ProteinKey)
    ensures r.Some? ==> r.value.carbs == Lookup(day.value.totals, CarbsKey)
    ensures r.Some? ==> r.value.fats == Lookup(day.value.totals, FatKey)
  {
    match day
    case None => None
    case Some(d) =>
      var caloriesIn := Lookup(d.totals, CaloriesKey);
      var caloriesOut := TotalBurned(d.exercises);
      Some(Snapshot(
        date,
        caloriesIn,
        caloriesOut,
        caloriesIn - caloriesOut,
        Lookup(d.totals, ProteinKey),
        Lookup(d.totals, CarbsKey),
        Lookup(d.totals, FatKey),
        water.GetOr(0)))
  }

  /** Reads one day: the snapshot, computed with the summation loop. */
  method ReadSnapshot(date: string, day: Option<Day>, water: Option<int>) returns (r: Option<Snapshot>)
    ensures r == SnapshotOf(date, day, water)
  {
    if day.None? {
      return None;
    }
    var d := day.value;
    var caloriesIn := Lookup(d.totals, CaloriesKey);
    var caloriesOut := CaloriesBurned(d.exercises);
    var netCalories := caloriesIn - caloriesOut;
    var waterMl := if water.Some? then water.value else 0;
    r := Some(Snapshot(
      date,
      caloriesIn,
      caloriesOut,
      netCalories,
      Lookup(d.totals, ProteinKey),
      Lookup(d.totals, CarbsKey),
      Lookup(d.totals, FatKey),
      waterMl));
  }
}
