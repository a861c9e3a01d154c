/**
 * Reconciler: decides whether a stored page already holds a snapshot, and
 * whether a date needs nothing, a new page, or an update of the page found.
 */
module Reconciler {
  import opened Wrappers
  import opened NotionSchema
  import opened SourceReader

  /** A stored number for comparison: a missing property or an empty number reads 0. */
  function ReadNumber(props: map<string, Option<int>>, name: string): (n: int)
    ensures name in props && props[name].Some? ==> n == props[name].value
    ensures name !in props || props[name].None? ==> n == 0
  {
    if name in props && props[name].Some? then props[name].value else 0
  }

  /**
   * The update test, clause for clause: any of the six core numbers differs;
   * or the page has a water property whose number differs; or the page has
   * no water property and the new water is positive.
   */
  predicate NeedsUpdate(page: Page, s: Snapshot) {
    var props := page.properties;
    ReadNumber(props, CaloriesInProp) != s.caloriesIn ||
    ReadNumber(props, CaloriesOutProp) != s.caloriesOut ||
    ReadNumber(props, NetCaloriesProp) != s.netCalories ||
    ReadNumber(props, ProteinProp) != s.protein ||
    ReadNumber(props, CarbsProp) != s.carbs ||
    ReadNumber(props, FatsProp) != s.fats ||
    (WaterProp in props && ReadNumber(props, WaterProp) != s.water) ||
    (WaterProp !in props && s.water > 0)
  }

  /** What a stored page says about a day, once missing numbers read 0; water is `None` when the page has no water property. */
  datatype StoredView = StoredView(
    caloriesIn: int,
    caloriesOut: int,
    netCalories: int,
    protein: int,
    carbs: int,
    fats: int,
    water: Option<int>)

  function ViewOf(props: map<string, Option<int>>): StoredView {
    StoredView(
      ReadNumber(props, CaloriesInProp),
      ReadNumber(props, CaloriesOutProp),
      ReadNumber(props, NetCaloriesProp),
      ReadNumber(props, ProteinProp),
      ReadNumber(props, CarbsProp),
      ReadNumber(props, FatsProp),
      if WaterProp in props then Some(ReadNumber(props, WaterProp)) else None)
  }

  /**
   * A stored view agrees with a snapshot: the six core numbers are equal, and
   * the stored water equals the new water, or there is no stored water and
   * the new water is not positive.
   */
  predicate InSync(v: StoredView, s: Snapshot) {
    v.caloriesIn == s.caloriesIn && v.caloriesOut == s.caloriesOut &&
    v.netCalories == s.netCalories && v.protein == s.protein &&
    v.carbs == s.carbs && v.fats == s.fats &&
    match v.water
    case Some(w) => w == s.water
    case None => s.water <= 0
  }

  /** A page needs an update exactly when what it stores is out of sync with the snapshot. */
  lemma NeedsUpdateIffOutOfSync(page: Page, s: Snapshot)
    ensures NeedsUpdate(page, s) <==> !InSync(ViewOf(page.properties), s)
  {
  }

  /** Any one core number that differs, read with missing as 0, forces an update. */
  lemma CoreDifferenceNeedsUpdate(page: Page, s: Snapshot)
    requires var v := ViewOf(page.properties);
      v.caloriesIn != s.caloriesIn || v.caloriesOut != s.caloriesOut ||
      v.netCalories != s.netCalories || v.protein != s.protein ||
      v.carbs != s.carbs || v.fats != s.fats
    ensures NeedsUpdate(page, s)
  {
  }

  /** With no stored water property, new water 0 does not by itself trigger an update. */
  lemma MissingWaterZeroIsNoUpdate(page: Page, s: Snapshot)
    requires WaterProp !in page.properties
    requires s.water == 0
    ensures NeedsUpdate(page, s) <==>
      ViewOf(page.properties).caloriesIn != s.caloriesIn ||
      ViewOf(page.properties).caloriesOut != s.caloriesOut ||
      ViewOf(page.properties).netCalories != s.netCalories ||
      ViewOf(page.properties).protein != s.protein ||
      ViewOf(page.properties).carbs != s.carbs ||
      ViewOf(page.properties).fats != s.fats
  {
  }

  /** With no stored water property, positive new water always triggers an update. */
  lemma MissingWaterPositiveNeedsUpdate(page: Page, s: Snapshot)
    requires WaterProp !in page.properties
    requires s.water > 0
    ensures NeedsUpdate(page, s)
  {
  }

  /** With a stored water property (an empty number reading 0), water is compared like the other numbers. */
  lemma PresentWaterIsCompared(page: Page, s: Snapshot)
    requires WaterProp in page.properties
    requires ViewOf(page.properties).caloriesIn == s.caloriesIn
    requires ViewOf(page.properties).caloriesOut == s.caloriesOut
    requires ViewOf(page.properties).netCalories == s.netCalories
    requires ViewOf(page.properties).protein == s.protein
    requires ViewOf(page.properties).carbs == s.carbs
    requires ViewOf(page.properties).fats == s.fats
    ensures NeedsUpdate(page, s) <==> ReadNumber(page.properties, WaterProp) != s.water
  {
  }

  /** What the sync does for one date. */
  datatype Decision =
    | Skip              // no snapshot: nothing is queried or written
    | NoOp              // a page exists and is up to date
    | Create            // no page exists: a new one is written
    | Update(pageId: string) // the page found is out of date and is rewritten

  function Decide(snapshot: Option<Snapshot>, existing: Option<Page>): Decision {
    match snapshot
    case None => Skip
    case Some(s) =>
      match existing
      case None => Create
      case Some(page) => if NeedsUpdate(page, s) then Update(page.id) else NoOp
  }

  /** The decision rule: every outcome and the condition that leads to it. */
  lemma DecideCases(snapshot: Option<Snapshot>, existing: Option<Page>)
    ensures Decide(snapshot, existing) == Skip <==> snapshot.None?
    ensures Decide(snapshot, existing) == Create <==> snapshot.Some? && existing.None?
    ensures Decide(snapshot, existing).Update? <==>
      snapshot.Some? && existing.Some? && NeedsUpdate(existing.value, snapshot.value)
    ensures Decide(snapshot, existing).Update? ==> Decide(snapshot, existing).pageId == existing.value.id
    ensures Decide(snapshot, existing) == NoOp <==>
      snapshot.Some? && existing.Some? && !NeedsUpdate(existing.value, snapshot.value)
  {
  }
}
