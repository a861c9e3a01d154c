/**
 * Writer: the property maps sent to the store to create or update a page,
 * and what a page holds once the store has applied them.
 */
module Writer {
  import opened Wrappers
  import opened NotionSchema
  import opened SourceReader
  import opened Reconciler

  /** A property value in a write: a date start or a number. */
  datatype PropertyValue = DateStart(start: string) | Number(number: int)

  /** A write request: a new page in a database, or new properties for a page. */
  datatype Request =
    | CreatePage(databaseId: string, properties: map<string, PropertyValue>)
    | UpdatePage(pageId: string, properties: map<string, PropertyValue>)

  /**
   * The properties of a new page: the date and the six numbers, plus water.
   * The source adds water only when the snapshot holds one; a snapshot always
   * does (the reader turns a missing reading into 0), so it is always added.
   */
  function CreateProperties(s: Snapshot): map<string, PropertyValue> {
    var properties := map[
      DateProp := DateStart(s.date),
      CaloriesInProp := Number(s.caloriesIn),
      CaloriesOutProp := Number(s.caloriesOut),
      NetCaloriesProp := Number(s.netCalories),
      ProteinProp := Number(s.protein),
      CarbsProp := Number(s.carbs),
      FatsProp := Number(s.fats)];
    properties[WaterProp := Number(s.water)]
  }

  /** The properties of an update: the six numbers plus water; the date is never rewritten. */
  function UpdateProperties(s: Snapshot): map<string, PropertyValue> {
    var properties := map[
      CaloriesInProp := Number(s.caloriesIn),
      CaloriesOutProp := Number(s.caloriesOut),
      NetCaloriesProp := Number(s.netCalories),
      ProteinProp := Number(s.protein),
      CarbsProp := Number(s.carbs),
      FatsProp := Number(s.fats)];
    properties[WaterProp := Number(s.water)]
  }

  /** The create payload names the date, the six numbers and water, and the date carries the snapshot's date. */
  lemma CreatePropertiesShape(s: Snapshot)
    ensures CreateProperties(s).Keys ==
      {DateProp, CaloriesInProp, CaloriesOutProp, NetCaloriesProp, ProteinProp, CarbsProp, FatsProp, WaterProp}
    ensures CreateProperties(s)[DateProp] == DateStart(s.date)
  {
  }

  /** The update payload is the create payload without its date. */
  lemma UpdateIsCreateWithoutDate(s: Snapshot)
    ensures UpdateProperties(s) == CreateProperties(s) - {DateProp}
    ensures DateProp !in UpdateProperties(s)
  {
  }

  /** The request for one date's decision: none for Skip and NoOp. */
  function RequestFor(databaseId: string, d: Decision, s: Snapshot): (r: Option<Request>)
    ensures r.Some? <==> d.Create? || d.Update?
    ensures d.Create? ==> r == Some(CreatePage(databaseId, CreateProperties(s)))
    ensures d.Update? ==> r == Some(UpdatePage(d.pageId, UpdateProperties(s)))
  {
    match d
    case Skip => None
    case NoOp => None
    case Create => Some(CreatePage(databaseId, CreateProperties(s)))
    case Update(pageId) => Some(UpdatePage(pageId, UpdateProperties(s)))
  }

  /**
   * The number properties of a page after the store applies `payload`: a name
   * the payload sets as a number takes that number, every other stored
   * property keeps its value, and a date value adds no number.
   */
  function Applied(props: map<string, Option<int>>, payload: map<string, PropertyValue>): map<string, Option<int>> {
    map k | k in props.Keys + payload.Keys && (k in payload ==> payload[k].Number?) ::
      if k in payload then Some(payload[k].number) else props[k]
  }

  /** After an update with a snapshot's payload, every compared number reads back as the snapshot's. */
  lemma UpdatedPageReadsSnapshot(props: map<string, Option<int>>, s: Snapshot)
    ensures ViewOf(Applied(props, UpdateProperties(s))) ==
      StoredView(s.caloriesIn, s.caloriesOut, s.netCalories, s.protein, s.carbs, s.fats, Some(s.water))
  {
  }

  /** A page updated with a snapshot's payload no longer needs an update for that snapshot. */
  lemma UpdatedPageIsUpToDate(page: Page, s: Snapshot)
    ensures !NeedsUpdate(Page(page.id, Applied(page.properties, UpdateProperties(s))), s)
  {
  }

  /** A page created from a snapshot's payload does not need an update for that snapshot. */
  lemma CreatedPageIsUpToDate(id: string, s: Snapshot)
    ensures !NeedsUpdate(Page(id, Applied(map[], CreateProperties(s))), s)
  {
  }

  /** Syncing the same snapshot again right after a write decides NoOp. */
  lemma SecondSyncIsNoOp(page: Page, s: Snapshot)
    ensures Decide(Some(s), Some(Page(page.id, Applied(page.properties, UpdateProperties(s))))) == NoOp
  {
  }

  /** A page that differs only in protein (90 stored, 95 new) is updated, and the update carries 95. */
  lemma ProteinChangeExample(page: Page, s: Snapshot)
    requires page.properties == map[
      CaloriesInProp := Some(2000), CaloriesOutProp := Some(300), NetCaloriesProp := Some(1700),
      ProteinProp := Some(90), CarbsProp := Some(250), FatsProp := Some(70)]
    requires s == Snapshot("2024-05-01", 2000, 300, 1700, 95, 250, 70, 0)
    ensures Decide(Some(s), Some(page)) == Update(page.id)
    ensures RequestFor("db", Update(page.id), s).value.properties[ProteinProp] == Number(95)
  {
  }
}
