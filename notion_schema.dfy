/** The store's property names and the shape of a stored page. */
module NotionSchema {
  import opened Wrappers

  const DateProp := "Date"
  const CaloriesInProp := "Calories In"
  const CaloriesOutProp := "Calories Out (Exercise)"
  const NetCaloriesProp := "Net Calories"
  const ProteinProp := "Protein (g)"
  const CarbsProp := "Carbs (g)"
  const FatsProp := "Fats (g)"
  const WaterProp := "Water (ml)"

  /**
   * A stored page: its identifier and its number properties. A name missing
   * from the map is a property the page does not have; `None` is a property
   * whose number is empty.
   */
  datatype Page = Page(id: string, properties: map<string, Option<int>>)
}
