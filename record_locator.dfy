/** Record Locator: picks the stored page for a date from the store's query answer. */
module RecordLocator {
  import opened Wrappers
  import opened NotionSchema

  /**
   * The page the sync works with: the first result of the exact-date query.
   * `response` is `None` when the query failed or came back empty-handed.
   * Later duplicates are ignored.
   */
  function FirstResult(response: Option<seq<Page>>): (r: Option<Page>)
    ensures r.Some? <==> response.Some? && |response.value| > 0
    ensures r.Some? ==> r.value == response.value[0]
  {
    if response.Some? && |response.value| > 0 then Some(response.value[0]) else None
  }
}
