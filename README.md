# Nutrition sync reconciler

A model of the reconciliation step of `nutrition.py`, which copies one day's
nutrition totals from a fitness-tracking provider into a row of a Notion
database. For each date the program reads the provider's day and turns it into
a snapshot (food totals, calories burned over all logged exercise, net calories,
water), looks up the stored page for that date, decides whether nothing, a new
page, or an update of the found page is needed, and builds the property map it
sends.

The provider and store calls are not modelled: their answers are parameters.
The day is an `Option<Day>`. It is `None` when the provider has no data, and
also when reading the day or its water raised, since both calls sit in one
`try` whose handler returns nothing (nutrition.py:59-103). The water reading is
an `Option<int>`, `None` when `get_water` returned `None`. The date query's
answer is an `Option<seq<Page>>`, `None` when the query raised or returned an
empty response. Totals are integers. A stored page is its id and a map from property
name to `Option<int>`. A missing name is a property the page lacks. `None` is a
property whose number is empty.

Modules:
- `SourceReader` (source_reader.dfy): the snapshot and the summation loop.
- `NotionSchema` (notion_schema.dfy): property names and the page shape.
- `RecordLocator` (record_locator.dfy): first-result selection.
- `Reconciler` (reconciler.dfy): the update predicate and the decision.
- `Writer` (writer.dfy): the create and update property maps.
- `Sync` (sync.dfy): the per-date loop of `main`.

`Writer.Applied` describes how the store applies a property map to a page. The
properties the map names take its numbers, and the rest keep their values. This
is an assumption about the store, not code of the repository. It is
there so that the writer can be checked against the reconciler: a page written
from a snapshot no longer needs an update for it.

The code subtracts the unrounded totals and then rounds the difference
(nutrition.py:83, nutrition.py:95). With integer totals this equals the
difference of the rounded totals.

## Model

| member | source | states |
|---|---|---|
| `SourceReader.CaloriesBurned` | nutrition.py:76-80 | the nested loop's total equals calories burned summed over every entry of every group, with a missing label counting 0; with no exercises it is 0 |
| `SourceReader.TotalBurnedIsSumOfAllEntries` | nutrition.py:77-80 | summing group by group equals summing the flat list of all entries |
| `SourceReader.TotalBurnedWithoutKeyIsZero` | nutrition.py:80 | entries without a "calories burned" label contribute nothing: if none has one, the total is 0 |
| `SourceReader.SnapshotOf` | nutrition.py:59-100 | a snapshot exists exactly when the provider has a day; it carries the date, calories in, protein, carbs and fats from the "calories", "protein", "carbohydrates" and "fat" totals (missing reads 0), calories out is the exercise total, net calories is calories in minus calories out, and missing water becomes 0 |
| `SourceReader.ReadSnapshot` | nutrition.py:59-100 | the reader, running the summation loop, returns exactly `SnapshotOf` |
| `RecordLocator.FirstResult` | nutrition.py:115-130 | a page is found exactly when the query answered with a non-empty list, and it is that list's first element |
| `Reconciler.ReadNumber` | nutrition.py:144-147 | a stored number reads as its value when present and non-empty, and as 0 when the property is absent or empty |
| `Reconciler.NeedsUpdateIffOutOfSync` | nutrition.py:149-160 | the update test holds exactly when the stored view is out of sync with the snapshot; in sync means six equal core numbers, and equal water or, with no stored water, new water not positive |
| `Reconciler.CoreDifferenceNeedsUpdate` | nutrition.py:149-154 | any one of the six core numbers differing from its stored value (missing read as 0) forces an update |
| `Reconciler.MissingWaterZeroIsNoUpdate` | nutrition.py:155-160 | with no stored water property and new water 0, the page needs an update exactly when a core number differs |
| `Reconciler.MissingWaterPositiveNeedsUpdate` | nutrition.py:157-159 | with no stored water property, positive new water always forces an update |
| `Reconciler.PresentWaterIsCompared` | nutrition.py:155 | with a stored water property and equal core numbers, the page needs an update exactly when the stored water (empty read as 0) differs from the new water |
| `Reconciler.DecideCases` | nutrition.py:275-296 | no snapshot gives Skip; no page gives Create; a page gives Update with its id exactly when the update test holds, otherwise NoOp; NoOp only when a page exists |
| `Writer.CreatePropertiesShape` | nutrition.py:170-180 | the create map names the date, the six numbers and water, and its date is the snapshot's date |
| `Writer.UpdateIsCreateWithoutDate` | nutrition.py:205-214 | the update map equals the create map with the date removed |
| `Writer.RequestFor` | nutrition.py:285-296 | Create sends a new page with the create map to the database, Update sends the update map to the found page's id, NoOp and Skip send nothing |
| `Writer.UpdatedPageReadsSnapshot` | nutrition.py:205-214 | after the store applies the update map, each compared number reads back as the snapshot's value and water is present |
| `Writer.UpdatedPageIsUpToDate` | nutrition.py:205-214 | a page updated with a snapshot's map no longer needs an update for that snapshot |
| `Writer.CreatedPageIsUpToDate` | nutrition.py:170-180 | a page created from a snapshot's map does not need an update for that snapshot |
| `Writer.SecondSyncIsNoOp` | nutrition.py:285-292 | syncing the same snapshot again after an update decides NoOp |
| `Writer.ProteinChangeExample` | nutrition.py:288-290 | a page differing only in protein (90 stored, 95 new) is updated, and the update map carries 95 |
| `Sync.SyncDates` | nutrition.py:268-296 | the date loop takes for each date the decision of read, locate and decide, and issues exactly the writes `Writes` lists, in order |
| `Sync.UpdateTargetsFirstResult` | nutrition.py:283-290 | an update happens only for a date with provider data and a non-empty query answer, and it targets the first page returned |
| `Sync.WritesAtMostOnePerDate` | nutrition.py:268-296 | each further date adds at most one write, and exactly one when it is decided Create or Update |
| `Sync.NoDataNoWrites` | nutrition.py:273-277 | a date without provider data adds no write, whatever dates come before it |
| `Sync.WritesCountWritingDates` | nutrition.py:268-296 | over a run, the number of writes is the number of dates decided Create or Update, so at most the number of dates |

## Left out

- Provider and store calls (`get_date`, `get_water`, `databases.query`, `pages.create`, `pages.update`) and client construction: foreign I/O. Their results are parameters. A provider call that raised is a day of `None`; a query that raised is a query answer of `None`.
- Catching exceptions and printing: the only modellable effect, "returns nothing" or "write abandoned", is covered by the `Option` inputs and by the writes being a list of attempted requests.
- A failed write: it is logged and the loop goes on, so it does not change later decisions. The model lists attempted writes and does not model whether they succeeded.
- Environment configuration (token, database id, time zone), the check for missing settings, and the choice of today's date from the clock: ambient state. The database id is a parameter, and the dates come as a list of inputs.
- Date formatting with `strftime`: a date is an opaque string.
- `round` on the totals: floating point. Totals are integers, so rounding is the identity and `x or 0` is `x`.
- The emoji icon in the create request: decorative.
- The `sugar` and `sodium` reads: their values are never used.
- The builders' check that the snapshot holds water: the reader always stores a number (a missing reading becomes 0), so the guard always passes and water is always written.
- Properties of a stored page other than numbers (the date property, for one): the update test reads only numbers.
- The store changing between dates: each date's query answer is an input, so a create for one date is not seen by a later date's query.
- Writer.Applied: assumes every property a write names exists in the database, so a write can add a property the page lacked (water, say). A real database rejects a write naming a column it does not have, so for a page without a water property `Writer.UpdatedPageIsUpToDate`, `Writer.CreatedPageIsUpToDate` and `Writer.SecondSyncIsNoOp` hold only under this assumption.
