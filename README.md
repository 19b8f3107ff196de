# Construction cost tracker: cost entries, summaries and delete guards

This project models the core of the cost tracker's API server
(`backend/server.py`). That server keeps four collections: projects, project
phases, cost categories and cost entries. It serves:

- **Cost-entry creation.**
  - The category must exist; otherwise the answer is 404 "Cost category not found".
  - A non-zero amount supplied with the request is kept.
  - Otherwise the amount is hours × hourly rate when both are non-zero.
  - Otherwise it is quantity × unit price when both are non-zero.
  - Otherwise the request is refused with 400 "Cannot calculate total amount".
  - A missing entry date becomes today.
- **The project summary.**
  - Total spent, and budget remaining.
  - Budget utilisation in percent; it is 0 when the budget is not positive.
  - One row per phase.
  - The cost breakdown by category name. An entry without a category name counts under "Unknown".
  - A daily spending trend, sorted by the day's ISO text.
  - A status indicator: `on_track` up to 75 %, `warning` up to 90 %, `over_budget` beyond.
- **The dashboard.**
  - The summary.
  - A monthly trend keyed `YEAR-MM`, sorted by key.
  - The ten most recently created entries, newest first.
- **Delete guards.**
  - A project cannot be deleted while any entry or phase belongs to it.
  - A category cannot be deleted while any entry uses it.
  - Otherwise the first record with the id is removed, or the answer is 404.

The model follows the code of `backend/server.py`. The server has no
earned-value engine, obligations or milestones, so the model has none. The
comment "last 30 days" on the daily trend is not what the code does: the code
keeps every day with an entry, and so does the model.

Modules:

- `Wrappers`: `Option` and `Result`.
- `Text`: zero-padded decimal text and Python's string order.
- `Calendar`: dates, the ISO day key and the month key.
- `Sums`: sums, group sums and the partition of a sum by key.
- `Grouping`:
  - the dictionary accumulation loop;
  - `sorted(d.items())`, modelled as an insertion sort over a sequence of buckets.
- `Records`: the stored documents and HTTP errors.
- `CostEntries`: the amount rule of entry creation.
- `Summaries`: the summary and dashboard computations over the fetched records.
- `Server`:
  - `Store`, a class whose four sequence fields are the collections;
  - the handlers as methods that update those fields.

Conventions:

- Amounts are `real`.
- A document field the server reads with `.get(key, default)` is an `Option`. The default is applied by an accessor (`CostEntry.Amount`, `CostEntry.CategoryKey`, `Phase.Budget`).
- A Python dictionary is a sequence of buckets with distinct keys, in insertion order.

## Model

| member | source | states |
|---|---|---|
| CostEntries.DeriveAmount | backend/server.py:304-311 | The amount exists iff a non-zero amount is supplied, or hours and rate are both non-zero, or quantity and unit price are both non-zero. The supplied amount wins, then hours × rate, then quantity × unit price. The amount is never zero. Otherwise the error is 400 "Cannot calculate total amount". |
| CostEntries.BuildEntry | backend/server.py:302-316 | The entry is built iff the amount rule succeeds. It carries the derived amount, the category's name, the given id and creation time, and the request's date or else today. Every other field is the request's. |
| CostEntries.ResubmitReproduces | backend/server.py:304-314 | Submitting a created entry's fields again yields the same entry on any day. The stored amount is non-zero and so is kept; the date is present and so is kept. |
| Server.Store.CreateCostEntry | backend/server.py:294-324 | 404 "Cost category not found" when no category has the id. Otherwise the result is BuildEntry with the first matching category's name. Only a built entry is appended; nothing else changes. Every entry's category still exists afterwards. |
| Server.Store.CreateProject | backend/server.py:147-159 | The project is appended and nothing else changes. |
| Server.Store.CreatePhase | backend/server.py:214-226 | The phase built from the request by NewPhase is appended and returned. Nothing else changes, and its project is not checked. |
| Server.NewPhase | backend/server.py:67-84 | A created phase carries the request's project, name, description and dates under the given id. Its budget allocation is always present and equals the request's. Its status is always not started. |
| Server.Store.CreateCategory | backend/server.py:251-255 | The category is appended and nothing else changes. |
| Server.Store.DeleteProject | backend/server.py:196-210 | 400 with the "existing cost entries or phases" detail iff an entry or a phase has the project id; this is checked first. 404 "Project not found" iff there is no such reference and no project with the id. It succeeds iff the project is unreferenced and present, answering "Project deleted successfully", and exactly the first project with the id is removed. Other collections are unchanged. Every entry and phase keeps its project. |
| Server.Store.DeleteCategory | backend/server.py:263-275 | 400 with the "used in cost entries" detail iff an entry uses the category; this is checked first. 404 "Cost category not found" iff it is unused and absent. It succeeds iff the category is unused and present, answering "Cost category deleted successfully", and exactly the first category with the id is removed. Other collections are unchanged. Every entry keeps its category. |
| Server.Store.DeleteCostEntry | backend/server.py:332-336 | 404 "Cost entry not found" iff no entry has the id. Otherwise "Cost entry deleted", and exactly the first entry with the id is removed. Other collections are unchanged. |
| Server.Store.GetProjectSummary | backend/server.py:340-351 | 404 "Project not found" iff no project has the id. Otherwise the result is the summary of the first such project, over its first 1000 entries and first 1000 phases. |
| Server.Store.GetDashboardData | backend/server.py:409-438 | 404 iff no project has the id, as the summary raises it. Otherwise the result is the dashboard of the first such project, over its first 1000 entries and phases. |
| Server.ProjectDeletionKeepsReferences | backend/server.py:196-207 | Removing a project that no entry and no phase references leaves every entry and every phase with an existing project. |
| Server.CategoryDeletionKeepsReferences | backend/server.py:263-272 | Removing a category that no entry uses leaves every entry with an existing category. |
| Server.RemovedIds | backend/server.py:207 | Removing the record at one position keeps every other id present. |
| Server.FirstIndex | backend/server.py:342 | The result is absent iff the id occurs nowhere. Otherwise it is the position of the id's first occurrence, which is the document `find_one` and `delete_one` select. |
| Server.ToList | backend/server.py:347 | The result is the first `limit` records, or all of them when there are fewer. |
| Server.RemoveAt | backend/server.py:333 | One record fewer, the others in order, and the multiset of records minus exactly the removed one. |
| Server.EntriesOfProject | backend/server.py:347 | Every entry returned belongs to the project. Each entry of the project is returned exactly as many times as it is stored, and no other entry is returned. |
| Server.EntriesOfProjectAppend | backend/server.py:347 | The query keeps store order: over two stretches of the store joined, it returns the first stretch's matches, then the second's. |
| Server.PhasesOfProject | backend/server.py:351 | Every phase returned belongs to the project. Each phase of the project is returned exactly as many times as it is stored, and no other phase is returned. |
| Server.PhasesOfProjectAppend | backend/server.py:351 | The phase query keeps store order in the same way. |
| Summaries.Summarize | backend/server.py:347-406 | The total spent is the sum of the entries' amounts, with an absent amount counting 0. Budget remaining is budget minus spent. Utilisation is spent against a positive budget in percent, else 0. There is one phase row per phase. The breakdown groups amounts by category name, with "Unknown" as the fallback. The daily trend groups by ISO day, in ascending key order. The status is classified from the utilisation. |
| Summaries.SummaryConserves | backend/server.py:348-386 | The category breakdown and the daily trend each add up to the total spent. Their keys are distinct. Budget remaining plus spent is the budget. |
| Summaries.TrendIsChronological | backend/server.py:380-386 | One trend point precedes another exactly when its day is earlier. |
| Summaries.TotalSpent | backend/server.py:348 | The total spent is never negative when no entry's amount is negative. |
| Summaries.TotalSpentAppend | backend/server.py:348 | The total over two lists of entries joined is the sum of their two totals. |
| Sums.SumAppend | backend/server.py:348 | The sum over two lists of amounts joined is the sum of their sums. |
| Summaries.Classify | backend/server.py:390-395 | On track iff utilisation ≤ 75; warning iff 75 < utilisation ≤ 90; over budget iff utilisation > 90. StatusOfSpending and ClassifyMonotone state what this means for spending. |
| Summaries.Percent | backend/server.py:389 | For a positive whole, the result times the whole is the part times 100. Otherwise the result is 0. |
| Summaries.StatusOfSpending | backend/server.py:389-395 | With a positive budget, the status is on track iff spent ≤ 3/4 of the budget, and over budget iff spent > 9/10 of it; warning lies between. With a budget that is not positive, the status is always on track. |
| Summaries.ClassifyMonotone | backend/server.py:390-395 | Higher utilisation never gives a milder status. |
| Summaries.PhaseSpent | backend/server.py:356-357 | A phase no entry is booked to has spent 0. A phase's spending plus the spending of all entries not booked to it equals the project's total. |
| Summaries.SummarizePhase | backend/server.py:355-368 | A phase row has the phase's id, name and status. Its budget is the allocation, or 0 when absent. It spends exactly the entries booked to the phase. Spent plus remaining equals the budget. Utilisation is in percent against a positive budget, else 0. |
| Summaries.SummarizePhases | backend/server.py:354-368 | One row per phase, in phase order. |
| Summaries.PhaseSpendingConserved | backend/server.py:355-357 | With distinct phase ids, the phases' spending plus the spending no phase accounts for equals the project's total spent. |
| Summaries.RecentEntries | backend/server.py:426-432 | The result holds min(n, 10) of the entries, newest first, drawn from the input. Every entry left out is no newer than any entry kept. Among entries created at the same time, the ones kept are those stored first, in stored order. |
| Summaries.SortNewestFirst | backend/server.py:428 | The result is a permutation of the entries with creation times non-increasing. The sort is stable: entries created at the same time keep their stored order. |
| Summaries.WithTimeAppend | backend/server.py:428 | Selecting the entries created at one time keeps their order: over two lists joined, the selection is the first list's selection, then the second's. |
| Summaries.StableInsert | backend/server.py:428 | Inserting an entry in front of every strictly older entry places it after all entries created at the same time. |
| Summaries.RecentPrefix | backend/server.py:428-432 | The first min(n, 10) entries of a stable newest-first sort meet every property stated for RecentEntries. |
| Summaries.TiesPrefix | backend/server.py:428-432 | For each creation time, a prefix of a stable sort keeps the entries stored first. |
| Summaries.NewestPrefix | backend/server.py:428 | A prefix of a newest-first list holds entries at least as new as every entry after it. |
| Summaries.Dashboard | backend/server.py:410-438 | The result is the summary, the monthly trend (amounts grouped by month key, ascending) and the recent entries, all over the same entries. |
| Summaries.MonthlyTrendConserves | backend/server.py:415-424 | The monthly trend adds up to the summary's total spent, with one point per month key. |
| Grouping.Accumulate | backend/server.py:370-374 | One bucket per key that occurs, keys distinct. Each bucket holds the sum of the amounts carrying its key. |
| Grouping.GroupingConserves | backend/server.py:370-374 | A grouping's buckets add up to the sum of all the amounts grouped. |
| Grouping.Trend | backend/server.py:376-386 | The result is a grouping of the keyed amounts, with keys strictly ascending in string order. |
| Grouping.SortByKey | backend/server.py:386 | The result is a permutation of the buckets, in strictly ascending key order. |
| Grouping.SortedGrouping | backend/server.py:386 | Reordering a grouping into ascending key order keeps it a grouping of the same amounts. |
| Grouping.AddToBucket | backend/server.py:374 | Adding an amount to the open bucket of its key keeps the buckets a grouping of the extended input. |
| Grouping.OpenBucket | backend/server.py:374 | Opening a bucket for a new key keeps the buckets a grouping of the extended input. |
| Sums.Partition | backend/server.py:348-357 | For distinct keys, the group sums plus what lies outside them add up to the whole sum. |
| Calendar.IsoDate | backend/server.py:384 | For a valid date, `str(date)` is ten characters: four year digits, `-`, two month digits, `-`, two day digits. IsoDateOrder states its order. |
| Calendar.MonthKey | backend/server.py:421 | For a valid date, the month key is year digits, `-` and two month digits. MonthKeyRoundTrip shows it identifies year and month. |
| Calendar.IsoDateOrder | backend/server.py:384-386 | For valid dates, ISO day text sorts as strings exactly in chronological order, and equal text means equal dates. |
| Calendar.MonthKeyChronological | backend/server.py:421-424 | For four-digit years, month keys sort as strings by year, then month. |
| Calendar.MonthKeyMisorders | backend/server.py:421-424 | The month key of January 1000 sorts before that of December 999, although it is later. |
| Calendar.MonthKeyRoundTrip | backend/server.py:421 | A month key parses back to exactly its year and month. |
| Text.Padded | backend/server.py:421 | The digits are at least as long as the width and at least one digit long. |
| Text.ValueOfPadded | backend/server.py:421 | Padded decimal text reads back as its number. |
| Text.PaddedUnpadded | backend/server.py:421 | A number with at least `width` digits is written the same padded or unpadded. |
| Text.PaddedCompare | backend/server.py:384-386 | Numbers below 10^width, padded to that width, compare as strings exactly as the numbers compare, and their texts are equal only for equal numbers. |
| Text.LexTransitive | backend/server.py:386 | Python's string order is transitive. |
| Text.LexTotal | backend/server.py:386 | Any two different strings are ordered one way. |

## Left out

- Storage and transport are not modelled: the MongoDB client, FastAPI routing, pydantic validation, CORS, logging and the `.env` setup. The collections are in-memory sequences. A query returns matches in store order, and `find_one` / `delete_one` act on the first match.
- Ids (`uuid4`), today's date and the current time are parameters of the handlers, not generated. The creation and update timestamps of projects, phases and categories are not modelled; only cost entries keep `created_at`, which the dashboard sorts by.
- The ISO date parsing of stored entry dates is not modelled: entry dates are already (year, month, day) triples. A stored entry without `entry_date` or `created_at` is not modelled; Python would group it under the key "None" or fail.
- Floating-point rounding is not modelled: amounts are exact reals.
- Removal of the MongoDB `_id` field from recent entries is not modelled; the model has no such field.
- The other routes are not part of this model: listing, fetching and updating projects and categories, updating phase status, listing a project's phases and entries, and initialising the default categories. The project status field is not modelled either.
- The dashboard fetches the entries twice. The model reads both from the same state; interleaved writes are not modelled.
- `delete_project` and `delete_cost_category` fetch at most one referencing record (`to_list(1)`). The model tests whether any exists, which gives the same answer.
- Grouping.Accumulate: does not state the order of the category breakdown's buckets, which is first appearance in the entries.
- Server.Store.CreateCostEntry: like the source, does not check that the project or the phase exists, so entries may reference missing ones.
