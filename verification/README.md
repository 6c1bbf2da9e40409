# HKRN table pages and start-up seeding, in Dafny

A model of the logic in the HKRN Flask application (`application/app.py`):

- the HTML table helper `render_table` and the page wrapper `render_page`;
- the five list resources, which project records to row dictionaries and
  render them;
- the start-up block that seeds each empty table with one sample record;
- the column defaults of the record classes.

The table is modelled in two layers:

- **Structured layer** (`Table`). A `TableView` holds a title, header labels,
  and either the body rows' cell texts or the placeholder with its column
  span. `Table.Layout` is what `render_table(title, columns, data)`
  describes.
- **Serialiser** (`Render`). It reproduces both templates character for
  character, including the indentation of the triple-quoted strings and the
  stylesheet.

A parser (`Parse`) is the serialiser's partner. Provided no shown text
contains `<`, parsing a rendered table gives back exactly the structured
table, and a string parses to a table exactly when it is that table's
serialisation. The same holds for pages.

Cell values follow Python's `str`:
- a key present with value `None` shows the word `None`;
- apart from an empty string, only a missing key gives an empty cell (`row.get(col, '')`);
- integers show as decimal numerals with a `-` sign when negative.

The store is five sequences of records (`Seeding.Store`). Seeding has three
steps:
- queue one sample insert per empty table. Each check counts its own
  table, and no earlier check queues a record for that table. So every
  count sees the table as it was at start-up, even if the session flushes
  the earlier inserts before counting;
- write the queue in one commit;
- take the ids the database assigns to the new records as inputs
  (`Seeding.SeedIds`).

Modules:
- `Wrappers`: `Option`;
- `Text`: prefixes, '<'-free text, decimal numerals;
- `Cells`: cell values and cell text;
- `Table`: the structured layer;
- `Render`: the serialiser and its laws;
- `Parse`: the parser and the round trips;
- `Entities`: the record types and defaults;
- `Resources`: the five list endpoints;
- `Routes`: registered paths and home links;
- `Seeding`: start-up;
- `SeededPages`: the pages right after start-up.

## Model

| member | source | states |
|---|---|---|
| Text.IntToStringRoundTrip | application/app.py:125 | An integer cell shows a numeral that reads back as the same integer, negative ones included. |
| Text.NatToStringRoundTrip | application/app.py:127 | The placeholder's column count is written as a decimal numeral that reads back as the count. |
| Cells.Show | application/app.py:125 | `str(v)`: a string shows itself, an integer shows a numeral that reads back as it, NULL shows the non-empty word "None"; only the empty string shows as empty. |
| Cells.CellText | application/app.py:125 | `row.get(col, '')`: a present key shows its value's text; the cell is empty exactly when the key is missing or holds the empty string. |
| Cells.NullIsNotBlank | application/app.py:125 | A key holding NULL shows "None", while the same row without the key shows an empty cell. |
| Table.Layout | application/app.py:121-135 | The header is the column list. There is one body row per data row, with one cell per column in column order. The placeholder spans every column and appears exactly when the data is empty. |
| Render.CellsHtmlIsJoin | application/app.py:122-125 | The header (and each row's cells) is the in-order concatenation of one `<th>x</th>` (`<td>x</td>`) per text. |
| Render.RowsHtmlIsRowsOf | application/app.py:123-126 | The accumulated rows string is the serialisation of the structured rows, and it is empty exactly when there is no data. |
| Render.RenderRows | application/app.py:123-126 | The row-accumulating loop yields the serialised structured rows; its result is empty exactly when the data is, so testing the string picks the placeholder exactly for empty data. |
| Render.RenderTable | application/app.py:121-140 | `render_table` output, for every title, column list and data, is the serialisation of the structured table `Layout` describes. |
| Render.TableHeading | application/app.py:129 | Whatever the columns and data, the output contains the title inside `<h1>`. |
| Render.TableBackLink | application/app.py:138-139 | Whatever the data, the output ends with the back link to `/` followed only by the template's closing indentation. |
| Render.RenderPage | application/app.py:142-195 | Whatever the content and title, the page contains the title inside `<title>` and the content, unchanged. |
| Parse.TableRoundTrip | application/app.py:121-140 | A structured table with no '<' in its texts serialises to a string that parses back to the same table. |
| Parse.TableSound | application/app.py:121-140 | Whatever string the table parser accepts is exactly the serialisation of the table it returns. |
| Parse.ParseTableExact | application/app.py:121-140 | A string parses to table `v` if and only if `v` has no '<' in its texts and the string is `v`'s serialisation. |
| Parse.RenderTableReadsBack | application/app.py:121-140 | With '<'-free title, labels and cell texts, `render_table` output reads back as the `Layout` table. The header is the labels and there is one row of per-column texts per data row, or the placeholder spanning every column. |
| Parse.PageRoundTrip | application/app.py:142-195 | A page with a '<'-free title parses back into that title and the exact content. |
| Parse.PageSound | application/app.py:142-195 | Whatever string the page parser accepts is exactly `render_page` of the content and title it returns. |
| Parse.ParsePageExact | application/app.py:142-195 | A string parses to (title, content) if and only if the title has no '<' and the string is `render_page(content, title)`. |
| Parse.MarkupInValueSplitsCell | application/app.py:125-126 | Values are not escaped. A one-column row whose value is `a</td><td>b` reads back as a row of two cells `a` and `b`. |
| Entities.StatusDefaults | application/app.py:91-116 | A job listing inserted without a status gets "Open"; an application inserted without one gets "Pending". |
| Resources.CandidateRow | application/app.py:203-208 | A candidate's row has exactly the endpoint's column labels as keys, so no cell falls back to ''. |
| Resources.Get | application/app.py:209-210 | An endpoint's page is `render_page` of the serialised `Layout` of its rows, under the endpoint's title. |
| Resources.CandidateCells | application/app.py:203-208 | For every candidate, its row shows its id, name, contact and skills in column order, with NULL as "None"; these texts are '<'-free when its text columns are. |
| Resources.CandidatesGet | application/app.py:200-211 | For every store content, GET /candidates is the page titled "Candidates" around the table with the four labels and one row of texts per candidate in store order, or the placeholder when there are none. |
| Resources.CandidatesPage | application/app.py:200-211 | GET /candidates is a page titled "Candidates" whose table has the four labels and one row per candidate in store order, or the placeholder when there are none. |
| Resources.JobListingRow | application/app.py:216-221 | A listing's row has exactly the endpoint's column labels as keys. |
| Resources.JobListingCells | application/app.py:216-221 | For every listing, its row shows id, company, salary and status in column order. |
| Resources.JobListingsGet | application/app.py:213-224 | For every store content, GET /job_listings is the page around the table of one row of texts per listing in store order, or the placeholder. |
| Resources.JobListingsPage | application/app.py:213-224 | GET /job_listings shows one row per listing in store order under "Job Listings", or the placeholder. |
| Resources.TrainingProgramRow | application/app.py:229-233 | A program's row has exactly the endpoint's column labels as keys. |
| Resources.TrainingProgramCells | application/app.py:229-233 | For every program, its row shows id, program name and institution in column order. |
| Resources.TrainingProgramsGet | application/app.py:226-236 | For every store content, GET /training_programs is the page around the table of one row of texts per program in store order, or the placeholder. |
| Resources.TrainingProgramsPage | application/app.py:226-236 | GET /training_programs shows one row per program in store order under "Training Programs", or the placeholder. |
| Resources.AssessmentTestRow | application/app.py:241-245 | A test's row has exactly the endpoint's column labels as keys. |
| Resources.AssessmentTestCells | application/app.py:241-245 | For every test, its row shows id, skill area and description in column order. |
| Resources.AssessmentTestsGet | application/app.py:238-248 | For every store content, GET /assessment_tests is the page around the table of one row of texts per test in store order, or the placeholder. |
| Resources.AssessmentTestsPage | application/app.py:238-248 | GET /assessment_tests shows one row per test in store order under "Assessment Tests", or the placeholder. |
| Resources.ApplicationRow | application/app.py:253-258 | An application's row has exactly the endpoint's column labels as keys. |
| Resources.ApplicationCells | application/app.py:253-258 | For every application, its row shows id, candidate id, job id and status in column order. |
| Resources.ApplicationsGet | application/app.py:250-261 | For every store content, GET /applications is the page around the table of one row of texts per application in store order, or the placeholder. |
| Resources.ApplicationsPage | application/app.py:250-261 | GET /applications shows one row per application in store order under "Applications", or the placeholder. |
| Resources.GetReadsBack | application/app.py:209-210 | Rendering rows with an endpoint's title and labels and wrapping them in a page under the same title reads back as that title and table. |
| Routes.Dispatch | application/app.py:266-270 | A path finds an endpoint exactly when one is registered for it, and the endpoint found is registered at that path. |
| Routes.PathsDistinct | application/app.py:266-270 | No two resources share a path. |
| Routes.HomeLinksMatchRegistered | application/app.py:69-73 | The home page links the five registered paths in registration order. Each link's text is the title of the page it leads to. |
| Seeding.PendingInserts | application/app.py:278-317 | Start-up queues one insert per empty table and none for any other, in table order. |
| Seeding.Startup | application/app.py:276-318 | After start-up each table that was empty holds exactly its sample, and every other table is unchanged. |
| Seeding.StartupTables | application/app.py:276-318 | Committing the queued inserts in one go, in queue order, seeds each empty table with its sample and leaves the others alone. |
| Seeding.StartupOnEmpty | application/app.py:276-318 | On an empty store, start-up leaves each table holding its sample alone. |
| Seeding.StartupFillsEveryTable | application/app.py:276-318 | After start-up no table is empty. |
| Seeding.StartupIdempotent | application/app.py:276-318 | A second start-up queues nothing and leaves the store as the first left it. |
| Seeding.SampleStatusesAreDefaults | application/app.py:287-317 | The sample listing's explicit "Open" and the sample application's explicit "Pending" equal the column defaults. |
| Seeding.SampleApplicationReferences | application/app.py:311-317 | When the application table starts empty, the seeded application names candidate 1 and job listing 1, whatever the other tables hold. |
| Seeding.FreshStartupResolves | application/app.py:276-318 | On an empty store where the first candidate and listing get id 1, every application's references resolve after start-up. |
| Seeding.DanglingCandidateReference | application/app.py:311-317 | Nothing checks the literal references: a store whose only candidate has id 7 ends up with an application naming missing candidate 1. |
| SeededPages.SeededCandidatesPage | application/app.py:278-286 | After start-up on an empty store, GET /candidates shows the sample candidate as its only row. |
| SeededPages.SeededJobListingsPage | application/app.py:287-295 | After start-up on an empty store, GET /job_listings shows the sample listing with status "Open" as its only row. |
| SeededPages.SeededApplicationsPage | application/app.py:311-317 | After start-up on an empty store, GET /applications shows the sample application pointing at candidate 1 and listing 1. |

## Left out

- Flask, Flask-RESTful and the `Response` wrapper, including the mimetype, `app.run` and request handling: HTTP plumbing. Routes are only a path-to-endpoint table.
- The home page's HTML and CSS, except its list of links. The page stylesheet is carried as text, but what it means as CSS is not modelled.
- SQLAlchemy mechanics are not modelled:
  - `create_all`;
  - the order `query.all()` returns, which the model takes as the store's sequence order;
  - the ids the database assigns, which are inputs;
  - autoflush, and a commit that fails.
- Foreign keys and column lengths (`String(100)` and the like): they are declared but checked neither by this code nor by the configured SQLite store, which leaves foreign keys off by default and ignores declared lengths. So the model does not check them either; `Seeding.DanglingCandidateReference` shows the consequence.
- Columns that no page shows (qualifications, experience, job description, required skills, description, skills covered, performance metrics): they are carried in the records and seeded, but not projected.
- HTML escaping: the code does none. The round trips are stated only for texts free of '<'. `Parse.MarkupInValueSplitsCell` shows what goes wrong otherwise.
- Resources.CandidatesPage: the read-back is stated only for records whose shown texts contain no '<', because unescaped markup changes how the page reads back. What the page is made of is stated for every record by `Resources.CandidatesGet`. The same holds for JobListingsPage, TrainingProgramsPage, AssessmentTestsPage, ApplicationsPage and GetReadsBack.
- Parse.RenderTableReadsBack: stated only for a '<'-free title, labels and cell texts, for the same reason.
- Seeding.FreshStartupResolves: requires the first candidate and the first listing to receive id 1, because id assignment belongs to the database.
- SeededPages.SeededCandidatesPage: stated for an empty store whose new record gets id 1, for the same reason. The same holds for SeededJobListingsPage and SeededApplicationsPage.
