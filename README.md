# Question-paper backend: the relational store, modelled in Dafny

The backend keeps an academic catalogue in fourteen tables:
- programs, branches and regulations;
- program–branch mappings;
- courses and branch–course mappings;
- faculties and faculty–course mappings;
- Bloom's levels, difficulty levels and units;
- course outcomes and questions;
- generated question papers (QPs).

Every HTTP handler except `login` (backend/app/routers/auth.py:16-26, which queries `Faculty` directly) and `read_root` (backend/app/main.py:15-17, a welcome message) calls a query function in `crud.py`. Those functions do the following:
- list a page of a table (`offset`/`limit`);
- fetch a row by id (`filter(id == …).first()`);
- create a row (`add`, `commit`);
- overwrite a row's fields (`setattr`);
- delete a row.

Branches are the exception. A branch has no program column, so `crud.py` keeps the branch's program as rows of the program–branch mapping table:
- `create_branch` adds one mapping.
- `update_branch` repoints the branch's first mapping, or adds one if there is none.
- `get_branch`/`get_branches` attach a derived `program_name` read through the first mapping.

The router for generated QPs wraps the store in error handling. It also looks up a single QP by scanning one fetched page.

The model is organised as follows:
- `tables.dfy` (`Tables`) holds a table as a sequence of rows in storage order plus the next id. It also holds the row operations the ORM performs: keyed fetch, page, insert, overwrite, remove, filter. Finally it holds the `unique=True` invariant and the lemmas that these operations keep it.
- `models.dfy` (`Models`) holds one column datatype per table of `models.py`. A nullable column is an `Option`; `status` is a field of every table that has one. It also holds the whole database `Db` and its invariant `DbValid`: every table has increasing ids below its counter, and the nine unique columns hold no value twice.
- `schemas.dfy` (`Schemas`) holds the request payloads.
- `branch_sync.dfy` (`BranchSync`) holds the branch↔program synchroniser as pure functions:
  - the first-match lookup `FirstMapping`;
  - `ProgramNameOf`;
  - the enrichment `Enrich`;
  - the upsert `Upsert`;
  - `MappingCount`;
  - the lemmas relating them.
- `crud.dfy` (`Crud`) holds the persisted database as a class `Store` with one field per table; each request's short-lived session over it is not modelled separately. There is one method per query function. Each method states its whole new state as a function of the old one (`State() == old(State()).(table := …)`) and keeps `Valid()`.
- `generated_qps.dfy` (`GeneratedQps`) holds the three handlers of `routers/generated_qps.py`. A store exception is an input `fault`.
- `scenarios.dfy` (`Scenarios`) walks the branch example through a concrete store and proves each response: create B.Tech and M.Tech, create branch CSE under B.Tech, repoint it to M.Tech, read it back.

Some facts about `models.py` are carried by the types themselves:
- `BranchCols` has no program field.
- `FacultyCols.branchId` and `QuestionCols.image` are the only `Option` columns.
- `GeneratedQpCols` has no `status`.
- Every create method sets `status` to `true`.

## Model

| member | source | states |
|---|---|---|
| Tables.EmptyTable | backend/app/models.py:8 | a new table is empty, well formed, and its next id is 1 |
| Tables.IndexOf | backend/app/crud.py:20 | the position of the first row with the id; `None` exactly when no row has it |
| Tables.Find | backend/app/crud.py:9-10 | `filter(id == …).first()`: `None` exactly when no row has the id; otherwise a stored row with that id, and under increasing ids the only one |
| Tables.Page | backend/app/crud.py:6-7 | `offset(skip).limit(limit)`: at most `limit` rows; exactly `min(limit, n - skip)` rows when `skip < n`, none otherwise; row k of the page is stored row `skip + k` |
| Tables.PagesAdjoin | backend/app/crud.py:6-7 | two consecutive pages of sizes a and b together are the page of size a + b |
| Tables.Insert | backend/app/crud.py:12-17 | `add` + `commit`: existing rows unchanged; one row appended carrying the fresh id; the counter advances; a well-formed table stays well formed and never held that id |
| Tables.SetCols | backend/app/crud.py:19-27 | `setattr` + `commit` on one row: same length and counter, that row keeps its id and takes the new columns, every other row unchanged, well-formedness kept |
| Tables.RemoveAt | backend/app/crud.py:29-34 | `delete` + `commit`: the rows before and after are kept in order, the counter is unchanged, and the removed id is gone |
| Tables.Filter | backend/app/crud.py:281-282 | `filter(col == …).all()`: exactly the stored rows satisfying the predicate (both directions), no more than the table holds, in increasing id order |
| Tables.InsertKeepsUnique | backend/app/models.py:9 | appending a row whose key no existing row holds keeps a unique column unique |
| Tables.SetColsKeepsUnique | backend/app/models.py:17 | overwriting a row with a key held by no other row keeps a unique column unique |
| Tables.RemoveKeepsUnique | backend/app/models.py:24 | deleting a row keeps a unique column unique |
| Models.EmptyDb | backend/app/models.py:5-171 | the empty database satisfies every key and uniqueness invariant |
| Models.MappingRowsUnconstrained | backend/app/models.py:28-33 | any mapping row may be added to a valid database: no uniqueness on `branch_id` or `(program_id, branch_id)`, so several mappings per branch are a valid state |
| BranchSync.FirstMapping | backend/app/crud.py:41 | the index of the first mapping whose `branch_id` matches; `None` exactly when the branch has no mapping |
| BranchSync.FirstMappingUnique | backend/app/crud.py:92 | there is at most one first mapping for a branch |
| BranchSync.ProgramNameOf | backend/app/crud.py:72-73 | `program.name if program else None`: `None` exactly when no program has the id; otherwise the name of a program with that id |
| BranchSync.Enrich | backend/app/crud.py:49-53 | the branch is returned unchanged; `program_name` is unset exactly when no mapping exists, and otherwise is the name looked up through the first mapping (`None` when that program is gone) |
| BranchSync.Upsert | backend/app/crud.py:91-99 | the mapping half of `update_branch` keeps the table well formed, and afterwards the branch's first mapping exists and carries the new program |
| BranchSync.UpsertRepointsFirst | backend/app/crud.py:93-95 | when a mapping exists, the first one is repointed in place: same rows, same counter, only its `program_id` changes |
| BranchSync.UpsertAppendsWhenUnmapped | backend/app/crud.py:96-99 | when no mapping exists, exactly one `(program_id, branch_id, status true)` mapping is appended with a fresh id |
| BranchSync.MappingCount | backend/app/models.py:28-33 | the number of mappings of a branch is at most the table size and is zero exactly when the branch is unmapped |
| BranchSync.MappingCountAppend | backend/app/crud.py:147-152 | appending a mapping raises the count of its own branch by one and no other |
| BranchSync.MappingCountUpdate | backend/app/crud.py:94 | repointing a mapping without changing its `branch_id` keeps every count |
| BranchSync.UpsertMappingCount | backend/app/crud.py:91-99 | the upsert makes the branch's count 1 when it was 0 and leaves it unchanged otherwise; every other branch's count is unchanged |
| BranchSync.EnrichAfterUpsert | backend/app/crud.py:101-103 | after the upsert, reading the branch gives the new program's name, the same name `update_branch` returns |
| BranchSync.EnrichAfterCreate | backend/app/crud.py:67-73 | provided no mapping already names the new branch id, reading the branch after `create_branch` gives the name `create_branch` returned |
| BranchSync.EnrichAfterCreateStale | backend/app/crud.py:50 | when a mapping already names the new branch id, that older mapping comes first, and the read reports its program rather than the one `create_branch` returned |
| BranchSync.EnrichAfterCreateIssued | backend/app/crud.py:56-75 | when every mapping names a branch id below the new one, the proviso holds and the read agrees with `create_branch` |
| BranchSync.EnrichIgnoresOtherBranches | backend/app/crud.py:41 | a mapping of another branch does not change a branch's enrichment |
| Crud.PatchProgram | backend/app/crud.py:22-24 | `exclude_unset`: an absent name leaves the row as it was; a supplied one replaces the name; status is kept |
| Crud.StampCreatedAt | backend/app/crud.py:309-310 | `created_at` is the current time exactly when the payload's value is missing or empty, and the supplied value otherwise |
| Crud.OutcomesOfCourse | backend/app/crud.py:281-282 | exactly the course outcomes of the course, in storage order |
| Crud.QuestionsOfCourse | backend/app/crud.py:293 | exactly the questions of the course, in storage order |
| Crud.Store.constructor | backend/app/main.py:6 | `create_all` on an empty engine: every table of backend/app/models.py exists and is empty, and the database is valid |
| Crud.Store.GetPrograms | backend/app/crud.py:6-7 | the page of programs; no write |
| Crud.Store.GetProgram | backend/app/crud.py:9-10 | the program with the id, or `None`; no write |
| Crud.Store.CreateProgram | backend/app/crud.py:12-17 | a name already used is refused with no change; otherwise one row with a fresh id is appended, the payload plus status true is returned, and no other table changes |
| Crud.Store.UpdateProgram | backend/app/crud.py:19-27 | absent id: `None`, no write; otherwise only the supplied fields are written, with id and status kept; a name clash is refused with no change; every other row and table is unchanged |
| Crud.Store.DeleteProgram | backend/app/crud.py:29-34 | absent id: `None`, no write; otherwise exactly that row is removed and returned |
| Crud.Store.GetBranches | backend/app/crud.py:37-45 | one enriched view per branch of the page, in order, each equal to `Enrich` of that branch; no write |
| Crud.Store.GetBranch | backend/app/crud.py:47-54 | `None` exactly when no branch has the id; otherwise the enriched branch; no write |
| Crud.Store.CreateBranch | backend/app/crud.py:56-75 | a code already used is refused with no change; otherwise one branch (name, code, status true) and exactly one mapping `(program_id, new id)` are appended, and the returned `program_name` is the name of that program or `None` |
| Crud.Store.UpdateBranch | backend/app/crud.py:77-104 | absent id: `None`, no write; a code clash is refused with no change; otherwise name and code are overwritten, the mapping table becomes `Upsert` of the old one, and the new program's name is returned |
| Crud.Store.DeleteBranch | backend/app/crud.py:106-111 | removes exactly the branch row and leaves every mapping row untouched |
| Crud.Store.GetRegulations | backend/app/crud.py:114-115 | the page of regulations; no write |
| Crud.Store.GetRegulation | backend/app/crud.py:117-118 | the regulation with the id, or `None` |
| Crud.Store.CreateRegulation | backend/app/crud.py:120-125 | a name already used is refused; otherwise one fresh row is appended and returned |
| Crud.Store.UpdateRegulation | backend/app/crud.py:127-134 | absent id: `None`, no write; otherwise every payload field is overwritten, with id and status kept; a name clash is refused |
| Crud.Store.DeleteRegulation | backend/app/crud.py:136-141 | absent id: `None`, no write; otherwise exactly that row is removed and returned |
| Crud.Store.GetProgramBranchMappings | backend/app/crud.py:144-145 | the page of mappings; no write |
| Crud.Store.CreateProgramBranchMapping | backend/app/crud.py:147-152 | appends one mapping with a fresh id and status true; it never fails |
| Crud.Store.GetCourses | backend/app/crud.py:166-167 | the page of courses |
| Crud.Store.GetCourse | backend/app/crud.py:169-170 | the course with the id, or `None` |
| Crud.Store.CreateCourse | backend/app/crud.py:172-177 | a code already used is refused; otherwise the payload is appended under a fresh id |
| Crud.Store.UpdateCourse | backend/app/crud.py:179-186 | absent id: `None`; otherwise every field is overwritten, with id and status kept; a code clash is refused |
| Crud.Store.DeleteCourse | backend/app/crud.py:188-193 | absent id: `None`; otherwise exactly that row is removed and returned |
| Crud.Store.GetBranchCourseMappings | backend/app/crud.py:196-197 | the page of branch–course mappings |
| Crud.Store.CreateBranchCourseMapping | backend/app/crud.py:199-204 | appends one row with a fresh id |
| Crud.Store.GetFaculties | backend/app/crud.py:207-208 | the page of faculties |
| Crud.Store.GetFaculty | backend/app/crud.py:210-211 | the faculty with the id, or `None` |
| Crud.Store.CreateFaculty | backend/app/crud.py:213-218 | a used `empid` or a used `email` is refused with no change; otherwise one row is appended |
| Crud.Store.UpdateFaculty | backend/app/crud.py:220-227 | absent id: `None`; otherwise every field is overwritten, with id and status kept; an `empid` or `email` clash is refused |
| Crud.Store.DeleteFaculty | backend/app/crud.py:229-234 | absent id: `None`; otherwise exactly that row is removed and returned |
| Crud.Store.GetFacultyCourseMappings | backend/app/crud.py:237-238 | the page of faculty–course mappings |
| Crud.Store.CreateFacultyCourseMapping | backend/app/crud.py:240-245 | appends one row with a fresh id |
| Crud.Store.GetBloomsLevels | backend/app/crud.py:248-249 | the page of Bloom's levels |
| Crud.Store.CreateBloomsLevel | backend/app/crud.py:251-256 | a name already used is refused; otherwise one fresh row is appended |
| Crud.Store.GetDifficultyLevels | backend/app/crud.py:259-260 | the page of difficulty levels |
| Crud.Store.CreateDifficultyLevel | backend/app/crud.py:262-267 | a name already used is refused; otherwise one fresh row is appended |
| Crud.Store.GetUnits | backend/app/crud.py:270-271 | the page of units |
| Crud.Store.CreateUnit | backend/app/crud.py:273-278 | a name already used is refused; otherwise one fresh row is appended |
| Crud.Store.GetCourseOutcomes | backend/app/crud.py:281-282 | all outcomes of the course, unpaged |
| Crud.Store.CreateCourseOutcome | backend/app/crud.py:284-289 | appends one row with a fresh id |
| Crud.Store.GetQuestions | backend/app/crud.py:292-293 | the questions of the course are filtered first and then paged |
| Crud.Store.CreateQuestion | backend/app/crud.py:295-300 | appends one row with a fresh id |
| Crud.Store.GetGeneratedQps | backend/app/crud.py:303-304 | the page of generated QPs |
| Crud.Store.CreateGeneratedQp | backend/app/crud.py:306-315 | appends one row with a fresh id whose `created_at` is stamped by `StampCreatedAt` with the supplied clock reading |
| GeneratedQps.CreateGeneratedQp | backend/app/routers/generated_qps.py:16-21 | a store failure is a 500 carrying its message, with no change; otherwise the created row with a fresh id and the stamped `created_at` |
| GeneratedQps.ListGeneratedQps | backend/app/routers/generated_qps.py:24-29 | a store failure is a 500; otherwise exactly the store's page for the given `skip` and `limit` |
| GeneratedQps.GetGeneratedQp | backend/app/routers/generated_qps.py:32-44 | a store failure is a 500; otherwise the first record with the id among the first 100 rows, or a 404 "Generated QP not found" that is not turned into a 500; a returned record has the id and is one of the first 100 rows |
| GeneratedQps.ScanMissesRowsPastLimit | backend/app/routers/generated_qps.py:35-40 | a QP stored at position 100 or later is in the store yet never found by the scan |
| GeneratedQps.ScanAgreesWithinLimit | backend/app/routers/generated_qps.py:35-40 | with at most 100 rows stored, the scan finds exactly what a keyed lookup finds |
| GeneratedQps.GetGeneratedQpByKey | backend/app/routers/generated_qps.py:32-44 | corrected lookup: success exactly when the store holds the id, a 404 otherwise, a 500 on store failure; a returned record has the id |

## Left out

- Row ids: the model draws ids from a per-table counter that never reuses a value, and a refused insert leaves the counter unchanged. The database engine is not named by the files modelled (`database.py` is not part of this model). An engine whose integer primary key can reuse the largest id after it is deleted, as SQLite does without `AUTOINCREMENT`, is not modelled; nor is an engine that draws ids from a sequence, where a failed insert uses up an id so the next row's id is not the old counter.
- Negative `skip`/`limit`: these are `nat` here. The ORM's handling of negative values is not modelled.
- Foreign keys: `ForeignKey` columns are plain integers and are not checked. Whether they are enforced depends on the engine and its settings, which are outside the files modelled. So a branch may be deleted while its mappings remain, which is exactly what `DeleteBranch` states, and a mapping may name a branch id not yet issued.
- Sessions: `commit`, `refresh`, sessions and transactions are not modelled; each store call is atomic. `create_branch` and `update_branch` commit twice. A failure between the two commits is not modelled. In `create_branch`, such a failure leaves the new branch without its mapping. In `update_branch`, a failure after the first commit (backend/app/crud.py:88) and before the mapping is committed (backend/app/crud.py:95 or 99) leaves the new name and code with the old mapping.
- Concurrency between requests is not modelled.
- Column lengths (`String(100)` and the like) are not modelled. Whether they are enforced depends on the engine. This hides one consequence: `created_at` is `String(20)` (backend/app/models.py:167), but `datetime.utcnow().isoformat()` is 26 characters long (19 when the microseconds are 0). On an engine that enforces VARCHAR lengths, every `create_generated_qp` that stamps the time fails.
- Floats: `credits` and `marks` are carried as a `real` on which no arithmetic is done. No floating-point behaviour is modelled.
- Clock: `datetime.utcnow().isoformat()` is the `now` parameter.
- Store exceptions: these are the `fault` input of the router.
- Other routers are not part of this model. The five entity routers `routers/programs.py`, `branches.py`, `courses.py`, `faculties.py` and `regulations.py` map `None` to 404 and return a delete confirmation; `auth.py` authenticates. Of `main.py`, only `create_all` (backend/app/main.py:6) is modelled, as the `Store` constructor; mounting the routers and the welcome message at `/` are not. `populate.py` is a seeding script doing I/O.
- Crud.Store.UpdateProgram, UpdateRegulation, UpdateCourse, UpdateFaculty, UpdateBranch: the `setattr` loop is modelled as one record update. The order in which fields are assigned is not observable.
- Order: the model takes `.first()` (backend/app/crud.py:41, 50, 92) and `offset`/`limit` (backend/app/crud.py:7) in storage order, i.e. insertion order. SQL guarantees no order without `ORDER BY`, so the model fixes an order the database does not promise.
- BranchSync.EnrichAfterCreate: holds only when no mapping already names the new branch id. `DbValid` does not guarantee this, because mappings have no foreign-key check. For example, create programs A and B, create a mapping (program 1, branch 1), then create branch 1 with program 2: `create_branch` answers "B", but a later `get_branch(1)` answers "A". `EnrichAfterCreateStale` states this case. The same arises in the source when an engine reuses a deleted branch's id, since `delete_branch` (backend/app/crud.py:106-111) leaves that branch's mappings behind. `EnrichAfterCreateIssued` gives a sufficient condition.
- Crud.Store.CreateFaculty, Crud.Store.UpdateFaculty: when both `empid` and `email` clash, the model reports `empid`. Which column the database names first is not modelled.
- Crud.Store.GetBranches, GetBranch, CreateBranch, UpdateBranch: these return the enriched view. The HTTP response model `schemas.Branch` declares no `program_name`, so the field is dropped on the way out. That serialisation step is not modelled.
- GeneratedQps.CreateGeneratedQp, ListGeneratedQps, GetGeneratedQp: `Success` carries the stored row. All three handlers declare `response_model=schemas.GeneratedQP` (backend/app/routers/generated_qps.py:16, 24, 32), which has no `created_at` (backend/app/schemas.py:221-239), so no HTTP body carries the stamp. That serialisation step is not modelled.
- Unique columns: values are compared character by character (`Tables.Unique`, `Tables.KeyUsed`). An engine whose collation folds case, accents or trailing spaces refuses more creates and updates than the model does; for example the model accepts `b.tech` after `B.Tech`.
- Models.MappingRowsUnconstrained: the lemma states that adding any mapping row keeps the database valid. It does not exhibit a concrete state with two mappings per branch.

Where the code and its payload declarations disagree, the model follows the code:
- `schemas.BranchCreate` has no `program_id` (backend/app/schemas.py:23-24), but `crud.py:58-60` reads and removes one. `BranchCreate` here carries `programId`.
- `schemas.ProgramUpdate` (used at crud.py:19) is not declared. Following `exclude_unset`, it is modelled as an optional name. The only caller, backend/app/routers/programs.py:31-33, passes a `schemas.ProgramCreate`, so at run time the name is always supplied. Also, crud.py has no `from __future__ import annotations`, so on Python before 3.14 the annotation is evaluated when `update_program` is defined, and importing crud.py raises `AttributeError`.
- `GeneratedQPCreate` declares no `created_at` (backend/app/schemas.py:221-233), so that payload would always be stamped. The model gives the payload an optional `createdAt` so that both branches of crud.py:309 are covered.
- `get_program_branch_mappings` and `create_program_branch_mapping` are each defined twice with identical bodies (crud.py:144-152 and 155-163). The later definition wins in Python, and each is modelled once.

## Findings

| source | as written | input that shows it | evidently intended | confidence | as-written member | corrected member |
|---|---|---|---|---|---|---|
| backend/app/routers/generated_qps.py:35-40 | the single-QP lookup fetches only `skip=0, limit=100` and scans that page | store 101 generated QPs, then call `get_generated_qp` with the id of the 101st: the answer is 404 although the paper is stored. backend/app/main.py:10-13 does not mount this router, so over HTTP the handler is reached only once it is mounted | the paper with the id is returned whenever the store holds it | not executed | GeneratedQps.ScanMissesRowsPastLimit | GeneratedQps.GetGeneratedQpByKey |
