# Ai-consular core, modelled in Dafny

Ai-consular is a career-guidance platform for engineering students. Its
FastAPI back end keeps users, tasks, activities, courses and GATE progress
in a document store. It answers a branch-selection quiz, ranks courses,
analyses skill gaps against a catalogue of career domains, and tracks study
tasks that an AI assistant helps with. A static landing page has its own
client-side quiz. The React front end keeps the session token in the
browser.

This project models the logic of that system and proves what it does:

- **The document-store adapter** (`adapter_query.dfy`, `adapter_update.dfy`,
  `adapter.dfy`). The adapter makes a PostgreSQL table
  `(id TEXT PRIMARY KEY, doc JSONB)` behave like a pymongo collection. The
  model covers:
  - filter translation into SQL text plus a parameter list, with the
    meaning of each generated condition on a row;
  - a chainable cursor (`sort`, `limit`, execution);
  - upserting inserts that assign ids;
  - the in-process update engine (`$set`, `$inc`, `$push`, `$addToSet`,
    then the `updated_at` stamp, then the write-back);
  - counting and deletes.

  The table is the map `rows` from id to document in a `Collection` class.
- **Shared pieces.**
  - `json.dfy`: JSON values, with Python's `==`, Python's `str()` and
    PostgreSQL's `->>` text.
  - `text.dfy`: Python `int()`/`str()` on integers, ASCII lower-casing,
    substring search and hex ids.
  - `sorting.dfy`: a stable sort, as Python's `list.sort` and JavaScript's
    `Array.prototype.sort` provide.
- **The route handlers.** Collections are given sequences or maps, and an
  HTTP error is `Err(status)`.
  - `career_domains.dfy`: catalogue lookup and search.
  - `career.py` routes (`career.dfy`): the domain listing and the category
    summary; the skill-gap partition; the roadmap duration sum; the entry
    requirements.
  - `quiz.py` (`quiz.dfy`): the branch-quiz tally and its argmax.
  - `gate.py` (`gate.dfy`): subjects, answer grading, the mock-question
    listing and lookup, progress aggregation, and the resource and
    year-analysis lookups.
  - `courses.py` (`courses.dfy`): relevance ranking, the mock courses, the
    enrolled-course id split, and enrolment.
  - `tasks.py` (`tasks.dfy`): the study-task life cycle. A `TaskStore` class holds
    the `tasks` and `activities` collections.
  - `stats.py` (`stats.dfy`): the readiness rule and the student and admin
    counters.
- **Client-side logic.**
  - `script.js` (`quiz_script.dfy`): the landing page quiz, with a
    `QuizSession` class holding `currentQuestion` and `answers`.
  - `frontend/src/utils/auth.js` (`auth.dfy`): JWT payload decoding and the
    expiry check, with a `Browser` class holding `localStorage`.

The random id from `secrets.token_hex(12)`, the clock, the AI service, and
the browser's decoders (`atob`, `JSON.parse`, `JSON.stringify`) are
parameters.

## Model

| member | source | states |
|---|---|---|
| AdapterQuery.ConditionsShape | backend/app/postgres_adapter.py:143-172 | A filter yields one condition per key, in key order. Only `find` can raise, through a `$in` operand that cannot be iterated. An empty filter yields no WHERE at all. |
| AdapterQuery.WherePlaceholders | backend/app/postgres_adapter.py:150-172 | For any filter, the AND-joined WHERE text has exactly as many `%s` placeholders as the parameter list has entries. |
| AdapterQuery.CondPlaceholders | backend/app/postgres_adapter.py:150-170 | Every generated condition (`id = %s`, `doc->>%s = %s`, `doc->>%s != %s`, `IN (%s,...)`) has one placeholder per parameter it binds. |
| AdapterQuery.FindWhere | backend/app/postgres_adapter.py:148-172 | The `find` loop builds exactly the condition texts and parameters of the translation. When a key raises, the whole call raises that fault. |
| AdapterQuery.SimpleWhere | backend/app/postgres_adapter.py:122-131 | The loops of `find_one` (lines 122-131), `count_documents` (228-233) and `delete_many` (244-253) never raise. Each builds the texts and parameters of its own translation: `_id` maps to the id column only in `find_one`, and `$ne` is understood only in `delete_many`. |
| AdapterQuery.ConditionsFault | backend/app/postgres_adapter.py:150-170 | If a key raises after the earlier keys translated, the whole translation raises the same fault. |
| AdapterQuery.FirstFaultWins | backend/app/postgres_adapter.py:150-170 | Once a prefix of the filter raises, the whole filter raises the same fault: keys after the failing one cannot change the outcome. |
| AdapterQuery.NeExcludesMissing | backend/app/postgres_adapter.py:154-156 | `{k: {"$ne": x}}` becomes `doc->>k != str(x)`. It keeps exactly the rows where `k` is present, not null, and spelled differently from `str(x)`. |
| AdapterQuery.FindIdAlwaysEquality | backend/app/postgres_adapter.py:151-153 | In `find`, any `_id` value becomes `id = str(value)`, operator dicts included. The text of a `$in` dict starts with `{`. |
| AdapterQuery.IdInMatchesNoHexId | backend/app/postgres_adapter.py:157-162 | As written, `find({"_id": {"$in": ids}})` matches no row whose id starts with a hex digit, whatever ids are listed. |
| AdapterQuery.FindCondIntended | backend/app/postgres_adapter.py:159-162 | The corrected translation turns `_id` with a `$in` list into `id IN (...)` over the ids' texts. Every other key translates as before. |
| AdapterQuery.IdInIntended | backend/app/postgres_adapter.py:159-162 | With the corrected translation, `{"_id": {"$in": ids}}` keeps exactly the rows whose id is listed. |
| Json.FieldText | backend/app/postgres_adapter.py:129 | `doc->>k` is SQL NULL exactly when `k` is absent or JSON null. |
| Json.IntFilterMatches | backend/app/postgres_adapter.py:129-130 | An equality filter on integer `n` matches exactly the fields that hold `n` or the string that spells `n`. |
| Json.BoolFilterMatchesOnlyString | backend/app/postgres_adapter.py:129-130 | An equality filter on a boolean never matches a boolean field, because Python spells `True` and JSONB spells `true`. Only the string field `"True"` (or `"False"`) matches. |
| Json.StrFieldMatches | backend/app/postgres_adapter.py:129-130 | A string field matches an equality filter exactly when the filter value's `str()` equals the string. |
| AdapterUpdate.PyAdd | backend/app/postgres_adapter.py:187 | Python `+` on field values succeeds exactly for number/bool pairs, string pairs and list pairs. Anything else raises `TypeError`. |
| AdapterUpdate.IncLoop | backend/app/postgres_adapter.py:185-188 | The `$inc` loop sets each key to `doc.get(k, 0) + v`. It raises `TypeError` where the addition raises. |
| AdapterUpdate.PushLoop | backend/app/postgres_adapter.py:189-194 | The `$push` loop resets a missing or non-list field to `[]`, then appends the operand. |
| AdapterUpdate.AddEach | backend/app/postgres_adapter.py:199-202 | The `$each` loop appends each item, in order, unless an equal item is already in the list. |
| AdapterUpdate.AddToSetLoop | backend/app/postgres_adapter.py:195-206 | The `$addToSet` loop handles both the `$each` form and the bare form, after resetting a missing or non-list field to `[]`. |
| AdapterUpdate.ApplyUpdateInPlace | backend/app/postgres_adapter.py:181-209 | The operators run in the fixed order `$set`, `$inc`, `$push`, `$addToSet`. `$set` is `dict.update`, so a list or string operand is read as pairs. The modified flag is set exactly when a recognised operator is present. |
| AdapterUpdate.UpdatePairsOk | backend/app/postgres_adapter.py:182-184 | `$set` with a list or string succeeds exactly when every element is a two-item iterable with a hashable key. Otherwise it raises `TypeError` or `ValueError`. |
| AdapterUpdate.UpdatePairsLastWins | backend/app/postgres_adapter.py:182-184 | When several pairs name one field, the last of them decides its value. |
| AdapterUpdate.UpdatePairsKeeps | backend/app/postgres_adapter.py:182-184 | A field that no pair names keeps its value. |
| AdapterUpdate.UpdatePairsFields | backend/app/postgres_adapter.py:182-184 | Every field after the update was in the document already or is named by a pair. |
| AdapterUpdate.SetOperandCases | backend/app/postgres_adapter.py:182-184 | An empty list or string changes nothing, and a non-empty string raises `ValueError`. A list of two-item lists sets those fields, and a number, bool or `None` raises `TypeError`. |
| AdapterUpdate.EmptySetOperandStamps | backend/app/postgres_adapter.py:181-209 | `{"$set": []}` and `{"$set": ""}` still count as a modification. The document gains only the `updated_at` stamp. |
| AdapterUpdate.UnionIntoExtends | backend/app/postgres_adapter.py:195-205 | `$addToSet` keeps the existing list as a prefix, in order. Every element it appends comes from the operand and had no equal in the list. |
| AdapterUpdate.UnionIntoCovers | backend/app/postgres_adapter.py:199-205 | After `$addToSet`, every operand element and every old element is present, up to Python `==`. |
| AdapterUpdate.UnionIntoNoop | backend/app/postgres_adapter.py:199-205 | When every operand element is already present, `$addToSet` leaves the list unchanged. |
| AdapterUpdate.UnionIntoIdempotent | backend/app/postgres_adapter.py:195-205 | Applying the same `$addToSet` twice changes nothing the second time. |
| AdapterUpdate.AddToSetEachExample | backend/app/postgres_adapter.py:199-202 | `{"$each": [a, b, a]}` applied to `[a]` gives `[a, b]` when `a != b`. |
| AdapterUpdate.UpdateStamp | backend/app/postgres_adapter.py:208-209 | With a recognised operator, `updated_at` ends up as the clock value, even when `$set` wrote it. With only unknown operators, the document is unchanged. |
| AdapterUpdate.IncAndPushOrder | backend/app/postgres_adapter.py:182-194 | `$inc` on a missing field starts from 0. `$push` runs after `$set` and replaces the integer that `$set` wrote with a one-element list. |
| Adapter.AssignedIdFacts | backend/app/postgres_adapter.py:71-78 | A document without `_id` gets the 24-hex-digit token; a string `_id` is kept. The caller's dict gains the id and is otherwise unchanged. Re-inserting it keeps the same id, so it upserts the same row. |
| Adapter.UpsertAllResult | backend/app/postgres_adapter.py:93-110 | After `insert_many`, the rows are exactly the old ids plus the inserted ids. An inserted id holds the last document inserted under it, and every other row is unchanged. |
| Adapter.UpdateRow | backend/app/postgres_adapter.py:181-221 | Once a row is fetched, `update_one` applies the operators, stamps `updated_at`, writes back and reports its count, as the update-outcome function says. |
| Adapter.UpdateOutcomeFacts | backend/app/postgres_adapter.py:208-221 | `modified_count` is 1 exactly when a recognised operator was present and nothing raised, and 0 exactly when none was. A failure leaves the table unchanged. Only the row named by the updated `_id` can change, and it keeps its own id. |
| Adapter.SetIdRedirectsWrite | backend/app/postgres_adapter.py:210-215 | The write-back uses the post-update `doc["_id"]`. So a `$set` of `_id` to another existing id overwrites that other row and leaves the fetched row as it was. |
| Adapter.KeyLeTotalPreorder | backend/app/postgres_adapter.py:19 | Ordering by `doc->>'k'` is total and transitive, with NULL after every text. |
| Adapter.OrderTotalPreorder | backend/app/postgres_adapter.py:16-19 | The ascending and descending row orders are total preorders. |
| Adapter.Select | backend/app/postgres_adapter.py:33-41 | A SELECT returns each selected row once and returns nothing else. |
| Adapter.SortFacts | backend/app/postgres_adapter.py:28-29 | ORDER BY keeps the rows: the same documents, as many, distinct if they were distinct. |
| Adapter.ArrangeFacts | backend/app/postgres_adapter.py:26-31 | After ORDER BY and LIMIT: every row is a selected row, and there are as many rows as a positive limit allows. Rows are ordered when a sort is set, and every row the limit cut off sorts at or after every row kept. |
| Adapter.Collection.constructor | backend/app/postgres_adapter.py:51-60 | `CREATE TABLE IF NOT EXISTS`: an existing table keeps its rows. |
| Adapter.Collection.InsertOne | backend/app/postgres_adapter.py:71-91 | `insert_one` returns the assigned id and the caller's dict with the id written in. It upserts that row, and no other row changes. |
| Adapter.Collection.InsertMany | backend/app/postgres_adapter.py:93-115 | `insert_many` returns the ids in input order and upserts each document in turn. |
| Adapter.Collection.FindOne | backend/app/postgres_adapter.py:117-141 | `find_one` returns None exactly when no row matches, and otherwise some matching row. |
| Adapter.Collection.Find | backend/app/postgres_adapter.py:143-174 | `find` builds a fresh cursor over `SELECT doc FROM name` plus the WHERE text and parameters of the translation, with no sort and no limit. It raises exactly when the translation raises. |
| Adapter.Collection.UpdateOne | backend/app/postgres_adapter.py:176-221 | `update_one` returns None and changes nothing when no row matches. Otherwise it gives the update outcome for one matching row. |
| Adapter.Collection.CountDocuments | backend/app/postgres_adapter.py:223-237 | `count_documents` returns the number of rows that satisfy its equality conditions. |
| Adapter.Collection.DeleteMany | backend/app/postgres_adapter.py:239-257 | `delete_many` removes exactly the rows that match and keeps the others unchanged. |
| Adapter.Collection.DeleteOne | backend/app/postgres_adapter.py:259-269 | As written, `delete_one` removes one matching row and reports 1. With no match it raises `NameError` and changes nothing. |
| Adapter.Collection.DeleteOneIntended | backend/app/postgres_adapter.py:259-268 | The corrected `delete_one` reports 0 and changes nothing when no row matches. Otherwise it removes one matching row and reports 1. |
| Adapter.Cursor.constructor | backend/app/postgres_adapter.py:9-14 | A new cursor has its query and parameters, no sort and no limit. |
| Adapter.Cursor.Sort | backend/app/postgres_adapter.py:16-20 | `sort` replaces any earlier sort (the last call wins), with ascending order exactly when the direction `== 1`. It keeps the limit and returns the same cursor. |
| Adapter.Cursor.Limit | backend/app/postgres_adapter.py:22-24 | `limit` replaces the limit, keeps the sort and returns the same cursor. |
| Adapter.Cursor.Execute | backend/app/postgres_adapter.py:26-42 | Execution reads the table as it is now. It returns the matching rows, each once, ordered when a sort is set and cut to a positive limit after ordering. An empty `IN ()` or a negative LIMIT is a database error. |
| Adapter.Cursor.Get | backend/app/postgres_adapter.py:47-48 | `cursor[index]` re-executes and indexes the rows that run returned, a negative index counting from the end. It is a database error exactly when execution fails, and `IndexError` exactly when the index is outside `[-n, n)`. |
| Sorting.SortSorted | backend/app/routes/courses.py:52 | The sort orders any list by a total preorder and is a permutation of its input. |
| Sorting.SortStable | script.js:323-324 | The sort keeps elements that tie in their input order. |
| Text.ParsePyIntOfIntToString | backend/app/routes/quiz.py:32 | Python's `int()` reads back every integer that `str()` spells. |
| CareerDomains.GetDomainById | backend/app/data/career_domains_data.py:1188-1190 | `get_domain_by_id` returns the record under that key, and None exactly when the key is absent. |
| CareerDomains.CategoryIdsFrom | backend/app/data/career_domains_data.py:1195 | `CAREER_CATEGORIES.get(category, [])` gives the ids listed by the category's entry, or `[]` for an unknown category. |
| CareerDomains.GetDomainsByCategory | backend/app/data/career_domains_data.py:1193-1196 | An unknown category gives `[]`. |
| CareerDomains.PresentAll | backend/app/data/career_domains_data.py:1196 | When every listed id is in the catalogue, the domains come one per id, in the listed order. |
| CareerDomains.PresentSkips | backend/app/data/career_domains_data.py:1196 | Ids missing from the catalogue contribute nothing. |
| CareerDomains.AllDomainsCount | backend/app/data/career_domains_data.py:1199-1201 | `get_all_domains` returns one domain per key, as many as there are keys, and every domain appears in it. |
| CareerDomains.GetAllDomains | backend/app/data/career_domains_data.py:1199-1201 | There are as many domains as keys. |
| CareerDomains.SearchDomains | backend/app/data/career_domains_data.py:1204-1213 | The search loop walks the catalogue in order and collects the domains that mention the keyword. |
| CareerDomains.MentioningExactly | backend/app/data/career_domains_data.py:1208-1212 | The search result holds exactly the domains whose title, description or some key-skill name contains the keyword, ignoring case. No domain appears more often than the catalogue holds it. |
| CareerDomains.EmptyKeywordFindsAll | backend/app/data/career_domains_data.py:1204-1213 | An empty keyword returns every domain, in order. |
| CareerDomains.ShippedIdsAreKeys | backend/app/data/career_domains_data.py:11-12 | In the shipped data, every record's `domain_id` equals its key. |
| CareerDomains.ShippedCategoriesListKeys | backend/app/data/career_domains_data.py:1156-1185 | In the shipped data, the categories list the keys in key order, each under the category its record names. |
| CareerDomains.ShippedCategoriesPartition | backend/app/data/career_domains_data.py:1156-1185 | In the shipped data, no key repeats and each key is listed by exactly one category. |
| Career.WithSkillExactly | backend/app/routes/career.py:50-55 | The `required_skill` filter keeps exactly the domains with a skill whose lower-cased name contains the lower-cased skill. It keeps them in order and repeats none. |
| Career.GetCareerDomains | backend/app/routes/career.py:28-60 | A category takes precedence over a keyword, and a keyword over listing everything. The skill filter applies afterwards, and `total_count` is the number of domains returned. |
| Career.GetCareerCategories | backend/app/routes/career.py:64-76 | There is one entry per category, in order, with `count == len(domain_ids)`. |
| Career.GetDomainDetail | backend/app/routes/career.py:80-87 | An unknown id gives 404; otherwise the response is the record. |
| Career.SiftPartition | backend/app/routes/career.py:182-191 | Every required skill lands in exactly one of have or need: in have exactly when it is covered. The two lengths add up to the number of required skills. |
| Career.EmptyNameCoversAll | backend/app/routes/career.py:176-186 | A student skill with an empty name covers every required skill. |
| Career.ReadinessShare | backend/app/routes/career.py:193-194 | Before rounding, readiness is the matched share of the required skills as a percentage, between 0 and 100. It is 100 when nothing is missing. |
| Career.IsCovered | backend/app/routes/career.py:184-189 | The inner loop matches exactly when some student skill name is a substring of the required name or contains it. |
| Career.AnalyzeSkillGap | backend/app/routes/career.py:157-206 | An unknown domain gives 404. Otherwise the reply holds the have/need partition in the required order, its counts, the readiness, and the domain's roadmap. |
| Career.GetDomainRoadmap | backend/app/routes/career.py:210-227 | An unknown id gives 404. The reply fails with 500 exactly when the duration sum raises; otherwise it carries that sum. |
| Career.GetEntryRequirements | backend/app/routes/career.py:231-247 | An unknown id gives 404; otherwise the reply carries the record's title, id and certifications. |
| Career.PhaseMonthsDefault | backend/app/routes/career.py:224 | A phase without a duration counts as `"0 months"`, that is 0. |
| Career.LeadingIntOfMonths | backend/app/routes/career.py:225 | `int("<n> months".split()[0])` reads back `n`. |
| Career.LeadingIntOfOngoing | backend/app/routes/career.py:225 | `int("Ongoing".split()[0])` raises. |
| Career.EstimatedDurationOfMonths | backend/app/routes/career.py:223-226 | When every duration reads `"<n> months"`, the estimated duration is the sum of the `n`s. |
| Career.OngoingRoadmapFails | backend/app/routes/career.py:223-226 | One `"Ongoing"` phase makes the duration sum raise. |
| Career.DrdoEceRoadmapFails | backend/app/data/career_domains_data.py:759 | The shipped `drdo_scientist_ece` roadmap has such a phase, so its roadmap request answers 500. |
| Career.EstimatedDurationIntendedAgrees | backend/app/routes/career.py:223-226 | The corrected sum, where a phase without a leading number counts 0, agrees with the written one wherever that succeeds. |
| Career.DrdoEceIntendedDuration | backend/app/data/career_domains_data.py:727-760 | On the shipped `drdo_scientist_ece` roadmap, the corrected sum gives 12 + 6 = 18 months. |
| Quiz.InitialScores | backend/app/routes/quiz.py:27 | Scores start at 0 for exactly CSE, ECE, EEE, ME and Civil. |
| Quiz.QuestionMap | backend/app/routes/quiz.py:29 | The question map holds every question id, and a later question with the same id replaces an earlier one. |
| Quiz.FirstOption | backend/app/routes/quiz.py:37 | The option lookup finds the first option with that id, or None when no option has it. |
| Quiz.Tally | backend/app/routes/quiz.py:31-43 | The tally keeps exactly the five branch keys. It fails only with status 500. |
| Quiz.TallyRaises | backend/app/routes/quiz.py:31-43 | An answer that raises makes the whole tally raise, whatever follows it. |
| Quiz.AnswerPoints | backend/app/routes/quiz.py:32-43 | An answer raises (status 500) exactly when `question_id` is missing or not an integer, or `option_id` is missing. An unknown question or option adds nothing. |
| Quiz.FirstMax | backend/app/routes/quiz.py:46 | The recommended branch has the greatest score, and every branch before it in key order scores strictly less. |
| Quiz.AddOptionPoints | backend/app/routes/quiz.py:41-43 | The inner loop adds each point to its branch, only for the five branches. |
| Quiz.Recommend | backend/app/routes/quiz.py:15-53 | The handler's in-place tally gives the outcome the specification function defines. |
| Quiz.TallyStep | backend/app/routes/quiz.py:31-43 | One more answer extends the tally by that answer's points, or makes the whole tally raise. |
| Quiz.TallyTotal | backend/app/routes/quiz.py:40-43 | The five scores sum to the points of every matched option, each answer counted as often as it occurs. |
| Quiz.RepeatedAnswerCountsTwice | backend/app/routes/quiz.py:31-43 | Answering the same question twice counts its option twice. |
| Quiz.TallyGrows | backend/app/routes/quiz.py:40-43 | With the non-negative points in the data, each further answer leaves every score at least where it was. |
| Quiz.OutcomeFacts | backend/app/routes/quiz.py:23-46 | Fewer than 10 answers gives 400, and only then. Otherwise the reply is 500 or a branch with the greatest score, ties going to the earliest of CSE, ECE, EEE, ME, Civil. |
| Gate.GetGateSubjects | backend/app/routes/gate.py:32-42 | A missing branch reads as CSE, and a branch not in the table gets the CSE list. `total_subjects` is the list's length. A list or object as branch raises. |
| Gate.FindMock | backend/app/routes/gate.py:106-111 | The lookup loop stops at the first question whose `_id` or position spells the submitted id. |
| Gate.FirstMatchFrom | backend/app/routes/gate.py:107-111 | The search from `k` finds the first matching position, and None exactly when no later position matches. |
| Gate.Listed | backend/app/routes/gate.py:235-243 | The listed positions are a prefix of the filtered positions. |
| Gate.Grade | backend/app/routes/gate.py:117-149 | The answer is correct exactly when the selected answer equals `correct_answer` (default 0). The marks are `marks` (default 2) if correct, otherwise 0. |
| Gate.GradeBounds | backend/app/routes/gate.py:118-120 | With non-negative marks, `0 <= marks_awarded <= total_marks`. Full marks means the answer was correct, or the question is worth nothing. |
| Gate.EntryFor | backend/app/routes/gate.py:125-137 | The saved progress entry agrees with the grading. |
| Gate.Submitted | backend/app/routes/gate.py:96-149 | The reply grades the database question when one was found, otherwise the first matching mock question. With neither, it is 404. |
| Gate.Picked | backend/app/routes/gate.py:235-240 | The filters keep exactly the questions that pass, in order. |
| Gate.PyStop | backend/app/routes/gate.py:243 | `xs[:limit]` stops at `limit` or the length, and a negative limit counts from the end. |
| Gate.MockListing | backend/app/routes/gate.py:230-252 | The listing numbers each listed question by its place in the listing and drops `correct_answer`. |
| Gate.FirstMatchOfPosition | backend/app/routes/gate.py:107-111 | Without `_id`s, the spelling of a position finds exactly that position. |
| Gate.MockIdsMisdirect | backend/app/routes/gate.py:246-247 | As written, once the subject filter skips the first question, listed question "0" is graded against the skipped question. |
| Gate.MockListingIntended | backend/app/routes/gate.py:246-247 | The corrected listing numbers each question by its place in the full list. |
| Gate.MockIdsResolve | backend/app/routes/gate.py:107-111 | With the corrected numbering, submitting a listed question's number grades that very question. |
| Gate.QuestionBank.SubmitAnswer | backend/app/routes/gate.py:87-149 | `submit_answer` over the bank gives the graded reply or 404. |
| Gate.QuestionBank.constructor | backend/app/routes/gate.py:7-12 | The bank holds the imported `GATE_QUESTIONS_CSE` list. |
| Gate.QuestionBank.MockQuestions | backend/app/routes/gate.py:230-252 | The returned copies are the listing. The bank's listed entries gain their `question_id`, and no other entry changes. |
| Gate.NumberListing | backend/app/routes/gate.py:246-250 | The numbering loop returns the listing and renumbers exactly the listed entries. |
| Gate.RenumberedFacts | backend/app/routes/gate.py:246-247 | Each listed question gets its place in the listing, and every other question is left alone. |
| Gate.MockQuestionsState | backend/app/routes/gate.py:246-250 | After the listing, exactly the listed questions carry their listing number. |
| Gate.IndexOfKey | backend/app/routes/gate.py:177 | A subject row is found by Python `==` on the key, and not found when no row's key is equal. |
| Gate.CountCorrect | backend/app/routes/gate.py:169 | `total_correct <= total_attempted`. |
| Gate.GetGateProgress | backend/app/routes/gate.py:153-201 | The in-place subject loop gives the progress that the specification function defines. |
| Gate.AddEntryFacts | backend/app/routes/gate.py:175-183 | Counting one more entry keeps subjects distinct and correct ≤ attempted. It adds the entry to the counters and gives its subject a row. |
| Gate.TabulateFacts | backend/app/routes/gate.py:168-189 | The per-subject attempts sum to `total_attempted`, the correct counts to `total_correct`, and the marks to `total_marks`. Each subject appears once, and no subject has more correct answers than attempts. |
| Gate.ProgressFacts | backend/app/routes/gate.py:157-197 | `total_correct <= total_attempted`. No collection or no entries gives the fixed mock record. Otherwise the counters agree with the entries. |
| Gate.GroupsForExactly | backend/app/routes/gate.py:210-212 | A subject filter keeps exactly that subject's resource groups, in order, each as often as it occurs. |
| Gate.GetYearAnalysis | backend/app/routes/gate.py:223-226 | A missing or zero year gives the whole table. A given year selects its entry, or `{}` when unknown. |
| Gate.YearKeysDistinct | backend/app/routes/gate.py:224 | Two different years never select the same entry. |
| Courses.PyContains | backend/app/routes/courses.py:43 | Python `in` is list membership by `==`. On a number, bool or None it raises. |
| Courses.BranchPoints | backend/app/routes/courses.py:37-38 | The branch contributes 0 or 3. |
| Courses.InterestHits | backend/app/routes/courses.py:42-44 | At most one hit per interest, counting repeated interests. |
| Courses.Score | backend/app/routes/courses.py:34-44 | The scoring loop gives 3 for the branch plus 2 per interest found among the skills. |
| Courses.ScoreCourses | backend/app/routes/courses.py:32-49 | The loop scores every course in collection order, or fails where a step raises. |
| Courses.ScoredAllFacts | backend/app/routes/courses.py:46-49 | Every scored course carries a string `_id` and its relevance score. |
| Courses.GetCourseRecommendations | backend/app/routes/courses.py:11-58 | The handler returns the recommendations the specification function defines: the mock courses when offline, empty or failing, otherwise the ranked top ten. |
| Courses.RankingFacts | backend/app/routes/courses.py:52-54 | At most ten courses are returned, highest relevance first, with ties in collection order. Each is a scored course with a string `_id`, and no course left out scores above one returned. |
| Courses.RankedOrder | backend/app/routes/courses.py:52-54 | Sorting and then taking ten is ordered, a permutation, stable, and leaves out nothing that ranks higher. |
| Courses.MockCoursesRanked | backend/app/routes/courses.py:158-221 | The mock courses have ids `mock-1` to `mock-5` and scores 5, 4, 3, 3, 2, already in ranked order. |
| Courses.MockCourses | backend/app/routes/courses.py:158-221 | There are five mock courses. |
| Courses.OfflineRecommendations | backend/app/routes/courses.py:16-29 | With no collection or an empty one, the recommendations are the mock courses. |
| Courses.SplitSizes | backend/app/routes/courses.py:104-108 | Every enrolled id goes to exactly one side of the split. |
| Courses.SplitIds | backend/app/routes/courses.py:102-108 | The splitting loop separates valid database ids from the others. |
| Courses.MockIdsInvalid | backend/app/routes/courses.py:105 | `mock-<n>` is never a valid database id. |
| Courses.EnrolledFacts | backend/app/routes/courses.py:93-122 | Valid ids are looked up only in the collection, and any other id can only name a mock course. |
| Courses.EnrollFacts | backend/app/routes/courses.py:129-155 | Enrolment succeeds unless the collection is missing or an exception is caught. Afterwards the course is listed, and no other user changes. |
| Courses.EnrollTwice | backend/app/routes/courses.py:143-151 | Enrolling twice leaves the users as enrolling once. The second reply reports nothing modified but still succeeds. |
| Tasks.ParseTaskId | backend/app/routes/tasks.py:85-86 | `ObjectId(task_id)` succeeds exactly for 24 hex digits, giving the lower-case form. |
| Tasks.IndexOf | backend/app/routes/tasks.py:86-91 | The lookup finds the first task with that id owned by the caller, or None exactly when there is none. |
| Tasks.LookupFacts | backend/app/routes/tasks.py:106-112 | A malformed id gives 400, and only then. A well-formed id that the caller owns no task under gives 404. Otherwise the lookup finds the caller's task with the canonical id. |
| Tasks.LookupUnique | backend/app/routes/tasks.py:106-112 | With unique ids, the study task found is the only one with that id. |
| Tasks.CreateFacts | backend/app/routes/tasks.py:28-36 | A new task is pending, unassisted, with an empty history, no `completed_at`, and the caller as owner. It keeps the ids well formed and is found by a later lookup. |
| Tasks.CreateListing | backend/app/routes/tasks.py:59-73 | A new task shows in its owner's list and in no other student's. |
| Tasks.OwnedBy | backend/app/routes/tasks.py:59 | `find({"student_id": ...})` holds exactly the caller's tasks. |
| Tasks.ActivitiesOf | backend/app/routes/tasks.py:115-116 | `activities.find({"student_id": ...})` holds exactly that student's activities. |
| Tasks.ListingFacts | backend/app/routes/tasks.py:59-73 | The list holds exactly the caller's tasks, newest first, with difficulty defaulting to "medium". |
| Tasks.GatherHistory | backend/app/routes/tasks.py:118-124 | The loop concatenates the recent activities' weak and strong areas in order. |
| Tasks.GatheredCovers | backend/app/routes/tasks.py:118-124 | Every area of every gathered activity is in the history, and nothing else is. |
| Tasks.HistoryForNone | backend/app/routes/tasks.py:115-126 | The history is withheld exactly when no recent activity of the student names an area. |
| Tasks.AssistedFacts | backend/app/routes/tasks.py:136-158 | Assistance appends exactly two messages, the question then the reply, and sets `ai_assistance_used`. It moves only a pending task to in progress, so a completed task stays completed. Nothing else changes. |
| Tasks.AssistTwice | backend/app/routes/tasks.py:136-158 | Two exchanges append four messages in order, and the status moves at most once. |
| Tasks.CompletedFacts | backend/app/routes/tasks.py:186-194 | Completion sets the status to completed and stamps `completed_at` from any prior status. Later assistance does not reopen a completed study task. |
| Tasks.DeleteFacts | backend/app/routes/tasks.py:224-229 | Deleting removes exactly the one task and keeps the rest in order and well formed. A second delete gives 404. |
| Tasks.ReplacePreserves | backend/app/routes/tasks.py:149-158 | Replacing a task by one with the same id keeps the ids well formed. |
| Tasks.TaskStore.constructor | backend/app/routes/tasks.py:1-16 | The collections start empty. |
| Tasks.TaskStore.CreateTask | backend/app/routes/tasks.py:19-51 | Create appends the new task and leaves the activities alone. The response carries the defaults. |
| Tasks.TaskStore.GetTasks | backend/app/routes/tasks.py:54-74 | The list is the caller's tasks, newest first. |
| Tasks.TaskStore.GetTask | backend/app/routes/tasks.py:77-94 | The reply is 400 or 404 exactly as the lookup says. Otherwise it is a stored task with that id, owned by the caller. |
| Tasks.TaskStore.GetTaskAssistance | backend/app/routes/tasks.py:97-165 | An error leaves the tasks unchanged. Otherwise the assistant is asked with the gathered history, and the stored study task becomes the assisted one. |
| Tasks.TaskStore.CompleteTask | backend/app/routes/tasks.py:168-212 | An error changes nothing. Otherwise the study task is completed and exactly one `task_completed` activity is logged. |
| Tasks.TaskStore.DeleteTask | backend/app/routes/tasks.py:215-231 | An error changes nothing. Otherwise exactly that task is removed. |
| Stats.CompletedCount | backend/app/routes/stats.py:27-30 | The completed count never exceeds the number of tasks. |
| Stats.CompletionCounts | backend/app/routes/stats.py:27-30 | Completing a task raises its owner's count by one unless it was already completed, and no other student's count moves. |
| Stats.CareerReadiness | backend/app/routes/stats.py:38-40 | The step-by-step `+=` computation gives the readiness rule. |
| Stats.ReadinessValues | backend/app/routes/stats.py:38-40 | Readiness is 40, 50, 55 or 65, each exactly for its combination of more than five completed tasks and any internship. The cap of 100 never applies. |
| Stats.ReadinessMonotone | backend/app/routes/stats.py:38-40 | More completed tasks or more internships never lower the score. |
| Stats.GetStudentStats | backend/app/routes/stats.py:9-47 | Offline, the reply is 12/5/3/75. Online, it counts the student's completed tasks and all of their internships, within the collections' sizes. `courses_recommended` is 8, and readiness follows the rule, so it is at least 55 exactly when more than five tasks are completed. |
| Stats.GetAdminStats | backend/app/routes/stats.py:49-73 | Offline, the reply is 150/1240/85/4500. Online, students never outnumber active users, `active_users` counts every user, and `ai_interactions` is 3 × `total_tasks`. |
| QuizScript.QuestionsOk | script.js:75-142 | There are five questions, and each option names known branches, each at most once. |
| QuizScript.TallyBound | script.js:316-320 | A branch gains at most one point per answered question. A branch outside `branchInfo` gains none. |
| QuizScript.OccurrencesDistinct | script.js:316-318 | In a list without repeats, a branch occurs at most once, and exactly once when listed. |
| QuizScript.BranchScores | script.js:311-320 | Every `branchInfo` branch starts at 0, and each chosen option adds 1 to each branch it names. |
| QuizScript.PercentageFacts | script.js:327-337 | With five questions, `Math.round(score/5*100)` is `20 * score`, between 0 and 100. |
| QuizScript.ResultsFacts | script.js:323-337 | The results show three branches, best first, and no branch left out scores higher than one shown. Ties keep `branchInfo` order. Each score is the branch's tally, and each percentage is 20 × score ≤ 100. |
| QuizScript.ChosenKnown | script.js:264-265 | Chosen options are options of the quiz, so they name known branches. |
| QuizScript.ShowResults | script.js:307-337 | `showResults` gives the results that the specification function defines. |
| QuizScript.QuizSession.constructor | script.js:194-195 | The quiz starts at question 0 with no answers. |
| QuizScript.QuizSession.Start | script.js:203-208 | Starting resets to question 0 with no answers. |
| QuizScript.QuizSession.Select | script.js:264-265 | Selecting stores the option at the current question, replacing an earlier choice and keeping the others. Holes are left before it. |
| QuizScript.QuizSession.Previous | script.js:276-283 | Previous steps back only when above the first question. |
| QuizScript.QuizSession.Next | script.js:285-294 | Next steps forward below the last question and otherwise shows the results, so the current question stays in [0, 4]. |
| Auth.IndexOfChar | frontend/src/utils/auth.js:6 | The search finds the first occurrence of the character, and None exactly when there is none. |
| Auth.SecondSegmentFacts | frontend/src/utils/auth.js:6 | `split('.')[1]` of `header.payload[.signature]` is the payload. Without a dot it is undefined. |
| Auth.NormalisedFacts | frontend/src/utils/auth.js:10 | Every `-` becomes `+` and every `_` becomes `/`. No such character remains, and nothing else changes. |
| Auth.PaddedFacts | frontend/src/utils/auth.js:11-12 | Padding keeps the text and adds `4 - len % 4` '=' only when `len % 4 != 0`, so the length becomes a multiple of four. |
| Auth.ParseJwtFacts | frontend/src/utils/auth.js:3-23 | The claims are read exactly when the token is present, non-empty and has a non-empty second segment that decodes and parses. |
| Auth.AuthenticatedFacts | frontend/src/utils/auth.js:63-84 | A missing token or user, unreadable claims, or a missing or zero `exp` are refused. An integer `exp` is accepted exactly while `exp >= now` in seconds. |
| Auth.NonNumericExpNeverExpires | frontend/src/utils/auth.js:79 | A non-numeric `exp` string never compares as earlier, so such a token never expires on the client. |
| Auth.UserRoundTrip | frontend/src/utils/auth.js:37-50 | After `setUser(u)`, `getUser()` reads back `u`, given that `JSON.parse` inverts `JSON.stringify`. |
| Auth.LoggedOut | frontend/src/utils/auth.js:56-84 | After logout, both entries are gone and the user is not authenticated. |
| Auth.Browser.constructor | frontend/src/utils/auth.js:25-35 | Storage starts empty. |
| Auth.Browser.SetToken | frontend/src/utils/auth.js:25-27 | Stores the token under `access_token`, and nothing else changes. |
| Auth.Browser.GetToken | frontend/src/utils/auth.js:29-31 | Returns the stored token, present exactly when the key is stored. |
| Auth.Browser.RemoveToken | frontend/src/utils/auth.js:33-35 | Removes only `access_token`. |
| Auth.Browser.SetUser | frontend/src/utils/auth.js:37-39 | Stores `JSON.stringify(user)` under `user`. |
| Auth.Browser.GetUser | frontend/src/utils/auth.js:41-50 | Returns null when nothing is stored or the text fails to parse, otherwise the parsed user. |
| Auth.Browser.RemoveUser | frontend/src/utils/auth.js:52-54 | Removes only `user`. |
| Auth.Browser.Logout | frontend/src/utils/auth.js:56-61 | Removes both entries and nothing else. |
| Auth.Browser.IsAuthenticated | frontend/src/utils/auth.js:63-84 | Returns the authentication test on the current storage. |

## Left out

- Database I/O: connections, commits, and the `CREATE TABLE` / GIN index DDL. The table is an abstract map from id to document, and a query returns the rows whose document satisfies the meaning of its conditions.
- `_json_serialize` and `json.dumps`: documents hold JSON values only, so the `datetime`/`ObjectId` fallback has nothing to do. A nested object's key order in `str()` and in JSONB text is rendered in lexicographic order. Python uses insertion order and JSONB sorts by length first, which matters only for filters on whole nested objects. A string nested in a list or dict is quoted with `'…'` for Python's `str()` and `"…"` for JSONB, without either's rules: Python's `repr` switches to `"…"` for a string containing `'` and no `"`, and both escape backslashes and control characters (JSONB also escapes `"`). So a nested string containing a quote, a backslash or a control character can compare differently here; this affects only equality filters on whole lists or dicts.
- Adapter.Collection.FindOne: the row `LIMIT 1` returns without ORDER BY is left open (some matching row).
- Adapter.Collection.InsertMany: the same dict passed twice in one call is two independent values here, because aliasing of the caller's dicts is not modelled.
- SQL injection through a sort key or a collection name spliced into the query text is not modelled. Keys are parameters, and the name is a plain value.
- The result object's missing `matched_count`, which `backend/app/routes/internships.py` reads, is not part of this model.
- `backend/app/database.py` is not part of this model. The route modules are modelled with Mongo semantics over given sequences and maps, as the back end runs them.
- Gate.Submitted and Gate.ProgressOf: `submit_answer` and `get_gate_progress` test the collection's truth value (`if questions_collection:`, `if progress_collection:`, `if not progress_collection:`) where the other routes test `is None`. A PyMongo 4 collection raises `NotImplementedError` on that test, so against a real MongoDB both routes answer 500. The model assumes the test passes for a present collection, as it does under the mongomock fallback.
- Python's and JavaScript's Unicode lower-casing: `Text.Lower` folds ASCII letters only.
- Text.IsSpace: Python's `int()` and `str.split()` also accept Unicode whitespace and digits (`int("\xa01")` is 1). The model accepts ASCII whitespace and digits only, so `Quiz.AnswerPoints` and `Career.LeadingInt` refuse such strings where Python accepts them.
- AdapterUpdate.ApplyUpdateInPlace: in a `$set` pair list, a number, bool or `None` key is written under its JSON key text at once. Python keeps it as a non-string key until `json.dumps`, so `1` and `True` collide there, and a later operator on the same text key loses to it. A two-key dict used as a pair gives its keys in lexicographic order, where Python uses insertion order.
- Adapter.Order: `ORDER BY doc->>'key'` is modelled under the C collation, which compares code points. A database whose collation is a locale such as en_US.UTF-8 orders text differently (it puts "a" before "B").
- Career.StudentSkill: a skill dict whose `name` is not a string (a number, say) is not representable. In Python, `.lower()` on it raises `AttributeError`, which gives status 500.
- Floating point: the skill-gap readiness is an exact real, and its `round(…, 1)` is left out. Gate accuracy is stated by its counts, and `round(…, 2)` is left out. `Math.round` on the quiz percentage is modelled exactly on integers.
- Timestamps and the clock are parameters. Each task handler reads the clock once.
- The AI service (recommendations, detailed matching, task assistance, resume and mentor routes) is a parameter or left out, because it is LLM plumbing and randomness.
- `get_career_recommendations` and `get_detailed_recommendations` in `career.py` only forward to the AI service and are left out. So is `get_career_paths`, which returns the category table unchanged.
- Career.GetEntryRequirements: the record's `entry_requirements`, `required_education`, `salary_range`, `top_companies` and `job_market_outlook` are not in the modelled record. Only the 404 rule, the title, the id and the certifications are modelled.
- Gate: the database path of `get_gate_questions` and the question text, options and explanations are left out. A database question is an input to `submit_answer`.
- Courses: the mock courses' display fields (title, platform, duration, url) are not modelled. `get_all_courses` is left out, because it is the id-stringifying step of the recommendations without scoring. The database `$in` lookup of enrolled courses matches ids as strings.
- The catalogue's display text (descriptions, roadmap focus, salaries) is modelled only where search or the roadmap reads it. The shipped data enters as the key order, each record's `domain_id` and `category`, the category table, and the `drdo_scientist_ece` roadmap.
- Tasks: a request missing a required field (a `KeyError`, status 500) is not modelled. A stored task is assumed to carry the fields the routes read with `[]`.
- Tasks: Mongo's sort ties come out in insertion order here. A non-list `weak_areas` is not modelled.
- Tasks.TaskStore.CreateTask: ObjectId uniqueness is a precondition, because the database guarantees it.
- Stats: Mongo's matching of a filter value against an array field in `count_documents` is not modelled. Fields are compared as whole values.
- script.js: the DOM, texts, icons and the enabling of the Next button are left out. The pre-selection of an earlier answer is display only.
- auth.js: `atob`, `decodeURIComponent`, `JSON.parse` and `JSON.stringify` are parameters, and `console.error` is left out. The redirect in `logout` is not modelled.
- Auth.Authenticated: JavaScript's `Number()` on strings other than plain decimal digits (signs, whitespace, exponents, hex) is modelled as NaN, and so are arrays of booleans.

## Findings

| source | as written | input that shows it | evidently intended | confidence | as-written member | corrected member |
|---|---|---|---|---|---|---|
| backend/app/postgres_adapter.py:151-162 | `find` tests `k == "_id"` before the operator cases, so `{"_id": {"$in": ids}}` becomes `id = "{'$in': [...]}"` and the `id IN (...)` branch is never reached | `find({"_id": {"$in": ["65a0c1e2f3a4b5c6d7e8f901"]}})` against a row with that id: no row matches | `_id` with `$in` selects the rows whose id is listed, as `backend/app/routes/courses.py:111` relies on | not executed | AdapterQuery.IdInMatchesNoHexId | AdapterQuery.IdInIntended |
| backend/app/postgres_adapter.py:259-269 | `DeleteResult` is defined only inside the `if doc:` block, so the no-match path raises `NameError` | `delete_one({"_id": "absent"})` on any table | a result with `deleted_count == 0` | not executed | Adapter.Collection.DeleteOne | Adapter.Collection.DeleteOneIntended |
| backend/app/routes/career.py:223-226 | `int(phase.get('duration', '0 months').split()[0])` raises on the shipped duration "Ongoing", so the roadmap answers 500 | `GET /api/career/roadmap/drdo_scientist_ece` | a phase without a leading number counts 0 months, giving 18 | not executed | Career.DrdoEceRoadmapFails | Career.DrdoEceIntendedDuration |
| backend/app/routes/gate.py:246-247 | mock questions are numbered by their position in the filtered list, but `submit_answer` looks them up by position in the full list | list with subject "Algorithms", then submit `question_id` "0": the answer is graded against the first (Data Structures) question | a listed question's number grades that question | not executed | Gate.MockIdsMisdirect | Gate.MockIdsResolve |
