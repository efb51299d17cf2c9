# ai-backend core, modelled in Dafny

This project models the decision and storage core of the ai-backend service.
That service has two halves.

- A travel-health half. Wearable telemetry is stored per user and point. It is bucketed by
  temperature, altitude and speed, and summarised per bucket. `HealthAlertGenerator.run`
  then turns a user message into a health alert, plus up to two nearby-pharmacy alerts.
  Trip membership is managed by an invite state machine.
- An agriculture half. Sensor alerts are stored with defaults. LLM-generated requirements
  are matched against product and service catalogues by embedding search. The valid
  suggestions are formatted and recorded.

Both halves sit on a Mongo document-store base class, a Qdrant vector-store wrapper, a
JSON-schema-to-tool-declaration converter and a Gemini payload layer.

Each Mongo collection is a class whose field is a sequence of documents in insertion order.
A Python dict is an ordered association list (`Json.Doc`), so key order is part of every
statement about a built document. Every external collaborator is a function parameter:

- the LLMs, the embedders, the similarity function, the place lookup, the temperature
  service, the pharmacy search and the HTTP post;
- the clock, the float-to-text rendering and the random sample.

Methods are proved against specification functions. Lemmas state what the source promises
about those functions.

Modules, in dependency order:

- `Wrappers`: `Option` and `Result`.
- `Text`: the string operations of Python that the core uses (`join`, `split(...)[-1]`,
  `rsplit`, `replace`, `lower`, `startswith`).
- `Json`: `Value`, `Doc`, `Get`, `Put` and `GetOr`.
- `DocStore`: `BaseMongoHandler` (app/mongo/base_handler.py), plus the `update_one` `$set`
  and `$push` helpers its subclasses use.
- `Keyed`: the find-delete-insert upsert shared by every "replace if exists" handler.
- `Alerts`: `AlertHandler` (app/mongo/fsq_handlers.py).
- `Telemetry`: `HealthDataHandler` (app/mongo/fsq_handlers.py).
- `Users` and `Trips`: `UserHandler.add_user` and `TripHandler` (app/mongo/fsq_handlers.py).
- `Health`: `HealthAlertGenerator` (app/service/health.py).
- `Agri`: `format_suggestions`, `ProductServiceSuggestionHandler` and
  `AlertStorageHandler` (app/mongo/agri_handlers.py).
- `ToolFormatter`: app/llms/utils/tool_formatter.py.
- `Gemini`: app/llms/gemini.py.
- `VectorStore`: `VectorEmbeddingStore` (app/vector_store/qdrant_store.py), as the class `EmbeddingStore`.

## Model

| member | source | states |
|---|---|---|
| DocStore.DocumentStore.AddItem | app/mongo/base_handler.py:19-37 | apart from the driver-generated `_id`, the stored item is the input, plus a `vector` entry exactly when vector fields are given; it is appended with no uniqueness check and returned; a listed field that is present but not a string (the join's TypeError) leaves the store unchanged |
| DocStore.StoredItem | app/mongo/base_handler.py:31-34 | with vector fields, the embedded text is the present listed fields joined by single spaces; every key other than `vector` is kept; with none, the item is unchanged |
| DocStore.PresentTextsSpec | app/mongo/base_handler.py:32 | the join succeeds iff every listed field that is present holds a string; the texts are those fields' values, in list order |
| DocStore.AddItemTwiceDuplicates | app/mongo/base_handler.py:28-36 | adding the same item twice leaves two more documents carrying its key, because the uniqueness check is commented out |
| DocStore.FirstMatch | app/mongo/base_handler.py:78-80 | the record `delete_one` picks is the first that matches, or none when nothing matches |
| DocStore.DeleteFirstCount | app/mongo/base_handler.py:78-80 | deleting by key lowers the number of matching records by exactly one when there was one, and leaves it at zero otherwise |
| DocStore.DocumentStore.DeleteById | app/mongo/base_handler.py:78-80 | it removes the first matching record only and returns 1 iff one matched, else 0; the store shrinks by that count |
| DocStore.DocumentStore.DeleteAll | app/mongo/base_handler.py:95-97 | it empties the store and returns true iff the store held anything |
| DocStore.DocumentStore.Search | app/mongo/base_handler.py:99-109 | the result is sorted by non-increasing similarity; for every similarity value it holds the stored items with the vector field and that similarity in store order, when the value exceeds the threshold, and none otherwise |
| DocStore.SortByScore | app/mongo/base_handler.py:108 | the list is sorted descending, and for every score the items with that score keep their input order (a stable sort) |
| DocStore.InsertDescSorted | app/mongo/base_handler.py:108 | inserting into a descending list keeps it descending |
| DocStore.InsertDescStable | app/mongo/base_handler.py:108 | the inserted item goes after every item with an equal score |
| DocStore.KeepAbove | app/mongo/base_handler.py:109 | the loop keeps exactly the items whose similarity is strictly above the threshold, in order |
| DocStore.AboveSorted | app/mongo/base_handler.py:109 | filtering a sorted list by the threshold keeps it sorted; every survivor is above the threshold |
| DocStore.AboveWithScore | app/mongo/base_handler.py:109 | the threshold filter keeps every item of a score above the threshold in order, and drops every item of any other score |
| DocStore.SearchHead | app/mongo/base_handler.py:99-109 | the first result is the top hit: no eligible item scores higher, and no eligible item of equal score is stored before it (the sort is stable); the result is empty iff no item with the vector field beats the threshold |
| DocStore.TopHitUnique | app/mongo/base_handler.py:99-109 | a collection has at most one top hit, so the head of the search is determined |
| DocStore.DocumentStore.SetOnFirst | app/mongo/agri_handlers.py:165-169 | `update_one` with `$set` rewrites one key of the first matching record; it reports a change only when the value differed |
| DocStore.SetFirstIdempotent | app/mongo/agri_handlers.py:165-169 | repeating the same `$set` changes nothing and reports no modification |
| DocStore.DocumentStore.PushOnFirst | app/mongo/agri_handlers.py:302-306 | `update_one` with `$push` appends to the list under a key of the first matching record |
| DocStore.PushFirstSpec | app/mongo/agri_handlers.py:302-306 | it succeeds iff a record matches and its key is absent or holds a list; that list gains the element at its end; no other key or record changes; otherwise the store is untouched |
| Keyed.FirstWithKey | app/mongo/fsq_handlers.py:28 | `find_one` returns the first record with the key, or none |
| Keyed.WithKey | app/mongo/fsq_handlers.py:365-367 | `find` by key returns exactly the records with that key, in store order |
| Keyed.DeleteFirstWithKeySpec | app/mongo/fsq_handlers.py:30 | `delete_one` drops the first record with the key; the records under every other key are untouched |
| Keyed.ReplaceSpec | app/mongo/fsq_handlers.py:27-31 | find, delete and insert leave exactly the new record under its key when at most one was there; the store grows only when the key was new; other keys are untouched |
| Keyed.ReplaceWithKey | app/mongo/fsq_handlers.py:27-31 | under the upserted key the oldest record is dropped and the new one comes last; under every other key the records are those before |
| Keyed.ReplaceKeepsUnique | app/mongo/fsq_handlers.py:359-362 | the upsert keeps record keys unique |
| Alerts.AlertId | app/mongo/fsq_handlers.py:346 | the alert id is `alert-`, the user id, `-` and the timestamp |
| Alerts.AddAlertOn | app/mongo/fsq_handlers.py:333-363 | the type is checked first, then the severity, each against its fixed list; either failure returns its message and writes nothing; success replaces any alert with the same id by the new one |
| Alerts.AddAlertLeavesOne | app/mongo/fsq_handlers.py:359-362 | after a successful add exactly one alert carries the id; alerts under other ids are untouched; ids stay unique |
| Alerts.AddAlertIdempotent | app/mongo/fsq_handlers.py:333-363 | adding the same alert twice leaves the store as after once |
| Alerts.AlertIdShared | app/mongo/fsq_handlers.py:346 | two different (user, timestamp) pairs can share an id, so one user's alert can replace another's |
| Alerts.AlertHandler.AddAlert | app/mongo/fsq_handlers.py:333-363 | the handler's store and reply are those of `AddAlertOn`; ids stay unique |
| Alerts.AlertHandler.GetByUserId | app/mongo/fsq_handlers.py:365-367 | the result is exactly the alerts of that user, in store order |
| Users.StoredUser | app/mongo/fsq_handlers.py:25 | `taste_groups` is reset to `{}`; every other key is kept |
| Users.ReplaceKeepsIds | app/mongo/fsq_handlers.py:27-31 | the upsert keeps every stored user with a `user_id` |
| Users.UserHandler.AddUser | app/mongo/fsq_handlers.py:15-32 | a missing `user_id` is a KeyError with no write; otherwise the stored user replaces any user with the same id, leaving exactly one |
| Trips.Pull | app/mongo/fsq_handlers.py:134 | `$pull` removes every occurrence of the id and nothing else |
| Trips.PullNoDuplicates | app/mongo/fsq_handlers.py:131-137 | `$pull` keeps a duplicate-free list duplicate-free |
| Trips.TripHandler.AddTrip | app/mongo/fsq_handlers.py:72-95 | the trip is stored with an empty `pending_invites`, replacing any trip with the same id and leaving exactly one |
| Trips.ReplaceInvitesOk | app/mongo/fsq_handlers.py:72-95 | storing a trip with consistent invites keeps every stored trip's invites duplicate-free and disjoint from its members |
| Trips.AddInviteSpec | app/mongo/fsq_handlers.py:97-115 | a missing trip is an error; the invite is appended to `pending_invites` iff the user is neither pending nor a member; in every other case no trip changes |
| Trips.CheckApprovalSpec | app/mongo/fsq_handlers.py:117-129 | approve and deny fail iff the trip is missing, the approver is not a member or the invitee is not pending, in that order of checks, and then change nothing |
| Trips.ApproveMove | app/mongo/fsq_handlers.py:117-138 | approve takes the invitee out of `pending_invites`, keeps every other pending invitee, appends it to `user_ids`, changes no other field and leaves every other trip alone |
| Trips.DenyMove | app/mongo/fsq_handlers.py:140-158 | deny takes the invitee out of `pending_invites`, keeps every other pending invitee and the members, changes no other field and leaves every other trip alone |
| Trips.InviteOpsPreserve | app/mongo/fsq_handlers.py:105-157 | invite, approve and deny keep `pending_invites` duplicate-free and disjoint from `user_ids` |
| Trips.TripHandler.AddInvite | app/mongo/fsq_handlers.py:97-115 | the handler follows `AddInviteOn` and keeps the invite invariant |
| Trips.TripHandler.ApproveInvite | app/mongo/fsq_handlers.py:117-138 | the handler follows `ApproveInviteOn` and keeps the invite invariant |
| Trips.TripHandler.DenyInvite | app/mongo/fsq_handlers.py:140-158 | the handler follows `DenyInviteOn` and keeps the invite invariant |
| Trips.TripHandler.ViewInvites | app/mongo/fsq_handlers.py:160-171 | a missing trip or a non-member is an error; a member sees the pending list |
| Trips.TripHandler.ViewMembers | app/mongo/fsq_handlers.py:173-184 | a missing trip or a non-member is an error; a member sees the member list |
| Telemetry.BucketWidth | app/mongo/fsq_handlers.py:272-277 | every bucket width is positive |
| Telemetry.BucketizeWholeWidth | app/mongo/fsq_handlers.py:225-227 | for a whole-number width the bucket is a multiple of the width, with bucket <= v < bucket + width |
| Telemetry.BucketizeSpeedBelow | app/mongo/fsq_handlers.py:225-227 | for the 25/18 speed width and v >= 0, the bucket lies between 0 and v |
| Telemetry.BucketizeSpeedNegative | app/mongo/fsq_handlers.py:225-227 | a negative speed floors to a negative bucket (-1.2 gives -1) |
| Telemetry.BucketizeExamples | app/mongo/fsq_handlers.py:225-227 | 12 gives 10, 29 gives 20 and -3 gives -10 at width 10 |
| Telemetry.MaxOf | app/mongo/fsq_handlers.py:236 | the maximum bounds every element from above |
| Telemetry.MaxOfIn | app/mongo/fsq_handlers.py:236 | the maximum is one of the values |
| Telemetry.MinOf | app/mongo/fsq_handlers.py:237 | the minimum bounds every element from below |
| Telemetry.MinOfIn | app/mongo/fsq_handlers.py:237 | the minimum is one of the values |
| Telemetry.ComputeStats | app/mongo/fsq_handlers.py:229-239 | no stats iff the list is empty; otherwise the mean is the sum over N, min and max are elements bounding every value, min <= mean <= max, and the variance is the squared deviations from the mean over N (`np.var`, population variance), never negative |
| Telemetry.VarianceZeroIff | app/mongo/fsq_handlers.py:233-238 | the variance of a non-empty list is zero exactly when all its values are equal |
| Telemetry.SquaredDeviationsZero | app/mongo/fsq_handlers.py:238 | squared deviations of zero from a point leave every value at that point |
| Telemetry.SquaredDeviationsPositive | app/mongo/fsq_handlers.py:238 | one value away from a point makes the squared deviations from it positive |
| Telemetry.SquaredDeviationsAllEqual | app/mongo/fsq_handlers.py:238 | values all at a point deviate from it by zero |
| Telemetry.MeanOfEqual | app/mongo/fsq_handlers.py:235 | a list whose values all equal x has mean x |
| Telemetry.MeanAboveMin | app/mongo/fsq_handlers.py:233-237 | the mean of a non-empty list is at least its minimum |
| Telemetry.MeanBelowMax | app/mongo/fsq_handlers.py:233-237 | the mean of a non-empty list is at most its maximum |
| Telemetry.ComputeStatsExample | app/mongo/fsq_handlers.py:229-239 | [2, 4, 6] gives mean 4, max 6, min 2 and variance 8/3 (divide by N) |
| Telemetry.BuildTableCollects | app/mongo/fsq_handlers.py:309-313 | a bucket's list for a metric is exactly the non-missing values of the sampled records with data that fall in that bucket, in sample order |
| Telemetry.BuildTableCountsOnce | app/mongo/fsq_handlers.py:309-313 | each non-missing metric of a processed record lands in exactly one bucket per factor |
| Telemetry.BuildTableKeys | app/mongo/fsq_handlers.py:309-313 | a bucket exists iff some processed record with at least one metric falls in it |
| Telemetry.BuildTablePopulated | app/mongo/fsq_handlers.py:316-324 | every bucket that exists holds at least one value, so the `else None` branch never fires |
| Telemetry.AnalysisStatsExist | app/mongo/fsq_handlers.py:316-324 | every metric listed in a bucket has stats, never None |
| Telemetry.Summarize | app/mongo/fsq_handlers.py:316-324 | each bucket's entry is the stats of its lists, keeping bucket and metric order |
| Telemetry.AnalysisOf | app/mongo/fsq_handlers.py:316-326 | the result has exactly the four factor keys |
| Telemetry.AddToTables | app/mongo/fsq_handlers.py:295-313 | one record is added to every factor's table under that factor's bucket |
| Telemetry.OfTrip | app/mongo/fsq_handlers.py:241-249 | the records of a user and trip are exactly the stored ones with that user and trip id |
| Telemetry.HealthDataHandler.AddHealthData | app/mongo/fsq_handlers.py:194-223 | the record, with `user_id` forced to the given user, replaces any record with the same (point id, user id); exactly that record is left under the pair, and (point id, user id) pairs stay unique |
| Telemetry.HealthDataHandler.GetHealthData | app/mongo/fsq_handlers.py:241-249 | the result is exactly the user's records for the trip |
| Telemetry.HealthDataHandler.AnalyzeHealthData | app/mongo/fsq_handlers.py:251-326 | given a sample of min(n, 10) of the user's records (the time range is ignored), each factor maps to the summarised bucket table built from the sample |
| Health.ArgMin | app/service/health.py:99 | the chosen index minimises the distance to the target, and no earlier index is as close |
| Health.NearestUnique | app/service/health.py:99 | the first-on-ties nearest bucket is unique |
| Health.ClosestOfSpec | app/service/health.py:84-105 | only temperature and altitude appear, in that order, each iff the factor has buckets; each holds the nearest bucket to floor(temp/5)*5 or floor(altitude/10)*10, with its stats |
| Health.FormatScenarioInfoShape | app/service/health.py:107-126 | an empty info gives the fixed message; otherwise the text starts with the location line |
| Health.FactorLinesCount | app/service/health.py:117-124 | one heading per factor plus one line per non-empty stats entry; exactly that many when every entry has stats |
| Health.MetricLines | app/service/health.py:122-124 | one indented line per metric with stats, and all of them iff every metric has stats |
| Health.Unit | app/service/health.py:119 | the unit is "°C" exactly for temperature |
| Health.HealthAlertMetadata | app/service/health.py:129-139 | type "health", the title, message + advice + medication as the description, the lower-cased severity, in that key order |
| Health.HealthAlertAccepted | app/service/health.py:129-141 | the health alert is stored iff its lower-cased severity is low, medium or high; otherwise the store is untouched and nothing is reported |
| Health.PharmacyItems | app/service/health.py:146-152 | at most two results are used, and only from a fetch with status 200 |
| Health.PharmacyDescription | app/service/health.py:156-163 | the description starts with the name and location, and ends with "Health Alert: " and the alert message |
| Health.PharmacyMetadata | app/service/health.py:160-167 | a pharmacy alert has type "pharmacy", severity "medium" and the description above |
| Health.AddPharmacyAlert | app/service/health.py:160-169 | a pharmacy alert always passes the alert checks and adds at most one alert for that user and message |
| Health.PharmacyAllowed | app/mongo/fsq_handlers.py:352-357 | metadata typed "pharmacy" with severity "medium" passes both the type check and the severity check of `add_alert` |
| Health.PharmacyWritesSpec | app/service/health.py:152-169 | the loop adds at most one alert per result, and every new alert is a pharmacy alert for the message |
| Health.PharmacyStopsAt | app/service/health.py:170-172 | an exception at a result stops the loop and keeps the alerts already written |
| Health.RunAborts | app/service/health.py:179-194 | `run` returns `{}` iff is_address is false and the destination is empty, or the place lookup fails; it then writes no alert |
| Health.RunReports | app/service/health.py:196-222 | otherwise it returns the looked-up lat/lon, scenario details that start with the place's address, and the assessed alert |
| Health.RunAddsAtMostThree | app/service/health.py:213-215 | a run adds at most three alerts: one health alert and at most two pharmacy alerts |
| Health.RunIgnoresSeverity | app/service/health.py:213 | the alerts written do not depend on `is_severe` |
| Health.HealthAlertGenerator.GetClosestHealthData | app/service/health.py:78-105 | the matcher returns the closest buckets of the user's analysed sample |
| Health.HealthAlertGenerator.PushHealthAlert | app/service/health.py:129-141 | the alert store becomes that of one `add_alert` with the health metadata; its reply is dropped |
| Health.HealthAlertGenerator.PushPharmacyAlert | app/service/health.py:143-172 | the alert store becomes the pharmacy writes for the fetched results; no failure escapes |
| Health.HealthAlertGenerator.Run | app/service/health.py:175-222 | the reply and the new alert store are those of the run specification for the extracted message |
| Agri.ItemLines | app/mongo/agri_handlers.py:97-104 | a product gives 8 lines and a service 5 |
| Agri.SectionItemLines | app/mongo/agri_handlers.py:96-104 | the item loop yields the concatenated item blocks when every item is readable, and fails otherwise |
| Agri.SectionShape | app/mongo/agri_handlers.py:94-106 | a section is absent iff its list is missing or empty; otherwise it is the heading with the date and exactly 1 + width × items + trailer lines (8 lines per product, 5 per service, and a final empty line for products) |
| Agri.FormatSection | app/mongo/agri_handlers.py:94-117 | the section loop builds the section specification's lines |
| Agri.FormattedSuggestionsSpec | app/mongo/agri_handlers.py:88-117 | "date" is always present (default N/A); "products" and "services" are present iff their lists are non-empty, and hold their own lines joined by newlines |
| Agri.AssembledSpec | app/mongo/agri_handlers.py:88-117 | the result carries the date and exactly the sections that were built |
| Agri.FormatSuggestions | app/mongo/agri_handlers.py:83-119 | the function builds the formatted-suggestions specification |
| Agri.SuggestionRecordSpec | app/mongo/agri_handlers.py:141-157 | a record is stored iff a products or services text exists; it carries id `suggestion_<hub>_<timestamp>`, the formatted text and "pending" |
| Agri.PayloadSpec | app/mongo/agri_handlers.py:144-150 | the payload carries the id, the formatted suggestions and delivery status "pending" |
| Agri.SuggestionHandler.AddSuggestions | app/mongo/agri_handlers.py:129-157 | the store gains the record exactly when one is built, and is unchanged otherwise |
| Agri.SuggestionHandler.UpdateDeliveryStatus | app/mongo/agri_handlers.py:159-169 | an empty id or status returns false and writes nothing; otherwise a `$set` on the first match |
| Agri.WithAlertDefaults | app/mongo/agri_handlers.py:243-248 | delivery status "pending", no comments and not resolved, overriding the caller; all other keys are kept |
| Agri.AlertStorageHandler.AddAlert | app/mongo/agri_handlers.py:230-253 | the alert with its defaults is added through `add_item`, embedding `action_body` |
| Agri.AlertStorageHandler.UpdateDeliveryStatus | app/mongo/agri_handlers.py:272-282 | an empty id or status returns false and writes nothing; otherwise a `$set` of the status |
| Agri.AlertStorageHandler.ChangeAlertStatus | app/mongo/agri_handlers.py:284-294 | an empty id returns false and writes nothing; otherwise a `$set` of `resolved` |
| Agri.AlertStorageHandler.AddComment | app/mongo/agri_handlers.py:296-306 | an empty id or comment returns false and writes nothing; otherwise the comment is pushed onto the first match's comments |
| Agri.AlertLinesAppend | app/mongo/agri_handlers.py:225-226 | the prompt has one line per alert, in order |
| Agri.AlertStorageHandler.InputPrompt | app/mongo/agri_handlers.py:220-228 | the loop builds the fixed header, one "- action_body or N/A" line per alert, then the fixed footer |
| Agri.SevereAlerts | app/mongo/agri_handlers.py:316-320 | the query selects exactly the alerts of the hub, with the date prefix and severity high or critical |
| Agri.RequirementsForSpec | app/mongo/agri_handlers.py:316-327 | no severe alert gives two empty lists without asking the LLM; otherwise the LLM's answer to the prompt over the severe alerts |
| Agri.AlertStorageHandler.GenerateRequirement | app/mongo/agri_handlers.py:309-327 | the method returns the requirements specification over the stored alerts |
| Agri.ValidatedSpec | app/mongo/agri_handlers.py:340-353 | exactly the combinations judged valid are kept, each with its reason |
| Agri.ValidatedAppend | app/mongo/agri_handlers.py:342-353 | the kept combinations follow input order |
| Agri.AlertStorageHandler.ValidateCombination | app/mongo/agri_handlers.py:329-353 | the loop keeps the combinations the validator accepts |
| Agri.TopHitsBound | app/mongo/agri_handlers.py:364-368 | at most one hit per requirement, and every hit is a stored item with a vector |
| Agri.TopHitsUnique | app/mongo/agri_handlers.py:364-368 | the hits are determined by the collection and the requirements: ties go to the earliest stored item |
| Agri.SearchEach | app/mongo/agri_handlers.py:364-368 | the loop takes the top search hit, if any, of each requirement, the earliest stored one among equal scores |
| Agri.ResultFormats | app/mongo/agri_handlers.py:390-394 | the validated result always formats, and each section is listed iff something was kept for it |
| Agri.SuggestionsRecorded | app/mongo/agri_handlers.py:390-400 | the suggestion is recorded iff any product or service was kept, under id `suggestion_<hub>_<date>` |
| Agri.AlertStorageHandler.SuggestForDate | app/mongo/agri_handlers.py:356-402 | the hits are the top hits per requirement; the result holds the validated hits; the suggestion store gains exactly the recorded suggestion, if any |
| ToolFormatter.StringProperties | app/llms/utils/tool_formatter.py:83-89 | the properties have exactly the schema's keys, in order, each a string with the given description |
| ToolFormatter.KeyList | app/llms/utils/tool_formatter.py:90 | `required` lists the schema's keys in order |
| ToolFormatter.DictToToolFormatSpec | app/llms/utils/tool_formatter.py:74-103 | the name is the lower-cased tool name (default ""), the description defaults to "", and the parameters are an object with the string properties and all keys required; it fails iff the tool name is not a string or the schema is not a dict |
| ToolFormatter.ResolveRef | app/llms/utils/tool_formatter.py:28-33 | resolution fails only when the reference is not a string or the definitions are not a dict |
| ToolFormatter.ResolveByName | app/llms/utils/tool_formatter.py:32-33 | a reference resolves to the definition named by its last path segment, or {} when absent |
| ToolFormatter.ProcessPropertiesKeys | app/llms/utils/tool_formatter.py:39-60 | processing keeps the property keys, in order, each mapped to its processed entry |
| ToolFormatter.ProcessPropertiesLoop | app/llms/utils/tool_formatter.py:35-60 | the loop builds the recursive property specification |
| ToolFormatter.EntryTitle | app/llms/utils/tool_formatter.py:41-45 | a plain entry loses its title; a referenced entry carries the definition's own title |
| ToolFormatter.EntryObject | app/llms/utils/tool_formatter.py:48-49 | an object's nested properties are processed with the same keys |
| ToolFormatter.ExpandKeepsFields | app/llms/utils/tool_formatter.py:48-56 | expansion changes only `properties` and `items` |
| ToolFormatter.EntryArrayRef | app/llms/utils/tool_formatter.py:52-56 | an array whose items are a reference gets the resolved definition, with its properties processed |
| ToolFormatter.RefEntryExpands | app/llms/utils/tool_formatter.py:44-49 | a reference entry is processed as its definition |
| ToolFormatter.SelfReferenceFails | app/llms/utils/tool_formatter.py:35-60 | a definition that refers to itself never finishes (Python's recursion limit) |
| ToolFormatter.ToolNameSpec | app/llms/utils/tool_formatter.py:63 | the tool name has no upper-case letters, is no longer than the title, and is the lower-cased title when "Params" does not occur |
| ToolFormatter.PydanticSchemaSpec | app/llms/utils/tool_formatter.py:62-69 | success gives the declaration with the derived name, the processed properties (same keys) and `required` defaulting to []; a missing title or properties is a KeyError |
| Gemini.MakeRequestWithRetries | app/llms/gemini.py:17-30 | at most max_retries posts; every post before the last got 429; success returns the first non-429 response; failure means max_retries 429s, or no post at all when max_retries <= 0 |
| Gemini.ValidateArgs | app/llms/gemini.py:117-139 | the validator loop raises the argument-check specification's error |
| Gemini.FirstFailureNone | app/llms/gemini.py:121-125 | the first failing item's error is raised, and none iff every item passes |
| Gemini.ContentRoleListAccepted | app/llms/gemini.py:118-125 | a content list is accepted iff it is a list of items with role and content, role user or model |
| Gemini.ToolsAccepted | app/llms/gemini.py:129-136 | tools are accepted iff they are a list of items with a string name, a string description and dict parameters |
| Gemini.OtherArgsChecked | app/llms/gemini.py:126-139 | system instructions must be a string; an unknown tag is an error |
| Gemini.Contents | app/llms/gemini.py:156-162 | one turn per item, in order, shaped `{role, parts: [{text}]}` |
| Gemini.Declarations | app/llms/gemini.py:202-210 | one declaration per tool, in order, with only name, description and parameters |
| Gemini.GeneratePayloadSpec | app/llms/gemini.py:141-176 | the payload is built iff the content list is valid and truthy system instructions are a string; it holds the contents, generationConfig and, iff the instructions are truthy, systemInstruction |
| Gemini.WithSystemSpec | app/llms/gemini.py:168-172 | systemInstruction is added iff the instructions are truthy; nothing else changes |
| Gemini.FuncCallPayloadSpec | app/llms/gemini.py:178-222 | the payload is built iff contents and tools are valid; it holds the contents and one functionDeclarations entry with all tools, and no generationConfig |
| Gemini.ProjectLocationSpec | app/llms/gemini.py:113 | the region is the last path segment with its final `-suffix` dropped |
| Gemini.ProjectLocationExample | app/llms/gemini.py:112-113 | projects/12345/zones/us-central1-a gives us-central1 |
| Gemini.ProjectLocationGcpAlwaysFails | app/llms/gemini.py:111-113 | as written, the zone lookup always raises AttributeError |
| Gemini.ProjectLocationGcpSpec | app/llms/gemini.py:111-113 | calling the defined metadata helper, the region is parsed off the instance zone |
| Gemini.UserMessages | app/llms/gemini.py:295 | one user turn per list item, in order |
| Gemini.RunMessagesSpec | app/llms/gemini.py:278-297 | the stored system turn (only if given), then the query string or each list item as a user turn; any other input is a ValueError; the result always validates |
| Gemini.SimpleChatPayloadBuilt | app/llms/gemini.py:311-327 | the chat engine's payload is built iff the query is a string or list; it is the stored and query turns with generationConfig |
| Gemini.JsonEnginePayloadBuilt | app/llms/gemini.py:282-298 | the JSON engine's payload is built iff the schema's description is a string, with the schema as the single declaration |
| Gemini.EngineSchemaChecked | app/llms/gemini.py:282-285 | a converted schema passes the tool check iff its description is a string |
| VectorStore.ResolveEmbedder | app/vector_store/qdrant_store.py:24-39 | "openai" and "splade" pick those embedders, ignoring case; another name is a ValueError; a callable is used as is; anything else is a TypeError |
| VectorStore.ResolveEmbedderIgnoresCase | app/vector_store/qdrant_store.py:25-29 | the embedder choice does not depend on the name's case |
| VectorStore.ConfiguredPipeline | app/vector_store/qdrant_store.py:42 | the configured pipeline defaults to [] |
| VectorStore.ParseUuid | app/vector_store/qdrant_store.py:71 | a string parses as a UUID exactly when, after removing the urn/uuid prefixes, braces and hyphens, 32 hex digits remain; the UUID is those digits lower-cased |
| VectorStore.ParseCanonical | app/vector_store/qdrant_store.py:69-71 | the canonical form of a UUID parses back to it |
| VectorStore.NormalizeId | app/vector_store/qdrant_store.py:68-77 | ints pass through; strings become UUIDs; any other type is "Point ID must be str or int" |
| VectorStore.NormalizeIdIdempotent | app/vector_store/qdrant_store.py:68-77 | normalising an already-normal id gives it back |
| VectorStore.SplitSparse | app/vector_store/qdrant_store.py:80 | indices and values have equal length and pair up with the entries; an empty dict gives empty lists |
| VectorStore.SplitSparseRoundTrip | app/vector_store/qdrant_store.py:79-80 | zipping the split lists gives back the entries |
| VectorStore.ToPointVector | app/vector_store/qdrant_store.py:79-89 | a dense vector is kept; a sparse one is split into paired indices and values |
| VectorStore.FormatPointSpec | app/vector_store/qdrant_store.py:64-91 | a missing text, then a missing id, is a KeyError; a bad id type is a ValueError; otherwise the point has the normalised id, the embedded text's vector and the payload `{text, metadata or {}}` |
| VectorStore.FormatAll | app/vector_store/qdrant_store.py:100 | all items format or the batch fails with an item's error; on success there is one point per item, in order |
| VectorStore.Lookup | app/vector_store/qdrant_store.py:94-97 | a lookup returns a stored record with that id |
| VectorStore.LookupUnique | app/vector_store/qdrant_store.py:94-97 | with unique ids, each record is the one found under its id |
| VectorStore.UpsertOne | app/vector_store/qdrant_store.py:94-97 | an upsert stores the point and keeps only old records besides it |
| VectorStore.UpsertOneLookup | app/vector_store/qdrant_store.py:94-97 | after an upsert the id finds the new point; other ids are unaffected |
| VectorStore.UpsertOneUnique | app/vector_store/qdrant_store.py:94-97 | an upsert keeps ids unique |
| VectorStore.LastWith | app/vector_store/qdrant_store.py:101 | within a batch the last point with an id is the one found; none iff no point has it |
| VectorStore.UpsertAllLookup | app/vector_store/qdrant_store.py:99-101 | after a batch upsert an id finds the batch's last point with that id, else the old record |
| VectorStore.UpsertAllUnique | app/vector_store/qdrant_store.py:99-101 | a batch upsert keeps ids unique |
| VectorStore.Scroll | app/vector_store/qdrant_store.py:140-144 | the scroll is a prefix of at most 10000 records |
| VectorStore.MergeGet | app/vector_store/qdrant_store.py:148 | `{id, **payload}`: a payload key overrides `id` |
| VectorStore.FullGet | app/vector_store/qdrant_store.py:166 | the full data reads the payload's keys, else the point id under `id` |
| VectorStore.Filter | app/vector_store/qdrant_store.py:133 | `filter` keeps exactly the elements that pass |
| VectorStore.DeleteExactly | app/vector_store/qdrant_store.py:139-155 | a record survives iff it is beyond the first 10000 or fails the condition; a delete call happens iff some scrolled record passes |
| VectorStore.DeleteIdsUnique | app/vector_store/qdrant_store.py:152-155 | deletion keeps ids unique |
| VectorStore.Rewritten | app/vector_store/qdrant_store.py:165-168 | one `update_func` output per matching point, in scroll order |
| VectorStore.RebuildSpec | app/vector_store/qdrant_store.py:164-169 | the update loop succeeds iff every rewritten item formats, and yields exactly their points |
| VectorStore.RebuildErrSticks | app/vector_store/qdrant_store.py:169 | a formatting error aborts the whole update |
| VectorStore.SliceTo | app/vector_store/qdrant_store.py:135 | `items[:k]` keeps the first k items; a negative k drops the last -k |
| VectorStore.ApplyStep | app/vector_store/qdrant_store.py:131-135 | a step never adds items |
| VectorStore.PipelineSubsequence | app/vector_store/qdrant_store.py:129-137 | the retrieved items are an order-preserving subsequence of the query results |
| VectorStore.PipelineSatisfiesFilters | app/vector_store/qdrant_store.py:132-133 | every surviving item passes every callable step |
| VectorStore.PipelineShrinks | app/vector_store/qdrant_store.py:131-135 | the pipeline never adds items |
| VectorStore.SearchStepBounds | app/vector_store/qdrant_store.py:134-135 | a `["search", k]` step with k >= 0 leaves at most k items |
| VectorStore.SearchStepNegative | app/vector_store/qdrant_store.py:135 | a negative k drops the last -k items |
| VectorStore.InertStepSkipped | app/vector_store/qdrant_store.py:131-135 | steps of any other shape are ignored |
| VectorStore.EffectivePipeline | app/vector_store/qdrant_store.py:131 | a given pipeline replaces the configured one, even when empty |
| VectorStore.GivenEmptyPipelineKeepsHits | app/vector_store/qdrant_store.py:131-135 | a retrieval given the empty pipeline returns the hits unchanged, whatever pipeline the store was configured with |
| VectorStore.UnconfiguredKeepsHits | app/vector_store/qdrant_store.py:41 | a store built without a pipeline returns the hits unchanged when no pipeline is given |
| VectorStore.ItemsOf | app/vector_store/qdrant_store.py:129 | one item per query result, in order |
| VectorStore.ItemOfGet | app/vector_store/qdrant_store.py:129 | an item reads the payload's keys, else the id and score |
| VectorStore.EmbeddingStore.constructor | app/vector_store/qdrant_store.py:22-42 | the store keeps the embedder and the configured pipeline (default []) over a collection with unique ids |
| VectorStore.EmbeddingStore.Insert | app/vector_store/qdrant_store.py:93-97 | a formatting error writes nothing; otherwise the formatted point is upserted |
| VectorStore.EmbeddingStore.Inserts | app/vector_store/qdrant_store.py:99-101 | all items are formatted before any write; one error writes nothing; otherwise all points are upserted |
| VectorStore.EmbeddingStore.Retrieve | app/vector_store/qdrant_store.py:103-137 | the loop runs the effective pipeline over the query results, limited to top_k or the collection size |
| VectorStore.EmbeddingStore.Delete | app/vector_store/qdrant_store.py:139-155 | exactly the scrolled points that satisfy the condition are removed; a delete call happens iff any match |
| VectorStore.EmbeddingStore.Update | app/vector_store/qdrant_store.py:157-172 | the matching scrolled points are rebuilt from `update_func`'s output and upserted; a formatting error writes nothing |

## Findings

| source | as written | input that shows it | evidently intended | confidence | as-written member | corrected member |
|---|---|---|---|---|---|---|
| app/llms/gemini.py:108-113 | `_get_project_id_gcp` and `_get_project_location_gcp` call `self.get_metadata`, which `GeminiModel` does not define | `GeminiModel(..., deployed_gcp=True)`: construction raises AttributeError for every metadata server answer, and the constructor turns it into RuntimeError | call the defined helper `_get_metadata_gcp` | not executed | Gemini.ProjectLocationGcpAsWritten (Gemini.ProjectLocationGcpAlwaysFails) | Gemini.ProjectLocationGcp (Gemini.ProjectLocationGcpSpec) |

## Left out

- I/O: the Mongo and Qdrant clients, HTTP requests, the LLM calls, the embedders, `print` and logging are not modelled. Their results are parameters, and each store is a sequence in the class that owns it.
- Floating point: statistics, similarities and coordinates are `real`. `np.hypot`, the temperature service and float-to-text rendering (the `render` parameter) are inputs. No bit-exact float result is claimed.
- Randomness: `random.sample` is replaced by a sample parameter. It must be a sub-multiset of the user's records of size min(n, 10).
- Clocks: `datetime.utcnow()` timestamps are parameters.
- Concurrency: the non-atomic find/delete/insert upserts and the module-level singletons are not modelled. Every operation is sequential.
- Telemetry.FactorValue: a stored `None` under `altitude`, `speed_x`, `speed_y` or `speed_z` is read like a missing key and defaults to 0. In the source `data.get(key, 0)` returns that None, and `_bucketize`, `np.hypot` or `abs` then raises TypeError, which aborts `analyze_health_data`. `Reading` holds one Option per key, so it cannot tell the two cases apart. Elsewhere `Json.GetOr` returns a stored None just as `.get` does.
- `str.lower()` is modelled on ASCII letters only.
- DocStore.Matches: a Mongo equality filter also matches an array field that contains the value, and a `None` value also matches a missing field; the model reads the filter as plain equality of the stored value, which agrees with Mongo on the scalar ids and names the handlers filter on.
- DocStore.DocumentStore.AddItem: `insert_one` adds a driver-generated `_id` to the caller's dict, so the stored and returned item carry it (and so do the values `add_suggestions` and the agri `add_alert` return). The driver-generated `_id` and the mutation of the caller's dict are not modelled.
- Trips.TripHandler.AddTrip: a `trip_data` without `trip_id` raises KeyError in the source. `Trip.tripId` is a plain string, so the record type excludes that case.
- Telemetry.HealthDataHandler.AddHealthData: a `health_data` without `point_id` raises KeyError in the source. `HealthRecord.pointId` is a plain string, so the record type excludes that case.
- Exception texts are abstracted to short error strings, except where a message constant is part of the behaviour.
- Telemetry.HealthDataHandler.AnalyzeHealthData: `start_time`/`end_time` are accepted and ignored, as in the source. The per-bucket `else None` branch is proved unreachable rather than modelled.
- `UserHandler.add_taste_group` (taste scoring) is not part of this model: it calls the embedding service and does float normalisation.
- `get_by_id`, `get_all`, `get_by_query`, `update_by_id` and `delete_by_query` of the document store are not modelled. They are plain queries that the core does not call.
- `AgriProductHandler`, `AgriServiceHandler`, `get_alert_by_id`, `get_alerts_by_hub_id(s)` and the agri `UserHandler`, `WeatherHandler` and `FieldHandler` are not part of this model. They are plain inserts and queries outside the core.
- Agri.FormatSuggestions: every way an item can fail to be read (not a dict, no dict `product_service`, a non-list section) collapses to one error, not a distinct Python exception.
- Agri.AlertStorageHandler.SuggestForDate: the hit lists are returned alongside the result, because the source only prints their lengths. Mongo's `$regex` on `^date` is modelled as a string prefix test.
- Alerts.AlertId: two users can collide on one alert id (`AlertIdShared`). This is modelled as written, not corrected, because it is a property of the id format rather than evidently unintended.
- ToolFormatter.ProcessPropertiesLoop: `process_properties` mutates the input dicts in place (popping `title`, overwriting `properties`/`items`). The model builds new values, so aliasing between shared definitions is not captured. A `fuel` bound stands in for Python's recursion limit.
- The `schema_json()` fallback for old pydantic versions and `dict_to_pydantic_model` (which uses `exec`) are not modelled.
- Gemini.MakeRequestWithRetries: `requests.post` is a function of the attempt index, and `time.sleep` and logging are dropped.
- GeminiModel authentication, `generate_content`, `generate_funccall_content` (HTTP, `raise_for_status` and response parsing) and `GeminiImageUnderstandingEngine` are not modelled: they are network and file I/O.
- VectorStore: the Qdrant collection is a sequence of records in scroll order with unique ids, which the constructor requires as the server's guarantee. New ids are appended; Qdrant's ordering of the scroll by id is not modelled.
- VectorStore.ParseUuid: `uuid.UUID` forms that `int(x, 16)` also accepts (a sign, surrounding whitespace, a `0x` prefix, underscores) are treated as non-UUIDs. They fall back to the name-based UUID, which stays abstract (`nameUuid`).
- VectorStore.NormalizeId: a `bool` id becomes the int 0 or 1, because `bool` is an `int` subclass in Python; the Qdrant client's own id validation is not modelled.
- VectorStore.EmbeddingStore.Retrieve: the embedder, callable steps and `update_func` are total; exceptions raised inside them are not modelled. The similarity search is a parameter. An empty list step raises IndexError.
- VectorStore.SearchStepBounds: the "at most k items" bound is proved only for k >= 0. A negative k drops the last -k items (`SearchStepNegative`).
- Collection creation, `delete_collection` and `reset_collection` are not modelled.
