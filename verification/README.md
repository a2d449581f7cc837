# Verification of the HRM query compiler, the agent backend and its migrations

This project models the parts of the repository whose correctness is not visible in any one function: a
query compiler, a streaming reader, a confirmation protocol, two repair migrations, three interleaved
in-process protocols, two session stores, the agent loop, a rate limiter and the workload aggregation.
`dafny verify dfyconfig.toml` checks all of it.

- **Dynamic queries** (`DynamicQuery`, `DynamicQueryBuilder`, `Sql`, `SqlMeaning`, `Like`,
  `QueryMeaning`, `QueryAdmission`, `QueryLegality`, `QueryCompilerCorrect`, `QueryCompilerSafety`,
  `Calendar`). The compiler turns a structured query into a statement with placeholders and a parameter
  list. `DynamicQueryBuilder` is the code as written, pushing parameters one by one;
  `DynamicQuery.Compile` specifies it; `Sql.Evaluate` gives statements their meaning over joined rows
  with three-valued logic; `QueryMeaning.Interpret` says what a query means without any statement;
  `QueryAdmission` and `QueryLegality` say who may ask what, by the names of datasets, fields and
  permissions. Equal sort keys keep the order in which records are found. Section 9.7.1 of the
  PostgreSQL manual gives `Like.Matches`, section 21.4.1 of ECMA-262 the calendar. `ILIKE` folds
  character by character with a function of the database that neither touches nor produces `\`, `%` or
  `_`. `lenient` says whether `Date.parse` rolls an overlong day of month into the next month or refuses
  it; the results hold either way.
- **Event stream** (`EventStream`, `EventStreamMeaning`). Text arrives in arbitrary chunks; `parse`
  stands for `JSON.parse` of a payload followed by the reading of its first candidate, which throws on a
  null part or on parts that cannot be iterated.
- **Confirmations** (`CanonicalJson`, `JsonText`, `PayloadGraph`, `PayloadTrees`, `ConfirmationReply`,
  `Confirmation`, `ConfirmationMeaning`). Payloads are values in a heap that may share and may be
  cyclic; what storage returns is parsed into a fresh heap. A number is its shortest decimal text.
  Canonical key order is the order in which a JavaScript object enumerates keys inserted in sorted
  order: array indices numerically, then the others by character; section 3.2.3 of RFC 8785 sorts the
  indices with the other keys. The digest is an arbitrary function of the canonical text, and the
  database may arrange object keys as it likes.
- **Migrations** (`CodeFileMigration`, `CodeFileMeaning`, `SharedLinkMigration`, `SharedLinkMeaning`).
  Every write, read, batch and final update may fail, and failing runs may be repeated. A file's `_id`
  is its position in the collection, and an absent and a null scope field are one value. No other
  process writes meanwhile.
- **Interleaved protocols** (`PlaneRefresh`, `PlaneRefreshMeaning`, `McpSessions`, `McpSessionsMeaning`,
  `WriteQueue`). Each is a state machine over the steps between awaits; any sequence of steps is a
  schedule, remote answers and failures are inputs of the steps, and a promise is named by the call that
  created it. The classes carry the fields of the originals, and every method is proved to be one step.
- **Sessions** (`SessionStores`), **agent** (`Agent`, `AgentProperties`, `AgentFallback`,
  `AgentMeaning`), **limiter** (`RateLimiter`) and **workload** (`Workload`). Model and tools are
  functions of how often they were asked, which covers every behaviour in one run.

The methods of the classes are proved against functions that specify them. Modules and lemmas named for
meaning then say what those functions do without calling them: by literal names, bounds, positions and
first differences, or by a definition of their own.

Some properties one might expect do not hold of the code. Each has a lemma that gives the failing case
and one that says exactly when the property does hold.

- A turn of the agent can execute tools, `update_task` included, after a look-up result that requires
  confirmation, when it completes a status change by itself:
  `AgentProperties.FallbackIgnoresConfirmation`. The promise holds exactly when no status change is
  requested or no iteration is allowed: `StopsIffNoStatusChangeIsPending`.
- A tool of an MCP server can be called though no initialisation of its session has succeeded:
  `McpSessionsMeaning.FailedInitialisationLetsCallsThrough`. A call goes on without waiting exactly when
  its scope had a session as it began, `GoesOnIff`; every other call has waited for success,
  `OthersWaited`.
- Two overlapping `saveIntegration` calls can lose a field: `WriteQueue.WorkspaceCanBeLost` is a
  schedule, `ConcurrentSavesMayLoseFields` the exact condition over all schedules.
- A date printed for the API is not always accepted when sent back, because its year is not padded:
  `Calendar.EarlyYearIsRefused`, `FirstOfMay999`. It is accepted exactly in years of four digits:
  `PrintedDayReadsBack`.
- A valid session can be unknown to both session stores when the clock goes back:
  `SessionStores.ClockMustNotGoBack`. They answer what was issued and revoked exactly when it did not go
  back over an expiry: `AnswersHistoryIff`. The two stores give the same answer exactly when there is an
  auth file, since looking a session up in a missing file throws: `StoresAgree`.
- The shared-link migration relies on write errors that report every write that did not happen:
  `SharedLinkMigration.UnreportedFailureLosesGrant` shows what an error without reports leads to, and
  `BatchIsSafeIffAttributed` that a batch is safe exactly when every such write belongs to a link
  recorded as failed. Results over whole runs assume complete reports.
- Targets of a confirmation have no digest: targets that storage changes are handed out as changed,
  `Confirmation.ChangedTargetsAreHandedOut`.

Every lemma carries `{:induction false}`, so an induction is always written out in its body.

## Model

| member | source | states |
|---|---|---|
| QueryCompilerCorrect.CompilerPreservesMeaning | hrm-server/src/dynamicQuery.js:85-187 | for every accepted query, context and sound database, evaluating the emitted statement with its parameters gives exactly the page a direct interpreter of the query gives |
| QueryCompilerCorrect.ClauseMeansFilter | hrm-server/src/dynamicQuery.js:117-140 | each of the nine operators, NULL tests included, is true of a record exactly when the filter holds of it |
| QueryCompilerCorrect.ClausesMeanFilters | hrm-server/src/dynamicQuery.js:117-140 | the conjunction of all filter clauses is true exactly when every filter holds, wherever their parameters start |
| QueryCompilerCorrect.ScopeMeansVisible | hrm-server/src/dynamicQuery.js:56-83 | the mandatory scope clauses are true exactly of the records the actor may see |
| QueryCompilerCorrect.TestsMeanWanted | hrm-server/src/dynamicQuery.js:94-140 | scope and filters together keep a record exactly when it is visible and every filter holds |
| QueryCompilerCorrect.StatementChooses | hrm-server/src/dynamicQuery.js:183 | the WHERE clause over the joined rows keeps exactly the records asked for, in order |
| QueryCompilerCorrect.MatchingIsLookup | hrm-server/src/dynamicQuery.js:9 | with unique company and id in the joined table, a join finds the one related row |
| QueryCompilerCorrect.JoinRowsAreRecords | hrm-server/src/dynamicQuery.js:9-20 | inner and left joins give one record per base row that has its partner, or per base row |
| QueryCompilerCorrect.ListPagesAgree | hrm-server/src/dynamicQuery.js:162-184 | pages of lists: selected fields, sort, limit and offset mean what the query says |
| QueryCompilerCorrect.GroupsAgree | hrm-server/src/dynamicQuery.js:149-152 | grouping the projected rows partitions the records by their group fields, no group empty |
| QueryCompilerCorrect.GroupRowsAgree | hrm-server/src/dynamicQuery.js:149-161 | one output row per group: its keys and the value of every aggregation over its members |
| QueryCompilerCorrect.AggregatePagesAgree | hrm-server/src/dynamicQuery.js:149-184 | pages of aggregates agree with the interpreter, ordering by output names included |
| Sql.SortIsStable | hrm-server/src/dynamicQuery.js:181-183 | ORDER BY gives a sorted permutation that keeps equal keys in their order |
| Sql.LessIsStrictTotalOrder | hrm-server/src/dynamicQuery.js:164-173 | the order of column values is a strict total order |
| Sql.ConjunctionTrueIff | hrm-server/src/dynamicQuery.js:183 | in three-valued logic a conjunction is true exactly when every test is |
| SqlMeaning.TruthTables | hrm-server/src/dynamicQuery.js:183 | AND and OR of three truth values, and when a comparison is unknown |
| Sql.CellsDetermineRow | hrm-server/src/dynamicQuery.js:149-162 | an output row is determined by its names and cells |
| SqlMeaning.AnswerIsWindow | hrm-server/src/dynamicQuery.js:183 | row i of the answer is row offset + i of the sorted rows, and there are as many as the limit and the rows allow |
| SqlMeaning.KeyOrder | hrm-server/src/dynamicQuery.js:165-182 | the first sort item on which two rows differ decides between them |
| SqlMeaning.CellOrder | hrm-server/src/dynamicQuery.js:165-182 | ascending: numbers and days by size, texts by their first difference, NULL last; descending the reverse |
| SqlMeaning.LessIsTextBefore | hrm-server/src/dynamicQuery.js:165-182 | texts compare by their first difference, a prefix before what it begins |
| SqlMeaning.CountMeans | hrm-server/src/dynamicQuery.js:157-160 | COUNT(*) counts the rows, COUNT of a column those that are not NULL |
| SqlMeaning.SumAndAverageMean | hrm-server/src/dynamicQuery.js:157-160 | SUM and AVG of the numbers among the values, NULL when there are none |
| SqlMeaning.LeastAndGreatestMean | hrm-server/src/dynamicQuery.js:157-160 | MIN and MAX are values below and above all the others, NULL when there are none |
| QueryCompilerSafety.PlaceholdersAreOneToK | hrm-server/src/dynamicQuery.js:90-92 | the statement spells $1 to $k in order, each once, and k parameters are sent |
| QueryCompilerSafety.ValuesStayInParameters | hrm-server/src/dynamicQuery.js:90-140 | two queries that differ in values only, asked by actors of the same audience, give the same statement |
| QueryCompilerSafety.CompanyIsolation | hrm-server/src/dynamicQuery.js:61-62 | databases that agree on the rows of the actor's company give the same page |
| QueryCompilerSafety.AggregatesDependOnOwnRows | hrm-server/src/dynamicQuery.js:56-83 | an accepted aggregate gives the same page on databases that agree on the actor's own rows |
| QueryCompilerSafety.AttendanceWindow | hrm-server/src/dynamicQuery.js:141-144 | all records of an accepted attendance query lie in one window of 366 calendar days |
| QueryCompilerSafety.AttendanceListWindow | hrm-server/src/dynamicQuery.js:141-144 | every date an accepted attendance list returns lies in that window |
| QueryCompilerSafety.ListRowShowsRecord | hrm-server/src/dynamicQuery.js:162 | every returned list row shows one of the records asked for |
| QueryCompilerSafety.DateRangeIsAFilter | hrm-server/src/dynamicQuery.js:116-131 | the checked date range is one of the filters that is applied |
| DynamicQueryBuilder.BuildDynamicQuery | hrm-server/src/dynamicQuery.js:85-187 | the compiler as written computes the specified plan or error for every query and context |
| DynamicQueryBuilder.BuildScope | hrm-server/src/dynamicQuery.js:56-83 | scopeFor pushes exactly the specified parameters and returns the specified clauses or error |
| DynamicQueryBuilder.BuildFilter | hrm-server/src/dynamicQuery.js:117-140 | one filter is accepted exactly when specified, with its clause and the parameters pushed for it |
| DynamicQueryBuilder.BuildFilters | hrm-server/src/dynamicQuery.js:116-140 | the filter loop: all clauses, parameters in order, and the last date range |
| DynamicQueryBuilder.BuildAggregations | hrm-server/src/dynamicQuery.js:152-160 | the alias set and projections of the aggregation loop |
| DynamicQueryBuilder.BuildStatement | hrm-server/src/dynamicQuery.js:146-186 | output, page parameters and statement after the checks |
| DynamicQueryBuilder.ParamList.Add | hrm-server/src/dynamicQuery.js:91-92 | add appends the value and answers its placeholder |
| DynamicQueryBuilder.PassesValidValueIff | hrm-server/src/dynamicQuery.js:51-52 | validValue accepts a date exactly when it names a real day |
| QueryAdmission.AdmittedIff | hrm-server/src/dynamicQuery.js:56-180 | a query is compiled exactly when its actor is identified and holds the permission its dataset asks for (the team's attendance needs a department too), nothing is wrong with it, and it aggregates the actor's own records at most |
| QueryAdmission.RefusedWith | hrm-server/src/dynamicQuery.js:56-180 | which of the three errors every other query gets: unauthenticated, forbidden or invalid |
| QueryLegality.ProperIffLegal | hrm-server/src/dynamicQuery.js:94-177 | nothing is wrong with a query exactly when its lists are short enough, its names are known and used once, its filters, aggregations, sort items and page are legal, and attendance is asked for within 366 days |
| QueryLegality.LegalIsAccepted | hrm-server/src/dynamicQuery.js:117-140 | a filter is accepted exactly when its field has a type that the operator and the values fit: 1 to 20 listed values, two ordered bounds, a text that is not blank, `eq` or `ne` for texts and null |
| QueryLegality.LegalRangeIsAccepted | hrm-server/src/dynamicQuery.js:141-144 | attendance needs a `between` on work_date; the last one counts and spans fewer than 366 days |
| QueryLegality.RegistryIs | hrm-server/src/dynamicQuery.js:7-39 | the three datasets, their fields by name and type, and that an email can only be shown and filtered |
| QueryLegality.FieldIsRead | hrm-server/src/dynamicQuery.js:12-35 | a field is the column of its name, a department's name that of the joined department |
| QueryLegality.TablesAre | hrm-server/src/dynamicQuery.js:9-30 | which tables are read, and how they are joined |
| QueryLegality.DefaultsAre | hrm-server/src/dynamicQuery.js:17-37 | the fields a list shows when none are selected |
| QueryLegality.SeenRecords | hrm-server/src/dynamicQuery.js:56-83 | an admitted actor sees his company's employees, his own leave, and his own attendance or his department's |
| QueryLegality.PageIsBounded | hrm-server/src/dynamicQuery.js:175-186 | page size and offset, at most 100 and 10000, 20 and 0 when absent, and the names in the plan |
| Like.ContainsIsCaseInsensitiveSubstring | hrm-server/src/dynamicQuery.js:132-134 | a text matches the pattern built for `contains v` exactly when v occurs in it up to case, whatever pattern characters v holds |
| Like.ContainsPatternMatches | hrm-server/src/dynamicQuery.js:134 | the escaped pattern between percent signs finds exactly the texts that contain the value |
| Like.EscapeMatchesLiterally | hrm-server/src/dynamicQuery.js:134 | an escaped value matches itself and nothing else |
| Like.PercentTriesSuffixes | hrm-server/src/dynamicQuery.js:134 | a leading percent sign stands for any text |
| Like.UnderscoreTakesOne | hrm-server/src/dynamicQuery.js:134 | a leading underscore stands for any one character |
| Calendar.ValidDateIffRealDay | hrm-server/src/dynamicQuery.js:51 | validDate accepts exactly the real days of years 0000 to 9999, whichever way the engine parses |
| Calendar.StringOrderIsChronological | hrm-server/src/dynamicQuery.js:129 | comparing accepted dates as strings compares them on the calendar |
| Calendar.DayNumberCountsDays | hrm-server/src/dynamicQuery.js:143 | day numbers advance by one per calendar day, and 1970-01-01 is day 0 |
| Calendar.NextDateIsNext | hrm-server/src/dynamicQuery.js:143 | the day after a day is a day, and no day lies between |
| Calendar.DayNumberOrdersDates | hrm-server/src/dynamicQuery.js:143 | day numbers order real dates as the calendar does and determine them |
| Calendar.DateFromInvertsDayNumber | hrm-server/src/dynamicQuery.js:51 | printing the parsed day gives the date back |
| Calendar.PrintedDayReadsBack | hrm-server/src/dynamicQuery.js:208-211 | a day printed for the API, its year without padding, is accepted when sent back exactly when its year has four digits, and then denotes the same day |
| Calendar.EarlyYearIsRefused | hrm-server/src/dynamicQuery.js:210 | a day of a year before 1000 is accepted in its padded form, but printed as text that is refused |
| Calendar.FirstOfMay999 | hrm-server/src/dynamicQuery.js:210 | the first of May 999 is printed as 999-05-01, and is 0999-05-01 when padded |
| EventStream.ReadStream | be/src/geminiClient.js:30-43 | reading in chunks consumes exactly the payloads of a one-shot split of the whole text |
| EventStream.ReadChunks | be/src/geminiClient.js:30-39 | after any chunks the buffer is the tail and the answer that of the events so far |
| EventStream.ReadEvents | be/src/geminiClient.js:35-38 | the event loop consumes the data of each event in order and stops at the first error |
| EventStream.ReadTail | be/src/geminiClient.js:40-43 | the flush consumes the data of the tail, if it has any |
| EventStream.SplitIsIncremental | be/src/geminiClient.js:33-34 | splitting more text is splitting the carried tail with it |
| EventStream.TailDataIsEventData | be/src/geminiClient.js:36-41 | cutting lines at `\n` or at `\r?\n` gives the same data |
| EventStream.BlankTailHasNoData | be/src/geminiClient.js:40 | a tail of white space has no data |
| EventStream.DeltasAreText | be/src/geminiClient.js:21-29 | what onText hears concatenates to the text, also when reading breaks off midway |
| EventStream.ConsumePayload | be/src/geminiClient.js:21-29 | one payload appends its parts, texts and usage, or its parts up to the one that throws |
| EventStream.RunAttempt | be/src/geminiClient.js:9-53 | one attempt: its answer if any, what onText heard, and whether it may be retried: 429, 5xx or a TypeError, be it of the connection or of the reading |
| EventStream.Generate | be/src/geminiClient.js:8-55 | at most three fetches, each before the last retryable, and the outcome is that of the last |
| EventStream.AnswerIsLastAttempt | be/src/geminiClient.js:8-56 | an answer is the one-shot reading of the last attempt, whose deltas concatenate to its text |
| EventStreamMeaning.ReadingIsFold | be/src/geminiClient.js:20-46 | the parts of the answer are the parts of all payloads in order, calls included, its text is theirs and its usage the last one given; when a payload cannot be read, all that came before it is kept, and of it the parts before the bad one |
| EventStreamMeaning.AttemptAnswersIff | be/src/geminiClient.js:9-46 | an attempt answers exactly when its stream is whole, all its payloads can be read, and some part has a text or calls a function |
| EventStreamMeaning.RetriedIff | be/src/geminiClient.js:15-50 | an attempt may be retried exactly after 429 or 5xx, a thrown TypeError, or a stream that fails with one first |
| EventStreamMeaning.GoodReading | be/src/geminiClient.js:20-46 | a reading is without error exactly when every payload can be read |
| EventStreamMeaning.SplitCutsAtSeparators | be/src/geminiClient.js:33 | the events and the tail are what stands between the separators, which are the leftmost ones |
| EventStreamMeaning.PayloadsOfEvents | be/src/geminiClient.js:34-37 | each event gives its data as a payload, unless that is empty or [DONE] |
| EventStreamMeaning.DataOfLines | be/src/geminiClient.js:35 | the data of an event is that of its data lines, one after the other |
| EventStreamMeaning.LinesCutAtNewlines | be/src/geminiClient.js:35 | lines hold no newline and make up the text again with one between any two |
| EventStreamMeaning.TrimTrims | be/src/geminiClient.js:35 | trimming removes white space at both ends and nothing else |
| CanonicalJson.CanonicalTextEqualIffSame | be/src/mutationConfirmationService.js:46-82 | two payloads have equal canonical text exactly when they are equal up to key order at every depth |
| CanonicalJson.CanonEqualIffSame | be/src/mutationConfirmationService.js:62-70 | canonical values are equal exactly when the originals are equal up to key order |
| CanonicalJson.CanonIdempotent | be/src/mutationConfirmationService.js:46-71 | canonicalising twice is canonicalising once |
| CanonicalJson.CanonIsSame | be/src/mutationConfirmationService.js:46-71 | a canonical value is its original up to key order |
| CanonicalJson.TextDeterminesValue | be/src/mutationConfirmationService.js:81 | JSON text is a prefix code: the value can be read off it |
| CanonicalJson.SortedIsUnique | be/src/mutationConfirmationService.js:63-68 | sorted objects with the same lookups are equal |
| CanonicalJson.KeyOrder | be/src/mutationConfirmationService.js:63 | the enumeration order of keys is a strict total order |
| JsonText.StringifyDenotes | be/src/mutationConfirmationService.js:81 | the text that is hashed is JSON by the grammar of RFC 8259 and denotes the payload: escapes, separators and nesting |
| JsonText.EscapesOnlyIfNeeded | be/src/mutationConfirmationService.js:81 | a character is escaped only when JSON demands it, by a letter where there is one |
| JsonText.NumbersAreValues | be/src/mutationConfirmationService.js:48-51 | every number of the grammar is a value that payloads may hold |
| JsonText.KeyLessIff | be/src/mutationConfirmationService.js:62-67 | keys that are array indices come first, by their number, the others follow as texts |
| JsonText.IndexKeyIff | be/src/mutationConfirmationService.js:62-67 | an array index is a number below 2^32 - 1, written without leading zeros |
| PayloadGraph.AcceptsExactlyTheAcyclic | be/src/mutationConfirmationService.js:46-71 | a payload is canonicalised exactly when no walk in it repeats an array or object and all it reaches is plain data under allowed keys |
| PayloadGraph.Visitor.Visit | be/src/mutationConfirmationService.js:46-71 | the recursion over the shared set computes the specified result and restores the set on success |
| PayloadGraph.Visitor.VisitItems | be/src/mutationConfirmationService.js:52-58 | the array branch: every item in order below the array, the array on the path meanwhile |
| PayloadGraph.Visitor.VisitEntries | be/src/mutationConfirmationService.js:60-70 | the object branch: keys in sorted order, reserved keys refused |
| PayloadGraph.ReturnsCanonicalForm | be/src/mutationConfirmationService.js:46-71 | the result is the payload written out as a tree in canonical order, fixed under canonicalisation |
| PayloadGraph.PayloadsAccepted | be/src/mutationConfirmationService.js:73-78 | canonicalPayload accepts exactly the non-empty plain objects of acyclic JSON data |
| PayloadGraph.PayloadTextEqualIffSameData | be/src/mutationConfirmationService.js:46-82 | accepted payloads in any heaps have equal text exactly when they are the same data up to key order |
| PayloadGraph.SharingIsAccepted | be/src/mutationConfirmationService.js:53-56 | a value held twice is not a cycle |
| PayloadGraph.NodeOk | be/src/mutationConfirmationService.js:52-70 | an array or object is accepted exactly when it is off the path, its keys are allowed and every child is accepted |
| PayloadGraph.SetKeyIsInsert | be/src/mutationConfirmationService.js:62-67 | inserting keys in sorted order enumerates them in the canonical order |
| JsonText.ReservedKeysAre | be/src/mutationConfirmationService.js:64 | the three reserved keys |
| JsonText.PayloadRefusals | be/src/mutationConfirmationService.js:73-77 | what is no plain object, and an object without keys, are refused as such |
| JsonText.ExoticsAreRefused | be/src/mutationConfirmationService.js:60 | an instance of a class is no payload and no part of one |
| PayloadTrees.TreeDecidesPayload | be/src/mutationConfirmationService.js:46-78 | whatever heap it lives in, a payload that is written out as a tree gets what the tree gives, result or refusal |
| PayloadTrees.ParsedPayloadIsTree | be/src/mutationConfirmationService.js:73-78 | canonicalPayload of parsed JSON accepts exactly the non-empty objects without reserved keys and returns their canonical form |
| PayloadTrees.LoadedTree | be/src/mutationConfirmationService.js:145-152 | parsing JSON into a fresh heap gives a valid heap and a value that is written out as that JSON |
| PayloadTrees.ReadBack | be/src/mutationConfirmationService.js:145-152 | canonicalising what storage returns in any key order gives the canonical payload again |
| PayloadTrees.OnceMore | be/src/mutationConfirmationService.js:80-82 | a canonical payload canonicalised once more is itself |
| ConfirmationReply.ConfirmsOnlyByVerbAndId | be/src/mutationConfirmationService.js:84-93 | a reply confirms exactly when it is the verb and the id in any case and spacing, and nothing else |
| ConfirmationMeaning.UuidIff | be/src/mutationConfirmationService.js:3 | an id is five groups of hexadecimal digits with version 1 to 5 and variant 8, 9, a or b |
| ConfirmationMeaning.ConfirmIff | be/src/mutationConfirmationService.js:84-93 | the letters of the verb `confirm`, each in either case |
| ConfirmationMeaning.XacIff | be/src/mutationConfirmationService.js:84-93 | the letters of the first word of the Vietnamese verb, each in either case |
| ConfirmationMeaning.NhanIff | be/src/mutationConfirmationService.js:84-93 | the letters of its second word, each in either case |
| Strings.BlankIff | be/src/mutationConfirmationService.js:91 | white space is what ECMA-262 lists as such |
| Confirmation.PayloadHandedOutAtMostOnce | be/src/mutationConfirmationService.js:132-155 | over all runs no two answers hand out the payload of one confirmation |
| Confirmation.HandsOutWhatWasPreviewed | be/src/mutationConfirmationService.js:109-155 | when storage only reorders keys no integrity failure occurs, and what is handed out is the previewed canonical payload and targets, to the same user, company, conversation and kind, before expiry |
| Confirmation.HandedOutIff | be/src/mutationConfirmationService.js:132-155 | when storage only reorders keys, a reply is handed the payload exactly when it names a preview of the same user, company, conversation and kind, made before, not yet redeemed, and not expired |
| Confirmation.BoundIffSameActor | be/src/repositories.js:165-172 | two contexts are bound alike exactly when the companies are equal and user and conversation are so up to the case of their letters |
| ConfirmationMeaning.PromptedIff | be/src/mutationConfirmationService.js:109-130 | a preview is prompted for exactly when ids, kind, clock, targets and payload are in order and it could be stored |
| ConfirmationMeaning.PreviewFailsWith | be/src/mutationConfirmationService.js:109-130 | every other preview fails with the first check that it does not pass |
| ConfirmationMeaning.ReplyAnswers | be/src/mutationConfirmationService.js:132-141 | a reply uses up exactly the open row of the actor it means; without one it is answered with nothing, and with an error for a malformed identity or kind |
| ConfirmationMeaning.NamesIff | be/src/mutationConfirmationService.js:4-5 | the forms of company ids and mutation kinds |
| Confirmation.TamperedPayloadIsNeverHandedOut | be/src/mutationConfirmationService.js:142-147 | with a digest without collisions the payload handed out is the previewed one even if storage changes payloads and targets of rows arbitrarily, their digests and bindings staying as they are |
| Confirmation.ChangedTargetsAreHandedOut | be/src/mutationConfirmationService.js:145-153 | targets have no digest: changed by storage they are handed out as changed, whenever they are a payload |
| Confirmation.MatchingReplyConsumes | be/src/repositories.js:165-172 | a matching reply consumes the record even when the integrity check then fails, and touches no other row |
| Confirmation.MutationConfirmationService.CreatePreview | be/src/mutationConfirmationService.js:109-130 | the whole new table and answer of a preview, every error in its order |
| Confirmation.MutationConfirmationService.ConsumeExplicitConfirmation | be/src/mutationConfirmationService.js:132-155 | the whole new table and answer of a reply, every error in its order |
| Confirmation.MutationConfirmationService.Open | be/src/mutationConfirmationService.js:96-107 | a service exists exactly for a time to live between one and thirty minutes |
| Confirmation.MutationConfirmationRepository.Create | be/src/repositories.js:139-149 | one row is inserted as bound, or nothing |
| Confirmation.MutationConfirmationRepository.ConsumeBound | be/src/repositories.js:165-172 | an unconsumed, unexpired row that matches identity and kind is marked and returned, and can never be matched again; nothing else changes |
| Confirmation.StepIsLegal | be/src/repositories.js:139-172 | no request removes a row or changes what it is bound to; only a matching reply releases it |
| CodeFileMigration.CleanRunLeavesNoDuplicates | LibreChat/config/migrate-code-file-duplicates.js:115-182 | after a live run without errors no two code-execution files of one scope share a name |
| CodeFileMigration.RunChangesOnlyStaleNames | LibreChat/config/migrate-code-file-duplicates.js:115-164 | whatever fails, the newest of every group keeps its name, only names change, files outside groups are unchanged and no duplicate appears |
| CodeFileMigration.RerunsKeepTheNewest | LibreChat/config/migrate-code-file-duplicates.js:68 | over any series of failing runs the newest of every group keeps its name, only names change and no duplicate appears |
| CodeFileMigration.SecondRunRenamesNothing | LibreChat/config/migrate-code-file-duplicates.js:68 | once no name is shared a run finds no group, renames nothing and reports no error |
| CodeFileMigration.DryRunWritesNothing | LibreChat/config/migrate-code-file-duplicates.js:143-147 | a dry run leaves every file as it is |
| CodeFileMigration.RunKeepsRepaired | LibreChat/config/migrate-code-file-duplicates.js:115-164 | the invariant of the group loop under every failure |
| CodeFileMigration.NextAvailableName | LibreChat/config/migrate-code-file-duplicates.js:38-46 | the search ends within the number of taken names + 1 candidates with the first free one and reserves it |
| CodeFileMigration.SearchIsBounded | LibreChat/config/migrate-code-file-duplicates.js:38-46 | pigeonhole: n - 1 taken candidates need as many names in the set |
| CodeFileMigration.SuffixInjective | LibreChat/config/migrate-code-file-duplicates.js:26-30 | different numbers give different names |
| CodeFileMeaning.SuffixIsCandidate | LibreChat/config/migrate-code-file-duplicates.js:26-30 | a candidate is the name up to its extension, the number in parentheses, and the extension |
| CodeFileMeaning.ExtensionIs | LibreChat/config/migrate-code-file-duplicates.js:27 | the extension runs from the last dot of the last path component, unless that dot begins it or it is `..` |
| CodeFileMeaning.PartsMakeUpTheName | LibreChat/config/migrate-code-file-duplicates.js:27-28 | what stands before and after the number makes up the old name exactly when it has no extension or does not end with a slash |
| CodeFileMeaning.NewNameIsLeast | LibreChat/config/migrate-code-file-duplicates.js:123-141 | every renamed file gets the first candidate that no code-execution file of its conversation and tenant has and no newer file of its group was given |
| CodeFileMeaning.StaleAreNewestFirst | LibreChat/config/migrate-code-file-duplicates.js:118-121 | the files of a group are taken newest first, a missing time counting as 0, ties by collection order |
| CodeFileMeaning.GroupWrites | LibreChat/config/migrate-code-file-duplicates.js:143-147 | a group renames exactly the files whose update takes effect |
| CodeFileMeaning.GroupCounts | LibreChat/config/migrate-code-file-duplicates.js:149-159 | and counts as renamed or as one error, by whether all went well |
| CodeFileMeaning.DryGroupCounts | LibreChat/config/migrate-code-file-duplicates.js:143-159 | a dry run counts the renames of every group that can be read |
| CodeFileMeaning.CountIsCardinality | LibreChat/config/migrate-code-file-duplicates.js:94 | scanned files are the code-execution files |
| Strings.DecimalReadsBack | LibreChat/config/migrate-code-file-duplicates.js:29 | numbers are written in digits that stand for them, without leading zeros |
| CodeFileMigration.FreshNamesAreFresh | LibreChat/config/migrate-code-file-duplicates.js:136-141 | the names given to one group are new in its scope and different |
| CodeFileMigration.GroupIsNewestAndStale | LibreChat/config/migrate-code-file-duplicates.js:117-121 | the stale files of a group are all but the newest, each once |
| CodeFileMigration.FirstIsNewest | LibreChat/config/migrate-code-file-duplicates.js:118-120 | the stable sort puts the newest file first, ties by collection order, a missing time as 0 |
| CodeFileMigration.FileCollection.Migrate | LibreChat/config/migrate-code-file-duplicates.js:72-195 | files and results of a run, and the gate of the index build |
| CodeFileMigration.FileCollection.ProcessGroup | LibreChat/config/migrate-code-file-duplicates.js:115-164 | one group: planned renames, writes up to the failure, counters |
| CodeFileMigration.FileCollection.Write | LibreChat/config/migrate-code-file-duplicates.js:143-147 | the update loop applies the renames before the failing one |
| CodeFileMigration.FileCollection.PlanRenames | LibreChat/config/migrate-code-file-duplicates.js:121-141 | one new name for every file of the group but the newest |
| SharedLinkMigration.SafeOverAllRuns | LibreChat/config/migrate-shared-link-permissions.js:153-302 | over any series of failing runs whose write errors report every write that did not happen, a link loses isPublic only after every grant it needs has succeeded, and one marked false never gains a public grant |
| SharedLinkMigration.RunKeepsSafe | LibreChat/config/migrate-shared-link-permissions.js:52-311 | one run of any options, with such reports, keeps every link either with its field or with all grants it needs |
| SharedLinkMigration.GrantedIffSettled | LibreChat/config/migrate-shared-link-permissions.js:153-228 | the grants the code asks for are these: the owner an owner entry by himself, the public of a marked link a viewer entry by the owner if known, both with the expiry of the link |
| SharedLinkMigration.RunKeepsGrantees | LibreChat/config/migrate-shared-link-permissions.js:153-228 | whatever fails, a run makes no public entry an owner and gives new entries to the owner and to the public of marked links only |
| SharedLinkMigration.RunTouchesOnlyItsLinks | LibreChat/config/migrate-shared-link-permissions.js:153-228 | entries of anything else are left alone |
| SharedLinkMeaning.ReportIs | LibreChat/config/migrate-shared-link-permissions.js:40-122 | which runs report missing roles, an abort with the number of links marked non-public, nothing to do or a dry run, exactly, and that these change nothing |
| SharedLinkMeaning.UpsertGives | LibreChat/config/migrate-shared-link-permissions.js:167-223 | an upsert sets role, grantor and expiry, keeps those it is not given, and sets the tenant of new entries only |
| SharedLinkMeaning.WritesThatHappen | LibreChat/config/migrate-shared-link-permissions.js:233-256 | of the writes of a batch exactly those that happen have an effect, under every bulk outcome |
| SharedLinkMeaning.FieldsAreRemoved | LibreChat/config/migrate-shared-link-permissions.js:291-306 | the field is removed of every link without a recorded failure, or of those an update that fails has reached |
| SharedLinkMeaning.ThrowingKeepsFields | LibreChat/config/migrate-shared-link-permissions.js:261-302 | a run that throws before its last step removes no field |
| SharedLinkMigration.EachLinkIsBatchedOnce | LibreChat/config/migrate-shared-link-permissions.js:261-289 | each link is in exactly one batch, in cursor order, and no batch is empty or too large |
| SharedLinkMigration.BatchGrants | LibreChat/config/migrate-shared-link-permissions.js:153-259 | a batch that throws nothing has made all grants of a link not recorded as failed, when every write that did not happen belongs to a recorded link |
| SharedLinkMigration.FailureIsAttributed | LibreChat/config/migrate-shared-link-permissions.js:237-256 | when every write that did not happen is reported, it is recorded for the link it belongs to |
| SharedLinkMigration.BatchIsSafeIffAttributed | LibreChat/config/migrate-shared-link-permissions.js:237-256 | whatever was granted before, a batch has made the grants of every link not recorded as failed exactly when every write that did not happen belongs to a recorded link |
| SharedLinkMigration.UnreportedFailureLosesGrant | LibreChat/config/migrate-shared-link-permissions.js:238-302 | after a write error that reports no write, the field of a public link is removed without any grant |
| SharedLinkMigration.QuietRunMigratesAll | LibreChat/config/migrate-shared-link-permissions.js:125-309 | a run in which nothing fails grants everything and removes every isPublic field |
| SharedLinkMigration.FurtherRunsChangeNothing | LibreChat/config/migrate-shared-link-permissions.js:125-309 | after a run in which nothing fails every further run changes nothing, whatever fails in it |
| SharedLinkMigration.MalformedOwnerStopsRemoval | LibreChat/config/migrate-shared-link-permissions.js:164-179 | an owner that is no object id stops the run before any field is removed |
| SharedLinkMigration.RunAddsPublicOnlyIfMarked | LibreChat/config/migrate-shared-link-permissions.js:197-228 | a public grant appears only for a link whose field is there and not false |
| SharedLinkMigration.RunKeepsTenants | LibreChat/config/migrate-shared-link-permissions.js:174-223 | entries keep their tenant, and new ones have the tenant of their link |
| SharedLinkMigration.Migration.MigrateSharedLinkPermissions | LibreChat/config/migrate-shared-link-permissions.js:21-311 | links, grants and report of a run: missing roles, abort, dry run, live run, and the error of a final update that fails |
| SharedLinkMigration.Migration.ProcessAll | LibreChat/config/migrate-shared-link-permissions.js:261-289 | the cursor loop and the remainder process the specified batches |
| SharedLinkMigration.Migration.ProcessBatch | LibreChat/config/migrate-shared-link-permissions.js:153-259 | grants, failed links and counters after one batch under every bulk outcome, complete reports or not |
| SharedLinkMigration.Migration.CollectOps | LibreChat/config/migrate-shared-link-permissions.js:154-231 | operations of a batch, and for each index the link it belongs to |
| SharedLinkMigration.Migration.AttributeErrors | LibreChat/config/migrate-shared-link-permissions.js:238-249 | reported indices are attributed to their links |
| SharedLinkMigration.Migration.AttributeAll | LibreChat/config/migrate-shared-link-permissions.js:250-256 | a write rejected as a whole fails every link of the batch |
| PlaneRefresh.AtMostOneRefreshPerUser | be/src/planeCredentialService.js:64-90 | under every interleaving at most one refresh per user is outstanding, and its lock is held |
| PlaneRefresh.JoinersGetTheOwnersOutcome | be/src/planeCredentialService.js:68-90 | every call that took part in a refresh gets the outcome of its owner, for its own user |
| PlaneRefresh.LockIsGoneAfterwards | be/src/planeCredentialService.js:88-90 | once the owner has its outcome its lock is gone, and no lock is left when no call waits |
| PlaneRefresh.UsersAreIsolated | be/src/planeCredentialService.js:17-21 | everything a user has is what his own steps alone would have produced |
| PlaneRefreshMeaning.DueCredentialIsRenewed | be/src/planeCredentialService.js:37-90 | a call that finds its credential due and no refresh under way is answered with the renewed credential, which is then stored, and the lock is free again |
| PlaneRefreshMeaning.UndisturbedRefreshRenews | be/src/planeCredentialService.js:70-82 | a refresh that is granted and undisturbed stores and returns the tokens and expiry of the reply where it has them, everything else as stored |
| PlaneRefreshMeaning.LoadedRefreshesIff | be/src/planeCredentialService.js:37-88 | a refresh starts, with the lock, exactly for an OAuth credential with a token that expires within the safety window, with a refresh token, a configured endpoint and a free lock; with a held one the call joins |
| PlaneRefreshMeaning.LoadedAnswersIff | be/src/planeCredentialService.js:37-67 | every other call is answered at once: not connected, fresh, or refused for want of a refresh token or configuration |
| PlaneRefreshMeaning.ResumeDelivers | be/src/planeCredentialService.js:89 | a waiting call gets the outcome, and the owner gives the lock back |
| PlaneRefreshMeaning.ReplyFailsIff | be/src/planeCredentialService.js:72-76 | a reply fails the refresh exactly when it is an error or its lifetime gives no date |
| PlaneRefreshMeaning.ReadFailsIff | be/src/integrationService.js:36 | storing fails before the write exactly when the record cannot be read, or there is none and no token to store |
| PlaneRefreshMeaning.WriteFailsIff | be/src/integrationService.js:36 | the merged record is stored unless the write fails |
| PlaneRefreshMeaning.ReloadSucceedsIff | be/src/planeCredentialService.js:79-82 | the refresh succeeds exactly when the stored record can be read back and has a token |
| PlaneRefresh.NothingStaleWithoutRefresh | be/src/planeCredentialService.js:37-62 | a credential returned without a refresh is the stored one and does not expire within the safety window |
| PlaneRefresh.EveryScheduleKeepsInv | be/src/planeCredentialService.js:31-90 | the invariant of locks, refreshes and calls under every schedule |
| PlaneRefresh.PlaneCredentialService.Resolve | be/src/planeCredentialService.js:34-37 | resolve up to its first await |
| PlaneRefresh.PlaneCredentialService.OnLoaded | be/src/planeCredentialService.js:37-88 | connected, fresh, refused, joined or started, with its lock |
| PlaneRefresh.PlaneCredentialService.OnTokenReply | be/src/planeCredentialService.js:72-78 | the answer of the token endpoint becomes the fields to save |
| PlaneRefresh.PlaneCredentialService.OnExistingRead | be/src/integrationService.js:36 | saveIntegration takes the stored record to merge into |
| PlaneRefresh.PlaneCredentialService.OnWritten | be/src/integrationService.js:36 | the merged record is stored under the user |
| PlaneRefresh.PlaneCredentialService.OnReloaded | be/src/planeCredentialService.js:79-86 | the refresh settles with the record read back, or fails |
| PlaneRefresh.PlaneCredentialService.OnResume | be/src/planeCredentialService.js:89 | a waiting call takes the outcome; the owner removes its lock |
| McpSessions.AtMostOneInitialisationPerScope | be/src/mcpClient.js:106-130 | under every interleaving a scope has at most one outstanding initialisation |
| McpSessions.EntryExactlyWhileOutstanding | be/src/mcpClient.js:124-128 | a scope has an entry exactly while an initialisation of it is outstanding |
| McpSessions.JoinersGetTheOwnersOutcome | be/src/mcpClient.js:109-129 | all calls that awaited an initialisation learn the same outcome, within their scope |
| McpSessions.SessionIdsStayInScope | be/src/mcpClient.js:12-53 | a session id kept or sent under a scope was received under that scope |
| McpSessionsMeaning.SessionsStayWithTheirUser | be/src/mcpClient.js:12-104 | the HRM server is sent a session id only for the user it gave it to |
| McpSessionsMeaning.ScopeIsUser | be/src/mcpClient.js:98-104 | only the HRM server tells users apart |
| McpSessionsMeaning.GoesOnIff | be/src/mcpClient.js:106-110 | a call sends its request without waiting for an initialisation exactly when its scope had a session as it began |
| McpSessionsMeaning.OthersWaited | be/src/mcpClient.js:109-135 | every other call that has sent its request waited for an initialisation of its scope that succeeded |
| McpSessionsMeaning.FailedInitialisationLetsCallsThrough | be/src/mcpClient.js:52-108 | the session id of an initialisation that then fails lets later calls through |
| McpSessionsMeaning.FirstCallIsAnswered | be/src/mcpClient.js:106-135 | the first call of a scope initialises it, sends its request under the last session id it was given, and is answered |
| McpSessionsMeaning.BeginIff | be/src/mcpClient.js:106-129 | a new call goes on, joins or starts an initialisation, exactly by whether its scope has a session or runs one |
| McpSessionsMeaning.ResumeIff | be/src/mcpClient.js:132-135 | after an initialisation the request is sent under the session then known, or its error passed on |
| McpSessionsMeaning.InitReplyKeepsSession | be/src/mcpClient.js:19-53 | headers keep the session id they give, no answer ends the initialisation and frees its scope |
| McpSessionsMeaning.InitTextProceeds | be/src/mcpClient.js:113-126 | a bad body ends it, the first good one is followed by the notification, the second is success |
| McpSessionsMeaning.CallReplyKeepsSession | be/src/mcpClient.js:19-53 | headers of a tool request keep the session id they give; an unreachable server fails the call |
| McpSessions.ScopesAreIsolated | be/src/mcpClient.js:98-104 | everything of a scope is what its own steps alone would have produced |
| McpSessionsMeaning.SuccessNeedsFourAnswers | be/src/mcpClient.js:111-126 | an initialisation succeeds only after initialize and notifications/initialized were both answered without error, headers and body, in order |
| McpSessions.EveryScheduleKeepsInv | be/src/mcpClient.js:106-130 | the invariant of entries, initialisations and calls under every schedule |
| McpSessions.McpClient.Initialize | be/src/mcpClient.js:106-129 | return, join or start, with the entry |
| McpSessions.McpClient.OnInitReply | be/src/mcpClient.js:19-53 | headers of an initialisation request: session kept, or settled and entry removed |
| McpSessions.McpClient.OnInitText | be/src/mcpClient.js:54-126 | body of an initialisation request: next request, success or failure |
| McpSessions.McpClient.OnResume | be/src/mcpClient.js:132-135 | after initialisation the tool request is sent with the known session, or the error passed on |
| McpSessions.McpClient.OnCallReply | be/src/mcpClient.js:52-53 | headers of a tool request: session kept under the scope |
| McpSessions.McpClient.OnCallText | be/src/mcpClient.js:54-95 | the tool result ends the call |
| WriteQueue.FileIsFoldOfSuccesses | be/src/applicationAuth.js:22-24 | under every interleaving and failure the file is the fold of the successful mutators in call order |
| WriteQueue.OneWriterAtATime | be/src/applicationAuth.js:23-24 | operations never overlap |
| WriteQueue.QueueNeverBlocks | be/src/applicationAuth.js:24 | after a failure the next operation can still take its steps |
| WriteQueue.StepKeepsSerial | be/src/applicationAuth.js:22-24 | operations settle in call order, each working on what those before it left |
| WriteQueue.EveryScheduleIsDefined | be/src/applicationAuth.js:22-24 | what an operation succeeded with is what its mutator makes of what the successes before it left |
| WriteQueue.TurnCompletes | be/src/applicationAuth.js:22-24 | an operation whose turn it is and that nothing disturbs replaces the file in five steps |
| WriteQueue.Store.UpdateStore | be/src/applicationAuth.js:24 | a call is chained after the tail and becomes the tail |
| WriteQueue.Store.OnStarted | be/src/applicationAuth.js:24 | an operation starts when the one before it has settled, either way |
| WriteQueue.Store.OnRead | be/src/applicationAuth.js:22-24 | a missing file reads as the empty store |
| WriteQueue.Store.OnMutated | be/src/applicationAuth.js:24 | the mutator is applied to what was read, or throws |
| WriteQueue.Store.OnTempWritten | be/src/applicationAuth.js:23 | the new store is written beside the file |
| WriteQueue.Store.OnRenamed | be/src/applicationAuth.js:23 | the rename replaces the file |
| WriteQueue.ConcurrentSavesMayLoseFields | be/src/integrationService.js:36 | in every schedule in which two saves of one record succeed, the fields given to the first only survive exactly when the second read the record after the first was written, or they were stored so before |
| WriteQueue.WorkspaceCanBeLost | be/src/integrationService.js:36 | a schedule of two overlapping first saves that leaves the fields of the second only |
| WriteQueue.SerialSaveKeepsFields | be/src/integrationService.js:36 | a save that reads the current record keeps every field not given, and other records |
| SessionStores.StoresAgree | be/src/applicationAuth.js:70-72 | on every run, at every time and for every clock, the file-backed and the SQL form answer alike exactly when a file has been written or no token is given |
| SessionStores.FileExact | be/src/applicationAuth.js:70-72 | for every clock, a token resolves to u exactly when issued to u, not revoked, not expired, and not purged by a session created later |
| SessionStores.SqlExact | be/src/repositories.js:49-62 | for every clock, the table that marks and purges resolves a token to u under exactly the same condition |
| SessionStores.FileExistsOnceWritten | be/src/applicationAuth.js:22-24 | there is an auth file exactly after the first event that writes one |
| SessionStores.AnswersHistoryIff | be/src/applicationAuth.js:70-72 | both stores answer what was issued and revoked exactly when the clock did not go back over an expiry between a purge and the look-up |
| SessionStores.SteadyClockAnswersHistory | be/src/applicationAuth.js:70-72 | when no event is later than the look-up, a token resolves to u exactly when issued to u, not revoked and not expired |
| SessionStores.RevokedNeverResolves | be/src/applicationAuth.js:72 | a revoked token resolves to nobody, whatever the clock does |
| SessionStores.ClockMustNotGoBack | be/src/applicationAuth.js:70 | a run in which the clock goes back and a valid session is unknown |
| SessionStores.FileAuthStore.CreateSession | be/src/applicationAuth.js:70 | the file after it: the sessions that have not expired, and the new one last |
| SessionStores.FileAuthStore.GetUserForSession | be/src/applicationAuth.js:71 | the first session of the token that has not expired, if its user exists; an error when there is no file |
| SessionStores.FileAuthStore.RevokeSession | be/src/applicationAuth.js:72 | the file after it: the sessions of other tokens |
| SessionStores.SessionRepository.DeleteExpiredSessions | be/src/repositories.js:61 | expired and revoked rows are deleted |
| SessionStores.SessionRepository.Insert | be/src/repositories.js:51-53 | a row is inserted for an existing user |
| SessionStores.SessionRepository.CreateSession | be/src/applicationAuth.js:70 | purge, then insert |
| SessionStores.SessionRepository.FindUser | be/src/repositories.js:54-59 | the first unrevoked, unexpired row of the token whose user exists |
| SessionStores.SessionRepository.RevokeSession | be/src/repositories.js:60 | rows of the token are marked |
| AgentProperties.ModelCallsAreBounded | be/src/agentService.js:101-131 | a turn makes at most maxToolIterations + 1 model calls |
| AgentProperties.LoopStopsForConfirmation | be/src/agentService.js:119-128 | after a loop result that requires confirmation no tool is executed |
| AgentProperties.StopsIffNoStatusChangeIsPending | be/src/agentService.js:106-128 | no tool is ever executed after any result that requires confirmation exactly when no status change is requested or no iteration is allowed |
| AgentProperties.FallbackIgnoresConfirmation | be/src/agentService.js:147-164 | a run in which the fallback updates the task after a look-up that requires confirmation |
| AgentFallback.FallbackIsJustifiedAndHonest | be/src/agentService.js:147-185 | every call the turn makes by itself looks up the tasks by the requested name while not exactly one matches, looks up the states of the one matching task, or, last, gives that task the one matching state, with exactly these arguments; and the turn reports a changed status exactly when that succeeded |
| AgentFallback.KnownTaskIsCompleted | be/src/agentService.js:157-184 | once the task and the states of its project are known, one matching state is set, several are put to the user, none leaves the turn to the model |
| AgentFallback.NoFallbackWithoutRequest | be/src/agentService.js:147-148 | without a requested status change the turn makes no call by itself |
| AgentFallback.UpdateArguments | be/src/agentService.js:178-180 | the update names the task, its project and the state |
| AgentMeaning.TurnIsExplained | be/src/agentService.js:101-132 | every turn ends for a reason that its trace shows, and executes for the model exactly calls that it asked for, in order: all of them when it ends with an answer, a status change or at the loop limit |
| AgentMeaning.CallsAreExecuted | be/src/agentService.js:111-129 | the calls of one reply are executed in order up to the one that ends the turn, and why it does |
| AgentMeaning.LeavePreviewIff | be/src/agentService.js:64-84 | a result is shown as a leave preview exactly when it is flagged, names an id, and has a known field with a simple value |
| AgentMeaning.SuccessIff | be/src/agentService.js:139-165 | a tool succeeded when its result says so by a value that is not null, false, zero or empty |
| AgentMeaning.ItemsAre | be/src/agentService.js:25-30 | the items of a result are its list, or the list in its `results` |
| AgentMeaning.IncludesIff | be/src/agentService.js:48 | one text includes another that occurs somewhere in it |
| AgentMeaning.ActiveLabelsAre | be/src/agentService.js:34-41 | the active names and groups |
| AgentMeaning.PlanePrefixIsDropped | be/src/agentService.js:156 | the prefix of a project id is dropped, once |
| Agent.RequiresIffFlaggedSomewhere | be/src/agentService.js:53-62 | a result requires confirmation exactly when some object in it, texts of JSON included, has the flag |
| Agent.TaskMatchesIff | be/src/agentService.js:45-51 | a task matches when titled exactly so, or containing the name while none is |
| Agent.MatchingStatusesIff | be/src/agentService.js:32-43 | a state matches by name, or by group for an active request that no name fits |
| Agent.AgentService.RunTurn | be/src/agentService.js:88-132 | the loop computes the specified trace and outcome |
| Agent.AgentService.RunCalls | be/src/agentService.js:111-129 | the tool calls of one reply: abort, failure, confirmation, recording |
| Agent.AgentService.CompletePendingStatusChange | be/src/agentService.js:147-185 | task look-up, then statuses and update |
| Agent.AgentService.ChooseAndUpdate | be/src/agentService.js:157-184 | statuses known or listed, none, one or several matches, the update |
| RateLimiter.AtMostTenPerWindow | be/src/server.js:278-285 | a window admits at most ten attempts of a key |
| RateLimiter.FirstTenAreAdmitted | be/src/server.js:278-285 | an attempt is admitted exactly when it is among the first ten since its window was opened, whatever the clock does |
| RateLimiter.AtMostTwentyPerInterval | be/src/server.js:278-285 | any fifteen minutes, both ends included, admit at most twenty |
| RateLimiter.KeysAreIndependent | be/src/server.js:279-283 | what a key has used depends on its own attempts only |
| RateLimiter.WindowsAreApart | be/src/server.js:281-282 | two attempts of a key are in one window or in windows that end a window apart |
| RateLimiter.RefusedUntilReset | be/src/server.js:282-284 | a refused key stays refused exactly until its window is over |
| RateLimiter.AuthRateLimits.AllowAuthAttempt | be/src/server.js:279-285 | the new table and whether the attempt is admitted |
| Workload.CountsAreDirect | be/src/workManagement.js:348-358 | every assigned member has one entry whose counts equal the direct counts |
| Workload.TotalsAreConserved | be/src/workManagement.js:336-358 | task counts add up to all assignee entries, overdue counts to those of the overdue tasks |
| Workload.OverdueIsLate | be/src/workManagement.js:354 | overdue is what was due at a known time before now and is neither completed nor cancelled |
| Workload.OverdueTasksAreLate | be/src/workManagement.js:336-342 | the overdue tasks are the late ones, each as often as it is there |
| Workload.EntriesAreFirstSeen | be/src/workManagement.js:348-358 | the entries are the members as they first appear among the assignees, in that order |
| Workload.GetTeamWorkload | be/src/workManagement.js:348-358 | the nested loops build the map of entries in insertion order |

## Left out

- The text of statements: the model stops at the statement's structure; quoting and spelling are fixed by it.
- The checks on unknown keys and on the JavaScript shape of a query: queries are typed values, and fields of the wrong type are values of the model's Json type where the code distinguishes them.
- Text length in UTF-16 units and code-unit order: characters are Unicode scalar values, which differs above U+FFFF only.
- Collations and the column types behind `text` comparison: texts compare character by character.
- The year 0000, which PostgreSQL refuses and `validDate` accepts.
- Driver conversions of numeric columns in `executeDynamicQuery`, and its transaction and timeout.
- UTF-8 decoding before the event stream, and waiting times between attempts; timeouts are error outcomes.
- Holes in arrays, accessors and the sign of zero in payloads; hexadecimal form of the digest.
- `MutationConfirmationRepository.consume`, which the service does not call.
- Samples in migration reports, progress logs and counts of existing grants in dry runs.
- Grant times (`grantedAt`) in the shared-link migration, and its counters of warnings, skips and upserted grants.
- JSON-RPC ids and content-type rules of MCP answers: a body is a result or an error.
- Abort signals of MCP calls: an aborted request is one that fails.
- User records of the auth file other than ids; registration and password checks. Which users exist does not change during a run of the session stores.
- Changes of a confirmation's digest, identity, kind or expiry by storage.
- `normalizeLabel` and the pattern that finds a status-change request: the first is an arbitrary function, the second an optional request.
- Token usage totals and the wording of the agent's own answers; task and state ids that are not texts.
- Object identity in the agent and workload models: entries updated in place are values there, so aliasing is not modelled.
- `getProjectProgress`: one count and one rounded division.
- PlaneRefresh.AtMostOneRefreshPerUser: does not exclude a second refresh after the first has released its lock, because a caller that read the record earlier may start one.
