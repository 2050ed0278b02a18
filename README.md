# Define Consult backend: work records, agents and user store

This project models the Define Consult backend in Dafny. It covers the part that runs after the LLM
call returns and around the records the agents write.

- **AI service.** The service routes a prompt to a model by keywords. It picks a provider, with a
  fallback to Gemini. From the reply it extracts a JSON candidate: a fenced `json` block, or the text
  from the first `{` to the last `}`. It then fills required fields with defaults. When decoding
  fails it returns a fixed fallback payload.
- **Work-record lifecycle.** An API handler stores a record: a transcript, a generated-content row or
  an agent-activity row. It appends activity rows and enqueues a background task. The Celery worker
  moves the record's status to `processing`, then to `completed`/`success` or to `failed`/`error`.
  It merges the results or the error into the record. The status and result endpoints read records
  back, filtered by owner.
- **User store.** It covers create (409 on a taken uid), get, patch and delete. Sync is an upsert.
  The profile endpoints fill in defaults, apply partial updates and perform an anonymising soft
  delete.

The database is one class, `Store.Database`. It holds one map per table, keyed by primary key, and
the activity log as a sequence. `Store.TaskQueue` records every message handed to the broker.

Some things are inputs of the model rather than computed by it:

- the providers' replies;
- the JSON decoder;
- the ids and timestamps the database assigns;
- the driver's error texts.

Two rules recur throughout:

- An `except Exception` handler turns an `HTTPException` raised inside its own `try` into a 500. The
  500's detail is the prefix followed by `"<code>: <detail>"` (`Store.Rewrap`).
- A column declared with `onupdate=func.now()` is stamped only when a flush actually changes the row.
  Users (`Models.Touched`), transcripts (`AiModels.TranscriptTouched`, applied by every transcript
  commit through `Store.Database.CommitTranscript`) and generated content (`NarrativeArchitect.Edited`)
  follow it.

Module layout:

- `wrappers`, `json` and `text` are value helpers: `Option`/`Result`, Python's JSON values, and
  Python string operations.
- `models` and `ai_models` hold the records and the table constraints.
- `store` holds the database, the queue, the HTTP errors and the newest-first selection.
- The rest follow the program's files: `ai_service`, `celery_worker`, `market_maven`,
  `narrative_architect`, `user_whisperer`, `users` and `profile`.

## Model

| member | source | states |
|---|---|---|
| Text.FindFrom | backend/services/ai_service.py:226-229 | `str.find` from a start position returns -1 or a position at or after the start |
| Text.Find | backend/services/ai_service.py:226-229 | `str.find` returns -1 or a position |
| Text.FindFromIsFirst | backend/services/ai_service.py:226-229 | `find` from `start` is -1 exactly when the pattern does not occur at or after `start`; otherwise it is the first such occurrence |
| Text.FindIsFirst | backend/services/ai_service.py:226-233 | `find` succeeds exactly when the pattern is contained, and then returns its first occurrence |
| Text.RFindFrom | backend/services/ai_service.py:230-233 | a downward search returns -1 or a position no greater than its start |
| Text.RFind | backend/services/ai_service.py:230-233 | `str.rfind` returns -1 or a position |
| Text.RFindFromIsLast | backend/services/ai_service.py:230-233 | a downward search is -1 exactly when there is no occurrence at or below `i`; otherwise it is the last one |
| Text.RFindIsLast | backend/services/ai_service.py:230-233 | `rfind` succeeds exactly when the pattern is contained, and then returns its last occurrence |
| Text.SliceBound | backend/services/ai_service.py:226-233 | Python's slice-bound normalisation always yields a position inside the sequence |
| Text.Take | backend/api/agents/narrative_architect.py:275-279 | `s[:n]` is a prefix of `s` of length at most `n`, and all of `s` when `s` is no longer than `n` |
| Text.StripLeftIsSuffix | backend/services/ai_service.py:226-229 | left-stripping returns a suffix that starts with a non-space, with only spaces removed before it |
| Text.StripRightIsPrefix | backend/services/ai_service.py:226-229 | right-stripping returns a prefix that ends with a non-space, with only spaces removed after it |
| Text.StripIsTrimmedInfix | backend/services/ai_service.py:226-229 | `strip()` returns a contiguous infix with only whitespace cut at both ends, which neither starts nor ends with whitespace |
| Text.Lower | backend/services/ai_service.py:83 | `lower()` keeps the length and lowers each character |
| Text.TitleAfter | backend/services/ai_service.py:546 | `title()` keeps the length |
| Text.TitleAfterAt | backend/services/ai_service.py:546 | each character of a title-cased text is its input character, raised after a non-letter and lowered after a letter |
| Text.ReplaceChar | backend/services/ai_service.py:546 | `replace('_', ' ')` keeps the length and swaps exactly the matching characters |
| Text.NatToString | backend/api/agents/market_maven.py:236-240 | `str(n)` for an HTTP status code is a non-empty run of decimal digits |
| Text.IntToString | backend/api/users/profile.py:196 | `str(id)` has a leading minus exactly for negative ids, and otherwise it is the digits |
| Text.NatToStringRoundTrip | backend/api/agents/market_maven.py:236-240 | reading the digits of `str(n)` back gives `n` |
| Text.NatToStringInjective | backend/api/agents/market_maven.py:236-240 | different numbers print differently |
| Json.LenOrEmpty | backend/celery_worker.py:92-94 | `len(v or [])`: 0 for any falsy value, the size of a string, list or dict, and a TypeError naming the type for a truthy scalar |
| Json.Has | backend/services/ai_service.py:244-246 | `key in v` is dict membership, list membership or substring, and raises exactly on a scalar or null |
| Json.GetAttr | backend/celery_worker.py:77-81 | `v.get(k, d)` succeeds exactly on a dict and then behaves like `dict.get`; otherwise it is the AttributeError naming the type |
| Json.Merge | backend/celery_worker.py:162-168 | `{**base, **extra}` has the union of the keys; later keys win and every other key of `base` keeps its value; a NULL base raises |
| Models.NewUser | backend/models/models.py:16-34 | a new row holds exactly the given columns; every other column is NULL and `updated_at` is unset |
| Models.FindByUid | backend/models/models.py:20 | the lookup is None exactly when no row has the uid; otherwise it names a row with that uid |
| Models.FindByEmail | backend/models/models.py:21 | the lookup is None exactly when no row has the e-mail; otherwise it names a row with that e-mail |
| Models.InsertAdmissible | backend/models/models.py:20-28 | inserting a new id is accepted exactly when its uid and e-mail are free and its plan reference exists |
| Models.UpdateAdmissible | backend/models/models.py:20-28 | rewriting a row is accepted exactly when no other row holds its uid or e-mail and its plan exists |
| Models.KeyColumnsKeptIsAdmissible | backend/models/models.py:20-28 | a rewrite keeping uid, e-mail and plan is always accepted |
| Models.Touched | backend/models/models.py:34 | the flushed row is the assigned row, except `updated_at`, which becomes `now` exactly when an assignment changed the row and is kept otherwise |
| AiModels.ActivityHasNoInputOutputColumns | backend/models/ai_models.py:134-158 | `action_type`, `input_data` and `output_data` are not activity columns, so a constructor call using `action_type` is rejected |
| AiModels.NewTranscript | backend/models/ai_models.py:13-38 | a new transcript keeps the given fields; status defaults to "uploaded"; every result column is NULL |
| AiModels.TranscriptTouched | backend/models/ai_models.py:38 | the flushed transcript is the assigned one, except `updated_at`, which becomes `now` exactly when an assignment changed the row and is kept otherwise |
| AiModels.NewWatch | backend/models/ai_models.py:42-62 | a new watch is active and checks "daily" unless told otherwise; it has no snapshot |
| AiModels.NewUpdate | backend/models/ai_models.py:66-97 | a new update has status "new" unless told otherwise, and its AI fields are empty |
| AiModels.NewContent | backend/models/ai_models.py:101-130 | a new content row needs its content; status defaults to "draft" and the edit fields are empty |
| AiModels.NewActivity | backend/models/ai_models.py:134-158 | a new activity row stores only its columns; status is nullable and the timing columns are empty |
| Store.Rewrap | backend/api/agents/market_maven.py:236-240 | an HTTPException caught by `except Exception` becomes a 500 whose detail ends with the original detail |
| Store.RewrapShowsCode | backend/api/agents/market_maven.py:236-240 | the rewrapped detail is the prefix, the original code in decimal, ": " and the original detail |
| Store.Handled | backend/api/agents/narrative_architect.py:189-195 | `except Exception` gives 500: prefix plus the message of a plain exception, or the rewrap of an HTTPException |
| Store.TaskQueue.constructor | backend/celery_worker.py:13 | the broker starts with no messages |
| Store.TaskQueue.Send | backend/api/agents/user_whisperer.py:84 | `.delay(...)` appends exactly one message |
| Store.FindActivity | backend/api/agents/market_maven.py:212-219 | `filter(...).first()` returns the first row with that id and owner, and None exactly when no row matches |
| Store.OwnedLookupIsFilteredLookup | backend/api/agents/market_maven.py:212-219 | with distinct ids, the owner-filtered lookup is the plain lookup, kept only when that row belongs to the owner |
| Store.Database.constructor | backend/models/models.py:8-12 | the database starts with only the plans and satisfies every declared constraint |
| Store.Database.InsertUser | backend/api/users/users.py:31-33 | `add` plus `commit` stores the row exactly when the constraints accept it; nothing else changes |
| Store.Database.UpdateUser | backend/api/users/users.py:68-71 | committing a rewritten row stores it exactly when the constraints accept it; the other tables are unchanged |
| Store.Database.CommitTranscript | backend/celery_worker.py:37-39 | committing an assigned transcript stores it with the `onupdate` stamp applied against the stored row; no other table changes |
| Store.Database.RemoveUser | backend/api/users/users.py:93-94 | `delete` plus `commit` removes exactly that id; the other tables are unchanged |
| Store.Database.AddActivity | backend/celery_worker.py:42-60 | the activity log only grows: one row with a fresh id is appended |
| Store.Database.SetActivity | backend/celery_worker.py:181-188 | updating an activity rewrites only that row and keeps its id |
| Store.NewestExists | backend/api/agents/market_maven.py:303-308 | a non-empty set of rows has a row with the greatest key |
| Store.Newest | backend/api/agents/market_maven.py:303-308 | `ORDER BY key DESC LIMIT n`: at most `n` distinct ids from the set, in non-increasing key order; no omitted id outranks a listed one; all ids when `n` suffices |
| AiService.FirstMatchingGroup | backend/services/ai_service.py:81-107 | the reference first-match routing: the model of some group, and the default when no group matches |
| AiService.SelectBestModel | backend/services/ai_service.py:35-40 | the chosen model is always in `MODELS`, and never the unused Qwen model |
| AiService.SelectBestModelIsFirstMatch | backend/services/ai_service.py:81-107 | on the lower-cased prompt, routing is exactly the first matching keyword group (analysis, reasoning, writing), defaulting to Llama |
| AiService.AnalysisWordsWin | backend/services/ai_service.py:87-91 | a prompt with an analysis word goes to Llama whatever else it mentions |
| AiService.ResolvedModel | backend/services/ai_service.py:61-63 | "auto" resolves to a known model; any other preference is kept |
| AiService.GenerateCompletion | backend/services/ai_service.py:50-79 | provider order: OpenRouter (key and known model), else Gemini, else "No AI service available"; after a failure, Gemini is tried exactly when configured and not preferred |
| AiService.CompletionReraisesOnlyWithoutFallback | backend/services/ai_service.py:73-79 | an error reaches the caller only when Gemini is absent, is the preference, or itself failed |
| AiService.AutoAlwaysFallsBackToGemini | backend/services/ai_service.py:61-79 | with "auto" and a configured Gemini, a failed OpenRouter call is followed by exactly one Gemini call |
| AiService.AcquireText | backend/services/ai_service.py:212-221 | Gemini is called first exactly when configured; OpenRouter/Llama is called exactly when Gemini is absent or failed; the reply is the last call's |
| AiService.ExtractJsonCandidate | backend/services/ai_service.py:224-233 | text with neither a fence nor a brace is passed on unchanged |
| AiService.ExtractFenced | backend/services/ai_service.py:226-229 | with a closed fence, the candidate is the stripped text between the marker and the next fence |
| AiService.ExtractUnclosed | backend/services/ai_service.py:226-229 | with an unclosed fence, `find` gives -1 and the slice stops one character before the end |
| AiService.ExtractBraces | backend/services/ai_service.py:230-233 | without a fence, the candidate runs from the first "{" to the last "}"; it is empty when no "}" follows the first "{" |
| AiService.WithDefaultsSpec | backend/services/ai_service.py:244-254 | filling required fields keeps every key and value, adds exactly the required names, and gives each missing one its default |
| AiService.WithDefaultsIdempotent | backend/services/ai_service.py:244-254 | filling twice gives the same dict as filling once |
| AiService.FillRequired | backend/services/ai_service.py:244-254 | the in-place `for field in required_fields` loop computes the specified completion, including `in` on a list or string and the error on a scalar |
| AiService.TranscriptFallback | backend/services/ai_service.py:258-271 | the transcript fallback is a dict holding every required field |
| AiService.CompetitorFallback | backend/services/ai_service.py:386-420 | the competitor fallback is a dict holding every required field |
| AiService.FallbackTitle | backend/services/ai_service.py:546 | the fallback title has the content type without underscores, " for ", and then the platform, with lengths preserved |
| AiService.ContentFallback | backend/services/ai_service.py:540-563 | the content fallback holds every required field, and its title is the fallback title |
| AiService.ContentFallbackQuotesPrefix | backend/services/ai_service.py:547-551 | both fallback bodies quote exactly `source_material[:100]` |
| AiService.Analyze | backend/services/ai_service.py:211-271 | the shared analysis body makes the provider calls of `AcquireText` and returns the specified outcome |
| AiService.AnalysisOutcome | backend/services/ai_service.py:224-271 | a provider error propagates, and a decode error gives the fallback |
| AiService.AnalysisOutcomeHasRequiredFields | backend/services/ai_service.py:235-271 | every successful dict outcome holds all required fields |
| AiService.AnalyzeTranscript | backend/services/ai_service.py:155-275 | `analyze_transcript` is the shared body with the transcript fields and fallback |
| AiService.AnalyzeCompetitorData | backend/services/ai_service.py:277-424 | `analyze_competitor_data` is the shared body with the competitor fields and fallback |
| AiService.GenerateContent | backend/services/ai_service.py:426-567 | `generate_content` is the shared body with the content fields and the fallback built from its arguments |
| AiService.TranscriptDefaults | backend/services/ai_service.py:238-254 | missing insights and key themes become [], a missing sentiment becomes 0.0 and a missing summary becomes "Analysis completed"; present ones are kept |
| AiService.CompetitorDefaults | backend/services/ai_service.py:370-382 | a missing executive summary becomes the fixed text, and missing updates and recommendations become [] |
| AiService.ContentDefaults | backend/services/ai_service.py:530-536 | missing content becomes "Content generated successfully" and missing variations become [] |
| CeleryWorker.StartMetadata | backend/celery_worker.py:46-58 | the start metadata holds the transcript id, plus the file name and size (or "" and 0 when the file info is empty) |
| CeleryWorker.WithAnalysis | backend/celery_worker.py:75-81 | success stores the whole result and status "completed", copies each list field (defaulting to []) and changes nothing else |
| CeleryWorker.TranscriptRunError | backend/celery_worker.py:109-116 | a run fails exactly on an analysis error or on a result that is not a dict (AttributeError of `.get`) |
| CeleryWorker.FailedTranscript | backend/celery_worker.py:109-116 | the error handler commits status "failed" and the message, keeps what the run had assigned, and the commit stamps `updated_at` with `now` |
| CeleryWorker.MarkTranscriptProcessing | backend/celery_worker.py:37-39 | status becomes "processing" whatever it was; the commit stamps `updated_at` unless the row was "processing" already; nothing else changes |
| CeleryWorker.RunTranscript | backend/celery_worker.py:64-134 | the end row has the given id, user and agent; the committed transcript keeps its id, owner and content, and always carries the run's `updated_at` stamp `now` |
| CeleryWorker.RunTranscriptOutcome | backend/celery_worker.py:64-134 | success gives the completed transcript stamped `now`, a "success" completion row with the counts, and the reply; failure gives the failed transcript stamped `now`, an "error" row and a retry request (60 s, 3 retries) |
| CeleryWorker.StartActivity | backend/celery_worker.py:42-60 | the start row has action `transcript_processing_started` and status "processing" |
| CeleryWorker.StartTranscriptRun | backend/celery_worker.py:37-62 | the transcript is committed "processing" (stamped when that changed it), exactly the start row is appended, and the end row's id stays fresh |
| CeleryWorker.RunLoadedTranscript | backend/celery_worker.py:37-134 | for a found transcript: the start row, then the end row, the committed transcript, the queue and the outcome all as `RunTranscript` says |
| CeleryWorker.ProcessTranscriptTask | backend/celery_worker.py:23-137 | a missing transcript raises AttributeError before anything is written; otherwise the task commits the processing status, appends the start row, and then finishes as `RunTranscript` says, which includes the final `updated_at` stamp |
| CeleryWorker.FinishTranscriptRun | backend/celery_worker.py:64-134 | from the committed "processing" row, the stamped transcript, the appended rows and the queue end exactly as `RunTranscript` says; earlier rows are untouched |
| CeleryWorker.FinishAnalysedRun | backend/celery_worker.py:74-134 | the same for a value the analysis returned: a value that is not a dict fails the run at `.get`, a dict finishes as `FinishDictRun` says |
| CeleryWorker.FinishDictRun | backend/celery_worker.py:75-134 | a dict result is committed "completed" and stamped (line 83); then countable fields complete the run and anything else fails it, all as `RunTranscript` says |
| CeleryWorker.CommitCompletion | backend/celery_worker.py:85-107 | after the completed transcript's commit, the transcripts are untouched, one "success" row with the counts is appended, and the task returns the completion dict |
| CeleryWorker.CommitFailure | backend/celery_worker.py:109-134 | the transcript is committed "failed" with the message and the `onupdate` stamp (always `now` when it was not "failed" before), one "error" row is appended, and one retry request (60 s, 3 retries) is sent |
| CeleryWorker.TerminalStatusNotProtected | backend/celery_worker.py:37-39 | a rerun of a "completed" or any other transcript fails the same way: the earlier status is not protected |
| CeleryWorker.InsightsCountIsStoredLength | backend/celery_worker.py:92-94 | the stored insights count is 0 for an absent or null field, and the list length otherwise |
| CeleryWorker.CompetitorRun | backend/celery_worker.py:162-210 | metadata only gains keys: `processing_started`, then the results and completion, or the error and failure |
| CeleryWorker.ProcessCompetitorAnalysisTask | backend/celery_worker.py:140-217 | a malformed or unknown activity id writes nothing; otherwise the row's metadata and status end as `CompetitorRun` says, and a failure requests a retry |
| CeleryWorker.SummaryDefault | backend/celery_worker.py:195 | a result without "summary" reports "Analysis completed" |
| MarketMaven.CreateCompetitorWatch | backend/api/agents/market_maven.py:66-118 | one active watch is stored, and exactly one "success" `competitor_watch_created` row is appended |
| MarketMaven.CreatedWatchDefaults | backend/api/agents/market_maven.py:77-83 | a stored watch is active, and checks daily unless the request chose otherwise |
| MarketMaven.AnalysisStartMetadata | backend/api/agents/market_maven.py:174-177 | the start metadata holds `data_length` equal to the input length and the timestamp, plus `test_mode` for the test variant |
| MarketMaven.AnalyzeCompetitorData | backend/api/agents/market_maven.py:157-199 | exactly one "processing" row is appended before one task carrying that row's id is enqueued; the reply says "processing" |
| MarketMaven.ProvideTestUser | backend/api/agents/market_maven.py:354-364 | the user with the test e-mail is reused; otherwise the test user is inserted exactly when the commit accepts it, and `None` reports the refused commit; no other table changes |
| MarketMaven.TestAnalyzeCompetitorData | backend/api/agents/market_maven.py:343-400 | the test user is reused or created; on the commit error a 500 with the prefix is returned and nothing else is written; otherwise it proceeds as `/analyze` with `test_mode` |
| MarketMaven.TestUserCreatedOnlyIfPlanOneExists | backend/api/agents/market_maven.py:354-364 | the test user's insert is accepted exactly when plan 1 exists and the test uid is free |
| MarketMaven.GetAnalysisStatus | backend/api/agents/market_maven.py:202-240 | a malformed id gives 400; otherwise the call succeeds exactly for a row with this id owned by the caller, and a miss gives the rewrapped 404 |
| MarketMaven.TestGetAnalysisStatus | backend/api/agents/market_maven.py:403-437 | the same as the status lookup, without the owner filter |
| MarketMaven.MissingAnalysisIs500 | backend/api/agents/market_maven.py:221-222 | the not-found 404 reaches the client as a 500 with detail "Failed to get analysis status: 404: Analysis activity not found" |
| MarketMaven.StatusOwnership | backend/api/agents/market_maven.py:212-219 | the authenticated status is the test status when the row is the caller's, and not-found otherwise |
| MarketMaven.GetAnalysisResults | backend/api/agents/market_maven.py:243-289 | results are refused unless the caller's row has status "success", and then they are the stored results or {} |
| MarketMaven.TestGetAnalysisResults | backend/api/agents/market_maven.py:440-483 | the same as the results lookup, without the owner filter |
| MarketMaven.UnfinishedResultsNameStatus | backend/api/agents/market_maven.py:265-269 | a "processing" or NULL status is refused with a 500 naming that status ("None" for NULL) |
| MarketMaven.MissingResultsAreEmpty | backend/api/agents/market_maven.py:272 | a success without `analysis_results` replies {} |
| MarketMaven.UpdateViewOf | backend/api/agents/market_maven.py:313-322 | the view names the watch's competitor, or "Unknown" when the watch is missing, and copies the update's fields |
| MarketMaven.ListCompetitorUpdates | backend/api/agents/market_maven.py:292-331 | only the caller's updates passing the status filter are listed, newest `detected_at` first, distinct, at most `limit`, and no omitted update is newer |
| MarketMaven.FeedViews | backend/api/agents/market_maven.py:310-331 | views of a newest-first selection keep its ownership, order, distinctness and completeness |
| NarrativeArchitect.Defaulted | backend/api/agents/narrative_architect.py:59-61 | an omitted optional field takes its declared default, and an explicit value (null included) is kept |
| NarrativeArchitect.ParseRequest | backend/api/agents/narrative_architect.py:55-61 | the request keeps its required fields, and each omitted optional field gets its declared default |
| NarrativeArchitect.PlaceholderContent | backend/api/agents/narrative_architect.py:98-111 | the placeholder is "processing" with content "Processing...", and `source_data` has exactly the four source keys |
| NarrativeArchitect.GenerationStartMetadata | backend/api/agents/narrative_architect.py:118-130 | the start metadata records the content id and `source_length` equal to the length of `source_material` |
| NarrativeArchitect.GenerateContent | backend/api/agents/narrative_architect.py:86-155 | one placeholder row, one "processing" activity and one task message are added; nothing else changes |
| NarrativeArchitect.GetContentStatus | backend/api/agents/narrative_architect.py:158-195 | a malformed id gives 400; the call succeeds exactly on an owned row; a miss gives the rewrapped 404 |
| NarrativeArchitect.GetGeneratedContent | backend/api/agents/narrative_architect.py:198-240 | the same contract for the full row |
| NarrativeArchitect.ContentOfOthersIsHidden | backend/api/agents/narrative_architect.py:168-175 | another user's row answers exactly as a missing row |
| NarrativeArchitect.Truncated | backend/api/agents/narrative_architect.py:275-279 | content over 200 characters becomes its first 200 characters plus "..."; shorter content is unchanged |
| NarrativeArchitect.ListedOf | backend/api/agents/narrative_architect.py:268-282 | a listed item carries the row's id, its truncated content and its creation time |
| NarrativeArchitect.ListedRows | backend/api/agents/narrative_architect.py:243-284 | only the caller's rows passing all three filters are listed, newest first, distinct, at most `limit`, and no omitted row is newer |
| NarrativeArchitect.ListGeneratedContent | backend/api/agents/narrative_architect.py:243-290 | the listing succeeds exactly when every fetched row has a platform, and then it is `ListedRows`; otherwise it is the 500 with the validation error |
| NarrativeArchitect.ListedRowsAreViews | backend/api/agents/narrative_architect.py:256-284 | the listed rows are, position by position, the views of the newest selected ids |
| NarrativeArchitect.ListingSucceedsWithPlatforms | backend/api/agents/narrative_architect.py:75 | when all the caller's rows have a platform, as every row `generate_content` writes does, the listing succeeds |
| NarrativeArchitect.NullPlatformFailsListing | backend/api/agents/narrative_architect.py:75 | a selected row without a platform, within the limit, makes the whole listing the 500 |
| NarrativeArchitect.ListedViews | backend/api/agents/narrative_architect.py:256-282 | views of a newest-first selection keep its ownership, order, distinctness and completeness |
| NarrativeArchitect.EditedChangesOnlyEditableFields | backend/api/agents/narrative_architect.py:316-324 | only status, user edits, final version and title change, each exactly when its key is present, to the given value; unvalidated status text is stored as given; `updated_at` becomes `now` when anything changed |
| NarrativeArchitect.EditedIdempotent | backend/api/agents/narrative_architect.py:316-324 | sending the same edit twice leaves the row as after the first |
| NarrativeArchitect.EditContent | backend/api/agents/narrative_architect.py:316-327 | the conditional assignments produce the specified edited row |
| NarrativeArchitect.UpdateContent | backend/api/agents/narrative_architect.py:293-340 | a malformed id gives 400; a missing or unowned row gives the rewrapped 404; a null status fails at commit; otherwise exactly that row becomes the edited row |
| NarrativeArchitect.KeepPassing | backend/api/agents/narrative_architect.py:552-560 | the filter comprehensions keep exactly the passing items |
| NarrativeArchitect.KeepPassingAppend | backend/api/agents/narrative_architect.py:552-560 | filtering distributes over concatenation, so the kept items keep their original order |
| NarrativeArchitect.KeepPassingOne | backend/api/agents/narrative_architect.py:552-560 | a single item is kept exactly when it passes every given filter |
| NarrativeArchitect.TestListGeneratedContent | backend/api/agents/narrative_architect.py:510-562 | the result is Python's `[:limit]` of the filtered fixed list; every item passes, and a non-negative limit bounds the length |
| NarrativeArchitect.TestListFirstItems | backend/api/agents/narrative_architect.py:512-562 | with no filter, limit 1 serves content-001; the "twitter" filter serves content-002 alone |
| NarrativeArchitect.TwitterKeepsSecond | backend/api/agents/narrative_architect.py:553-554 | the "twitter" platform filter keeps content-002 alone |
| NarrativeArchitect.TestListNegativeLimit | backend/api/agents/narrative_architect.py:562 | with no filter, limit -1 serves the first two items |
| UserWhisperer.UploadMetadata | backend/api/agents/user_whisperer.py:71-75 | the file metadata has exactly three keys, and `file_size` is the decoded length |
| UserWhisperer.UploadTranscript | backend/api/agents/user_whisperer.py:36-104 | a rejected name, a decode error or an unknown user gives a 500 with nothing written; otherwise one "uploaded" transcript is stored and `(id, user)` is enqueued |
| UserWhisperer.RejectedNameIs500 | backend/api/agents/user_whisperer.py:48-52 | the 400 for a bad extension reaches the client as a 500 that quotes it |
| UserWhisperer.LookupTranscript | backend/api/agents/user_whisperer.py:273-289 | the lookup raises 404 for an unknown user and finds the row only when it is owned |
| UserWhisperer.GetTranscript | backend/api/agents/user_whisperer.py:262-313 | the call succeeds exactly on an owned row, and both 404s become 500s |
| UserWhisperer.OthersTranscriptHidden | backend/api/agents/user_whisperer.py:280-284 | another user's transcript answers exactly as a missing one |
| UserWhisperer.StartActivityRejected | backend/api/agents/user_whisperer.py:147-153 | the handler's activity constructor call always raises: its keywords are not columns |
| UserWhisperer.ProcessGuard | backend/api/agents/user_whisperer.py:116-140 | 404 for a missing user or transcript; 400 when the transcript is already "processing"; otherwise the row |
| UserWhisperer.ProcessTranscriptAsWritten | backend/api/agents/user_whisperer.py:107-213 | as written: guard errors pass through; otherwise the transcript is left "processing" with `updated_at` stamped `now`, no activity is added, and "An unexpected error occurred" is returned |
| UserWhisperer.AsWrittenLocksTranscript | backend/api/agents/user_whisperer.py:136-153 | after the as-written run, every later request for that transcript gets 400 |
| UserWhisperer.WithResults | backend/api/agents/user_whisperer.py:166-173 | success stores the results, copies each field with `.get` (NULL when absent) and sets "completed" |
| UserWhisperer.ProcessRun | backend/api/agents/user_whisperer.py:159-204 | agent success gives a "completed" transcript and a "success" activity; agent error gives "error" for both, with the message; the transcript commit applies the `onupdate` stamp |
| UserWhisperer.ProcessRunTerminates | backend/api/agents/user_whisperer.py:166-196 | a corrected run never leaves the transcript "processing"; from "processing" the commit stamps `updated_at` with `now`; a failed run leaves "error", which is not a documented transcript status |
| UserWhisperer.ProcessStartActivity | backend/api/agents/user_whisperer.py:147-153 | corrected: the start row uses the table's columns: action `transcript_processing`, status "processing", the transcript id as metadata and no error |
| UserWhisperer.ProcessTranscript | backend/api/agents/user_whisperer.py:107-213 | corrected: after the guard, the status is committed as "processing" and stamped, one start row is appended, the run ends as `ProcessRun` says, and the stored row's `updated_at` is `now` |
| UserWhisperer.LockTranscript | backend/api/agents/user_whisperer.py:142-155 | corrected: the "processing" commit stamps the row with `now`, and exactly the start row is appended |
| UserWhisperer.RunGuarded | backend/api/agents/user_whisperer.py:142-204 | the writes after the guard: the stamped "processing" row, the start row, then the outcome's commit and row update as `ProcessRun` says, ending with `updated_at` equal to `now` |
| UserWhisperer.SummaryOf | backend/api/agents/user_whisperer.py:242-249 | `has_results` holds exactly when `analysis` is not None |
| UserWhisperer.GetUserTranscripts | backend/api/agents/user_whisperer.py:216-259 | an unknown user gives the 500; otherwise all of the caller's transcripts are listed, newest first |
| UserWhisperer.SummaryViews | backend/api/agents/user_whisperer.py:233-251 | the summaries are of owned transcripts, newest first and distinct |
| UserWhisperer.GetTaskStatus | backend/api/agents/user_whisperer.py:316-365 | PENDING gives the waiting message; PROGRESS gives current, total and message; SUCCESS gives the result; any other state gives the failure text; `.get` on a non-dict gives a 500 |
| UserWhisperer.ProgressDefaults | backend/api/agents/user_whisperer.py:339-341 | progress without counters reports 0 of 1 and "Processing..." |
| Users.ColumnsDetermineRow | backend/api/users/users.py:68-69 | two rows with the same four writable columns and the same other columns are equal |
| Users.SetAttr | backend/api/users/users.py:68-69 | `setattr` writes one column and changes no other |
| Users.Patched | backend/api/users/users.py:68-69 | the row after the loop has each supplied field written and every other column unchanged |
| Users.AssignFields | backend/api/users/users.py:68-69 | the loop over the dumped fields produces the patched row, and reports whether a NOT NULL column received None |
| Users.Created | backend/api/users/users.py:31 | a created row holds the request's fields, with unset optional ones NULL |
| Users.CreatedIsAdmissible | backend/api/users/users.py:22-33 | creating is accepted exactly when the uid and the e-mail are free |
| Users.CreateUser | backend/api/users/users.py:15-36 | a taken uid gives 409 and no change; the call succeeds exactly when the uid and e-mail are free, storing the created row |
| Users.GetUser | backend/api/users/users.py:39-51 | the call gives 404 exactly when no user has the uid, and otherwise the stored row |
| Users.PatchWritesSuppliedFields | backend/api/users/users.py:68-71 | a supplied field is written with its value; an unsupplied one is unchanged |
| Users.PatchUser | backend/api/users/users.py:54-76 | 404 for an absent uid; otherwise only the supplied fields change, or a 500 with no change when the commit is refused |
| Users.DeleteUser | backend/api/users/users.py:79-98 | 404 for an absent uid; otherwise exactly that one row is removed |
| Users.SyncWritesNonNullValues | backend/api/users/users.py:115-117 | sync writes only supplied non-None values |
| Users.SyncUser | backend/api/users/users.py:101-134 | an existing uid reports "updated" with non-None values written; a new uid reports "created"; afterwards exactly one user has the uid |
| Profile.NotificationsOf | backend/api/users/profile.py:26-30 | reading stored preferences succeeds exactly when every present key holds a boolean; missing keys take the defaults True, False, True, False |
| Profile.NotificationsRoundTrip | backend/api/users/profile.py:26-30 | stored preferences read back unchanged, and an empty map reads as the defaults |
| Profile.BrandToneOf | backend/api/users/profile.py:33-37 | missing brand-tone keys take the 0.5 defaults |
| Profile.BrandToneRoundTrip | backend/api/users/profile.py:33-37 | stored brand tone reads back unchanged |
| Profile.Filled | backend/api/users/profile.py:96-100 | `x or default`: a NULL or empty map gives the default |
| Profile.ResponseAsWritten | backend/api/users/profile.py:85-107 | as written, the response validates exactly when the user has no plan and readable notifications |
| Profile.ResponseOf | backend/api/users/profile.py:85-107 | corrected: the plan is shown as text, `usage_stats` defaults to {}, preferences default, and `updated_at` falls back to `created_at` |
| Profile.AsWrittenDiffersOnlyByPlan | backend/api/users/profile.py:94 | for a user without a plan, both readings give the same response |
| Profile.GetMyProfileAsWritten | backend/api/users/profile.py:71-111 | as written: a missing user gives the fixed 500, and a plan holder gets a 500 too |
| Profile.GetMyProfile | backend/api/users/profile.py:71-111 | corrected: a missing user gives the fixed 500; otherwise the response of the stored row |
| Profile.PlanHolderProfileFails | backend/api/users/profile.py:94 | for a user with a plan, the as-written get fails while the corrected one shows the plan id |
| Profile.ProfileEdited | backend/api/users/profile.py:130-145 | each given field is overwritten; e-mail, avatar, plan, billing and usage never change |
| Profile.EditProfile | backend/api/users/profile.py:130-145 | the conditional assignments produce the specified edited row |
| Profile.StoreProfileEdit | backend/api/users/profile.py:129-148 | only the caller's row changes: it becomes the edited, stamped row, and the commit is always accepted |
| Profile.UpdateMyProfileAsWritten | backend/api/users/profile.py:114-176 | as written: a missing user gives the fixed 500 and no change; otherwise the edited, stamped row is committed, and the reply exists exactly when the as-written response does, so a plan holder gets the 500 |
| Profile.UpdateMyProfile | backend/api/users/profile.py:114-176 | corrected: a missing user gives the fixed 500 and no change; otherwise only that row becomes the edited, stamped row, and the reply is its response with the plan id as text |
| Profile.PlanHolderUpdateFails | backend/api/users/profile.py:147-159 | the update keeps the plan, so a plan holder's committed update is answered 500 as written, while the corrected reply shows the plan id when the preferences validate |
| Profile.UpdatedNotificationsAreShown | backend/api/users/profile.py:140-165 | updated notification preferences read back in the response |
| Profile.Anonymised | backend/api/users/profile.py:194-201 | the soft delete sets e-mail `deleted_<id>@deleted.com` and name "Deleted User", clears company, LinkedIn, avatar and both preference maps, and keeps every other column |
| Profile.DeleteMyAccount | backend/api/users/profile.py:179-209 | the row is kept (no id is removed); it is anonymised when no other user has that e-mail, and otherwise the call gives the fixed 500 |
| Profile.DeletedProfileShowsDefaults | backend/api/users/profile.py:96-100 | an anonymised profile shows the default preferences |
| Profile.TextOr | backend/api/users/profile.py:252-258 | `x or default`: absent or empty text gives the default |
| Profile.TestUpdateProfile | backend/api/users/profile.py:242-273 | every absent or empty field of the test reply takes its fixed default |

## Left out

- LLM and network calls are left out: OpenRouter, Gemini and the agent prompt wrappers. Each
  provider's reply is an input that may be an error; prompt text is product copy.
- `json.loads` is not computed. It is an abstract decoder parameter that returns a value or a
  decode error.
- Celery internals are left out: broker transport, `AsyncResult` lookup, retry backoff and retry
  exhaustion, and concurrent workers. Enqueues and retry requests are recorded as messages.
- Sessions and commits are simplified. A commit fails only on the declared constraints. The other
  driver errors are inputs given as text.
- Timestamps are inputs, since the clocks cannot be modelled. The commits of one task run or one
  request share a single `now`, so two `updated_at` stamps of one run are equal in the model. `processing_time_seconds` is kept as
  an opaque value because it is float arithmetic.
- UUID generation is left out; the database-assigned ids are inputs. UUID parsing and URL
  normalisation are abstracted as already-parsed inputs.
- Authentication is left out: Firebase tokens, and the conversion of the Firebase id to an integer
  user id. User ids are integers supplied by the caller. This includes profile's comparison of the
  token uid with `User.id`.
- E-mail, Stripe billing and the plans endpoints are left out; none of them is part of this model.
- Floats are opaque literals with no arithmetic: sentiment scores and the 0.5 brand-tone values.
- `lower()` and `title()` are modelled on ASCII letters only.
- Pydantic's lax coercion of notification values (0/1, "true") is modelled as a rejection.
  Validation of brand-tone floats is not modelled.
- NarrativeArchitect.UpdateContent: the editable values are assumed to be text or null. Values of
  other JSON kinds are not modelled; PostgreSQL's assignment cast would store an integer or boolean
  as its text.
- NarrativeArchitect.ListGeneratedContent: the 500 for a fetched row with a NULL platform carries the
  first lines of pydantic's ValidationError text. The trailing "For further information" line is
  version-specific and is not modelled.
- NarrativeArchitect.ListGeneratedContent and MarketMaven.ListCompetitorUpdates: the database
  `limit` is a natural number, because a negative SQL LIMIT is not modelled. Ties in the sort key
  come in an order the model leaves open.
- The content-generation worker is left out. `process_content_generation_task` is imported but
  defined nowhere, so only the enqueued message is recorded.
- As the files stand, three imports fail with ImportError: `process_content_generation_task`
  (narrative_architect.py:17), `UserUpdate`/`UserResponse` (users.py:5) and
  `UserProfile`/`UserProfileUpdate` (profile.py:13). None of the endpoints in those three files can
  be reached until the names exist. The model describes what the handlers' bodies do once they can
  be imported.
- The repeated route definitions in `user_whisperer.py` (lines 381-710) duplicate lines 36-365; they
  are modelled once. The test endpoints at lines 714-935 are not modelled.
- Not modelled: the health checks, `list_competitor_watches`, the narrative test
  generate/status/get endpoints and profile's test get endpoint. They return fixed text or plain
  row listings.
- UserWhisperer.UploadTranscript: an `UploadFile` without a file name is not modelled. Nor is
  reading a file as bytes versus text; the decoded text, or the decode error, is an input.
- Users: `UserUpdate` is imported but not defined among the schemas. It is modelled as the
  `UserCreate` fields, each optional. The `UserResponse` and `UserProfile*` response models are not
  defined either; replies are the stored rows.
- Profile.DeleteMyAccount: `is_active = False` is assigned to an attribute that is not a column, so
  it is not stored. The model keeps no such field.
- Profile: ISO formatting of timestamps is an abstract `iso` parameter.
- Agent-table foreign keys are not modelled. For example, deleting a user who still owns
  transcripts would fail at commit.

## Findings

| source | as written | input that shows it | evidently intended | confidence | as-written member | corrected member |
|---|---|---|---|---|---|---|
| backend/api/agents/user_whisperer.py:147-153 | `AgentActivity(...)` is called with `action_type` and `input_data`, which are not columns. The constructor raises TypeError after the status has been committed as "processing". The handler answers "An unexpected error occurred" and writes no activity. | any owned transcript in status "uploaded" | the start activity is logged with the table's columns, and the run ends "completed" or "error" | not executed | UserWhisperer.ProcessTranscriptAsWritten, UserWhisperer.AsWrittenLocksTranscript | UserWhisperer.ProcessTranscript, UserWhisperer.ProcessRunTerminates |
| backend/api/users/profile.py:94 | the integer column `current_plan_id` is passed to the response's `Optional[str]` field of the same name. Pydantic v2 refuses it, so `get_my_profile` and `update_my_profile` answer 500 for every user with a plan; the update is already committed when that happens. | a user with `current_plan_id = 1` | the plan is reported, as its id in text | not executed | Profile.GetMyProfileAsWritten, Profile.PlanHolderProfileFails, Profile.UpdateMyProfileAsWritten, Profile.PlanHolderUpdateFails | Profile.GetMyProfile, Profile.ResponseOf, Profile.UpdateMyProfile |
