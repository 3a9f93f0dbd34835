# Curator's Vault — a verified model of its core

Curator's Vault collects posts about developer tools. It has three parts:

- **A desktop vault.** It holds posts, projects and categories in SQLite. It includes the post form, backup and restore, and a Markdown briefing export.
- **A dashboard.** It is a small web API over the same tables: the posts of a project, the Spark Board layout of sparks and connections, and project creation.
- **A backend.** It turns GitHub repositories into briefing cards kept in an "Armory" directory. It indexes them for search, analyses the files of a project through a four-processor pipeline, and puts every remote call behind a content-addressed cache.

This project models these parts in Dafny and proves what they promise. Every network call, language-model call, embedding or vector index, `hashlib.md5`, `json.dumps` and `ast.parse` is a function passed in as a parameter. What is modelled and proved is the control flow and the data shaping around those calls.

Modules:

- `Wrappers`, `Text`, `StrOrder` and `Json` provide Python's values and the string operations the code relies on. `Json` objects are field sequences in insertion order, and a lookup finds the last binding.
- `Cache`: the cache key, the two cache backends and the manager that chooses between them.
- `Enrichment`: the branch-fallback file fetch, the repository context, the card record, the retry policy, impact analysis and the README summary.
- `Armory`: the card directory and the index built from it, with build, delete and query.
- `Codebase`: the per-project index memo, `.gitignore` patterns and the query result.
- `Processors`, `Pipeline`, `Aggregator` and `Orchestrator`: the code-analysis pipeline.
- `Rag`: the RAG engine of the desktop app and its response cleaner.
- `Vault`: the SQLite tables as maps, get-or-create, the post query builder and the cascading deletes.
- `Dashboard`: the web API handlers.
- `FileHandler`: backup, restore and the briefing export.
- `PostDetail`: the post form, its author line and its URL trigger.

Where the source changes state, the model does too:

- Classes whose methods carry `modifies`: `InMemoryCache`, `RedisCache`, `CacheManager`, `ArmoryStore`, `CodebaseService`, `AnalysisPipeline`, `RagEngine`, `VaultDb`, `FileSystem` and `PostDetailFrame`.
- Loops become `for`/`while` methods checked against a specification function. Examples are the branch loop, the context loop, the document loop, the `.gitignore` loop, the pipeline loop, the spark and connection loops and the briefing loop.

## Model

| member | source | states |
|---|---|---|
| Cache.CacheKeyIgnoresKeyOrder | backend/services/cache_manager.py:15-18 | two payloads with the same fields in any order give the same cache key for any prefix, digest and encoder |
| Cache.CacheKey | backend/services/cache_manager.py:15-18 | definition: the digest of the prefix followed by the sort_keys encoding of the payload; its key-order independence is CacheKeyIgnoresKeyOrder |
| Json.SortKeysIgnoresOrder | backend/services/cache_manager.py:17 | `sort_keys=True` canonicalisation: objects with the same distinct fields in any order are sorted to the same object |
| Json.SortKeys | backend/services/cache_manager.py:17 | definition: every object's fields, at every depth, in ascending key order; order independence is SortKeysIgnoresOrder |
| Cache.InMemoryCache.constructor | backend/services/cache_manager.py:54-56 | the dictionary starts empty |
| Cache.InMemoryCache.Get | backend/services/cache_manager.py:58-62 | a stored key gives its value, any other key gives None |
| Cache.InMemoryCache.Set | backend/services/cache_manager.py:64-66 | exactly entry `key` becomes `value`; every other entry is kept; `ttl` is ignored |
| Cache.RedisCache.constructor | backend/services/cache_manager.py:21-29 | the client is connected exactly when the ping succeeds; nothing has been sent |
| Cache.RedisCache.Get | backend/services/cache_manager.py:31-42 | a value only when connected and the server holds a non-empty value; no client, an empty reply or a failing get give None |
| Cache.RedisCache.Set | backend/services/cache_manager.py:44-51 | a connected client sends one SET with the ttl; without a client nothing is sent |
| Cache.CacheManager.constructor | backend/services/cache_manager.py:69-75 | Redis is used exactly when the type is 'redis' in any case and the connection succeeds, otherwise a fresh empty in-memory cache |
| Cache.CacheManager.GetCachedResponse | backend/services/cache_manager.py:77-79 | the backend's value under the key derived from payload and prefix |
| Cache.CacheManager.SaveToCache | backend/services/cache_manager.py:81-83 | in memory the derived key now maps to the response; with Redis one SET is sent; every other key is kept |
| Cache.SavedThenFound | backend/services/cache_manager.py:77-83 | in memory, saving a response and then asking with the same payload in any key order gives that response |
| Enrichment.TryBranchesMeaning | backend/services/enrichment_service.py:68-84 | the raw URLs are requested in branch order up to the first 200; its body is the content; no 200 gives None after trying all three |
| Enrichment.TryBranches | backend/services/enrichment_service.py:68-84 | definition: the branches tried in order up to the first 200, with the URLs requested; its meaning is TryBranchesMeaning |
| Enrichment.FetchResult | backend/services/enrichment_service.py:59-84 | definition: a truthy cache hit gives its "content", otherwise the branch search over main, master and develop |
| Enrichment.TryEachBranch | backend/services/enrichment_service.py:70-84 | the loop returns the content and the requested URLs of the branch-order rule |
| Enrichment.FetchGithubFileContent | backend/services/enrichment_service.py:59-84 | a cache hit returns its "content" with no request and no write; otherwise the branches are tried and a found text is saved under the request, a miss writes nothing; other keys are kept |
| Enrichment.RepoName | backend/services/enrichment_service.py:92 | the last '/'-separated segment of the URL, which holds no '/' |
| Enrichment.AssembleContext | backend/services/enrichment_service.py:101-113 | the context is the header plus the sections of the found files in order; the missing list is the files not found, in order |
| Enrichment.Sections | backend/services/enrichment_service.py:109-111 | definition: the heading and text of each found file, in file order; placement is SectionsExtend and FoundFileInSections |
| Enrichment.Missing | backend/services/enrichment_service.py:108-113 | definition: the files not found, in file order; MissingExactly states the iff |
| Enrichment.AddFile | backend/services/enrichment_service.py:110-113 | one turn appends a found file's section, or lists the file as missing |
| Enrichment.MissingExactly | backend/services/enrichment_service.py:108-113 | with distinct file names, a file is listed missing exactly when its content was not found |
| Enrichment.MissingUpToExactly | backend/services/enrichment_service.py:108-113 | the same among the first k files |
| Enrichment.MissingOnlyFrom | backend/services/enrichment_service.py:108-113 | only files among the first k can be missing among them |
| Enrichment.SectionsExtend | backend/services/enrichment_service.py:109-111 | the sections of a prefix of the files begin those of a longer prefix |
| Enrichment.FoundFileInSections | backend/services/enrichment_service.py:110-111 | every found file's whole section is in the context |
| Enrichment.Truncate | backend/services/enrichment_service.py:118-119 | the result is a prefix of the input, of length min(n, length) |
| Enrichment.FetchContextFiles | backend/services/enrichment_service.py:104-106 | one fetch per context file, in list order, each with the fetch rule of its file |
| Enrichment.FetchContextFile | backend/services/enrichment_service.py:105 | the i-th fetch leaves the other context files' cache entries as they were |
| Enrichment.CardRecordShape | backend/services/enrichment_service.py:128-129 | the record keeps the card's fields in order with only 'url' replaced by the requested URL |
| Enrichment.CardRecord | backend/services/enrichment_service.py:128-129 | definition: the card's fields with the URL set; its shape is CardRecordShape |
| Enrichment.CardRecordNames | backend/services/enrichment_service.py:128-129 | the record carries the card's repo name |
| Enrichment.CardRecordTags | backend/services/enrichment_service.py:128-129 | the record carries the capability tags as a list of strings |
| Enrichment.RecordName | backend/services/enrichment_service.py:126 | the file name has no '/' or ':' and ends in ".json" |
| Enrichment.EnrichedRepoIsIndexed | backend/services/enrichment_service.py:126-132 | a saved card is found by delete under its URL and yields a document with that URL and repo name |
| Enrichment.EnrichRepo | backend/services/enrichment_service.py:86-140 | the card is asked for the context truncated to 8000 characters; a card is written to the Armory under its file name and handed to the index; a failing program changes no file |
| Enrichment.FirstFound | backend/services/enrichment_service.py:147-148 | `a or b or ""`: the first found text, else "" |
| Enrichment.FetchReadmeContent | backend/services/enrichment_service.py:142-148 | README.md, else readme.md (fetched only when the first is not found), else "" |
| Enrichment.Backoff | backend/services/enrichment_service.py:152 | every wait lies between 4 and 10 seconds |
| Enrichment.Retried | backend/services/enrichment_service.py:150-154 | at most three attempts; every attempt before the last timed out; exhaustion means three timeouts |
| Enrichment.CallWithRetry | backend/services/enrichment_service.py:150-163 | the loop has the outcome and the number of attempts of the retry rule, waiting Backoff(k) after attempt k |
| Enrichment.AlwaysTimingOut | backend/services/enrichment_service.py:150-154 | three timeouts give up after exactly three attempts, waiting 4 seconds twice |
| Enrichment.OtherErrorsNotRetried | backend/services/enrichment_service.py:153 | an error other than ReadTimeout on the first attempt is raised after one attempt |
| Enrichment.ConciseReadme | backend/services/enrichment_service.py:180-184 | a summary exactly when the metadata is a dict whose two lists join; it starts with "Repo Name: " |
| Enrichment.AnalysisRecordNamesUrl | backend/services/enrichment_service.py:197-199 | a successful analysis record names the URL and the metadata's repo name |
| Enrichment.FallbackRecordNamesUrl | backend/services/enrichment_service.py:208-215 | the fallback record names the URL |
| Enrichment.FallbackCostUnknown | backend/services/enrichment_service.py:211 | the fallback rates the integration cost "Unknown" |
| Enrichment.FallbackBoostUnknown | backend/services/enrichment_service.py:213 | the fallback rates the capability boost "Unknown" |
| Enrichment.ErrorText | backend/services/enrichment_service.py:212-214 | definition: the message of a raised error; a RetryError is rendered as its class name |
| Enrichment.RunImpactAnalysis | backend/services/enrichment_service.py:165-217 | a cache hit is returned unchanged; no Armory document raises before any call; otherwise the retried analysis or its fallback is returned and saved under the request |
| Enrichment.GetReadmeSummaryForRepo | backend/services/enrichment_service.py:219-245 | a cache hit gives its "summary"; no README gives None; otherwise the summary of the README truncated to 8000 characters, saved when found |
| Armory.DocumentText | backend/services/armory_service.py:33 | the document text starts with "Repo: " |
| Armory.DocumentFor | backend/services/armory_service.py:31-41 | a document exactly when the record is a dict whose tags join; its metadata is the record's url and repo_name |
| Armory.DocumentsOf | backend/services/armory_service.py:25-43 | definition: the documents of the ".json" entries that load and build, in listing order; DocumentsFromFiles and FilesToDocuments state both directions |
| Armory.DocumentsFromFiles | backend/services/armory_service.py:26-43 | every document comes from a readable ".json" file of the directory |
| Armory.FilesToDocuments | backend/services/armory_service.py:26-43 | every ".json" file that yields a document is in the documents, the rest still indexed |
| Armory.CollectDocuments | backend/services/armory_service.py:25-43 | the loop collects the documents of the listing in order |
| Armory.ReadEntry | backend/services/armory_service.py:27-43 | one file contributes its document, or nothing when it is not ".json", unreadable or raises |
| Armory.FirstRecord | backend/services/armory_service.py:61-71 | the first ".json" file in listing order whose url is the URL, or None when there is none |
| Armory.RemoveAt | backend/services/armory_service.py:68 | exactly that one file is removed and the others keep their order |
| Armory.WithFile | backend/services/enrichment_service.py:125-132 | the written file is present and every entry of that name holds the new content; every file of another name is kept; an existing name keeps the listing length, a new one is listed last |
| Armory.ArmoryStore.constructor | backend/services/armory_service.py:9 | the directory, its listing and the persisted index as given |
| Armory.ArmoryStore.WriteRecord | backend/services/enrichment_service.py:125-132 | the directory exists and holds the record under its name; the index is not touched |
| Armory.ArmoryStore.AddRepoToIndex | backend/services/enrichment_service.py:138 | the record is handed to the index, nothing else changes |
| Armory.ArmoryStore.BuildArmoryIndex | backend/services/armory_service.py:16-52 | as written: no directory or no document leaves the previous index; otherwise the documents are persisted |
| Armory.BuiltIndex | backend/services/armory_service.py:16-52 | definition, as written: the previous index when the directory is missing or yields no document, else the documents |
| Armory.RebuiltIndex | backend/services/armory_service.py:16-52 | definition, corrected: the previous index only when the directory is missing, else the documents, possibly none |
| Armory.BuildsDifferOnlyWhenEmpty | backend/services/armory_service.py:45-47 | the two rebuilds agree whenever a document is left; with none left the written one keeps the old index and the corrected one persists an empty one |
| Armory.ArmoryStore.RebuildArmoryIndex | backend/services/armory_service.py:16-52 | corrected: the documents, possibly none, replace the persisted index |
| Armory.ArmoryStore.DeleteRepo | backend/services/armory_service.py:54-81 | as written: ok exactly when a record has the URL; then that first record is removed, `build_armory_index` runs (keeping the old index when no document is left), and the URL is returned; otherwise not-found with no change |
| Armory.ArmoryStore.DeleteRepoFixed | backend/services/armory_service.py:54-81 | corrected: the same results and listing as DeleteRepo, with the index rebuilt by the corrected rule |
| Armory.FindFirstRecord | backend/services/armory_service.py:61-71 | the scan finds the first record of the URL in listing order |
| Armory.DeleteForgetsOnlyTheDeleted | backend/services/armory_service.py:61-79 | after deleting the only record of a URL, no document has that URL and every other document is kept |
| Armory.RebuiltIndexForgetsUrl | backend/services/armory_service.py:79 | a rebuild over files none of which records the URL indexes no document with it |
| Armory.DeletingLastRecordKeepsStaleIndex | backend/services/armory_service.py:45-47 | as written, deleting the last record leaves the persisted index still holding its document |
| Armory.HitsOf | backend/services/armory_service.py:97-104 | one hit per node, in order, with its repo_name, url and score |
| Armory.ArmoryStore.QueryArmoryIndex | backend/services/armory_service.py:83-107 | as written: a missing index is built first, and stays missing when the directory yields no document; no index or a failing search gives []; otherwise the hits of the search |
| Armory.ArmoryStore.QueryArmoryIndexFixed | backend/services/armory_service.py:83-107 | corrected: as QueryArmoryIndex, but a present directory always leaves an index, possibly empty, to search |
| Armory.SearchResults | backend/services/armory_service.py:92-107 | a failing search gives []; otherwise one hit per node |
| Codebase.StoreKeyShape | backend/services/codebase_service.py:27 | the store path is the vector store directory, '/', and the basename with '.' replaced by '_' |
| Codebase.StoreKey | backend/services/codebase_service.py:27 | definition: the store path of a project; its shape is StoreKeyShape |
| Codebase.PatternLinesKept | backend/services/codebase_service.py:98-101 | every non-blank, non-comment line contributes its stripped text |
| Codebase.PatternsFromLines | backend/services/codebase_service.py:98-101 | every pattern is the stripped text of such a line |
| Codebase.GitignorePatterns | backend/services/codebase_service.py:90-102 | no .gitignore gives []; otherwise the patterns of its lines, in order |
| Codebase.PatternsOf | backend/services/codebase_service.py:98-101 | definition: the stripped non-blank, non-comment lines, in order; PatternLinesKept and PatternsFromLines state both directions |
| Codebase.ReadProject | backend/services/codebase_service.py:48-56 | definition: what the reader yields for the project with its .gitignore patterns excluded |
| Codebase.CollectPatterns | backend/services/codebase_service.py:98-101 | the loop appends exactly the pattern lines, stripped, in order |
| Codebase.Resolve | backend/services/codebase_service.py:22-88 | memoised index first, then the persisted store, then a build from non-empty documents with the 768 default dimension; an unreadable or empty project gives None |
| Codebase.Initialized | backend/services/codebase_service.py:45-88 | only a resolved index is memoised, and a built one is persisted; a failure leaves the state as it was |
| Codebase.MemoiseKeepsValid | backend/services/codebase_service.py:85 | memoising an index under its own key with its documents persisted keeps the memo consistent |
| Codebase.InitMemoised | backend/services/codebase_service.py:30-32 | a memoised project returns the memoised index and changes nothing |
| Codebase.InitFromDisk | backend/services/codebase_service.py:73-88 | a persisted store is loaded and memoised, and the disk is unchanged |
| Codebase.InitBuilt | backend/services/codebase_service.py:45-72 | an unknown project with documents is built, persisted and memoised |
| Codebase.InitFails | backend/services/codebase_service.py:51-63 | a read error or no documents gives None and leaves memo and disk unchanged |
| Codebase.InitializeIsStable | backend/services/codebase_service.py:30-32 | initialising does not change what the project resolves to |
| Codebase.OtherProjectsUnaffected | backend/services/codebase_service.py:27-32 | a project with another store key resolves as before |
| Codebase.SameStoreShared | backend/services/codebase_service.py:27-32 | two projects with the same basename share one memoised index |
| Codebase.SnippetOf | backend/services/codebase_service.py:120-124 | a snippet keeps the node's content and score; a missing file_path reads 'N/A' |
| Codebase.SnippetsOf | backend/services/codebase_service.py:118-124 | one snippet per node, in order |
| Codebase.QueryResult | backend/services/codebase_service.py:109-125 | no index gives []; a failing query raises; otherwise the snippets of the retrieved nodes |
| Codebase.CodebaseService.constructor | backend/services/codebase_service.py:15 | the memo starts empty |
| Codebase.CodebaseService.Initialize | backend/services/codebase_service.py:22-88 | returns the resolved index and moves the state to the initialised one |
| Codebase.CodebaseService.Query | backend/services/codebase_service.py:104-125 | returns the query result of the resolved index |
| Codebase.CollectSnippets | backend/services/codebase_service.py:118-124 | the loop builds the snippets of the nodes |
| Processors.Asked | backend/services/analysis/processors/summary_processor.py:32-35 | raises exactly when the LLM raises; else the stripped response, or the components named in it |
| Processors.SummaryPromptHoldsContent | backend/services/analysis/processors/summary_processor.py:21-30 | the prompt holds the content between the two separator lines |
| Processors.SummaryOutcome | backend/services/analysis/processors/summary_processor.py:9-35 | unreadable gives ""; blank gives "This file is empty." without the LLM; else the LLM's answer, stripped |
| Processors.SummaryRaisesFromLlm | backend/services/analysis/processors/summary_processor.py:11-35 | the summary raises only from the LLM, after a non-blank read |
| Processors.Items | backend/services/analysis/processors/component_processor.py:40 | every item is non-empty and stripped; no more items than pieces |
| Processors.ItemsConcat | backend/services/analysis/processors/component_processor.py:40 | the filter keeps order piece by piece, so duplicates are preserved |
| Processors.ComponentsBound | backend/services/analysis/processors/component_processor.py:40 | at most one item more than the commas of the response |
| Processors.ComponentsOf | backend/services/analysis/processors/component_processor.py:38-40 | definition: the items of the stripped response split at commas; their properties are Items and ComponentsBound |
| Processors.ComponentsOutcome | backend/services/analysis/processors/component_processor.py:10-42 | unreadable or blank gives [] without the LLM; else the items of the response |
| Processors.ComponentsReturned | backend/services/analysis/processors/component_processor.py:38-42 | the result is a list of non-empty stripped strings |
| Processors.ComponentsRaisesFromLlm | backend/services/analysis/processors/component_processor.py:12-35 | the components raise only from the LLM, after a non-blank read |
| Processors.ImportedNamesIff | backend/services/analysis/processors/dependency_processor.py:15-21 | a name is collected exactly when some Import node names it or some ImportFrom node with a module has it |
| Processors.ImportedNames | backend/services/analysis/processors/dependency_processor.py:15-21 | definition: the names of the Import nodes and the modules of the ImportFrom nodes; ImportedNamesIff states the iff |
| Processors.DependenciesOf | backend/services/analysis/processors/dependency_processor.py:8-26 | definition: [] for an unreadable or unparsable file, else the imported names ascending; DependenciesAscending states what it holds |
| Processors.DependenciesAscending | backend/services/analysis/processors/dependency_processor.py:10-26 | the result is strictly ascending and holds exactly the imported names |
| Processors.DependencyProcess | backend/services/analysis/processors/dependency_processor.py:8-26 | the loop gives the sorted imports; a read or parse error gives [] |
| Processors.OtherPaths | backend/services/analysis/processors/dependent_processor.py:20-23 | exactly the snippet file paths other than the file itself |
| Processors.OtherPathsSnoc | backend/services/analysis/processors/dependent_processor.py:20-23 | one more snippet adds its path unless it is the file itself |
| Processors.DependentsAscending | backend/services/analysis/processors/dependent_processor.py:11-28 | the dependents are strictly ascending and never the file itself |
| Processors.DependentsOf | backend/services/analysis/processors/dependent_processor.py:9-28 | definition: [] for a query that raises, else the other snippet paths ascending; DependentsAscending and DependentsFromSnippets state what it holds |
| Processors.DependentsFromSnippets | backend/services/analysis/processors/dependent_processor.py:19-23 | every dependent is the file path of a node the query returned for 'from .m import\|import m' |
| Processors.DependentProcess | backend/services/analysis/processors/dependent_processor.py:9-28 | the dependents of the resolved index; a failing query gives []; the codebase state is initialised |
| Processors.CollectDependents | backend/services/analysis/processors/dependent_processor.py:20-23 | the loop collects the other paths |
| Processors.StateAfter | backend/services/analysis/processors/dependent_processor.py:19 | only the dependents processor changes the codebase state, which stays consistent |
| Processors.OnlyTheLlmRaises | backend/services/analysis/processors/dependency_processor.py:22-24 | only the summary and components processors can raise |
| Processors.Process | backend/services/analysis/processors/base_processor.py:11-14 | process() ends as its kind's outcome and changes the state as its kind's effect |
| Processors.OutcomeOf | backend/services/analysis/processors/base_processor.py:11-14 | definition: how process() ends for each kind of processor |
| Pipeline.ValueOf | backend/services/analysis/pipeline.py:12-16 | a processor that raised stores None; otherwise the returned value |
| Pipeline.RunEntries | backend/services/analysis/pipeline.py:10-17 | one entry per processor, in mapping order, each the value of that processor's call |
| Pipeline.RunUpTo | backend/services/analysis/pipeline.py:10-17 | definition: the results and the state after the first k processors; RunEntries, RunKeys and NewName state what they hold |
| Pipeline.EntriesUpTo | backend/services/analysis/pipeline.py:11-16 | the same for the first k processors |
| Pipeline.NewName | backend/services/analysis/pipeline.py:13-16 | each processor's name is new when its entry is stored |
| Pipeline.RunKeys | backend/services/analysis/pipeline.py:10-17 | the result's keys are exactly the processors' names |
| Pipeline.AnalysisPipeline.constructor | backend/services/analysis/pipeline.py:5-6 | keeps the processors |
| Pipeline.AnalysisPipeline.Run | backend/services/analysis/pipeline.py:8-17 | the loop calls each processor once in order and builds the run's entries and state; run does not raise |
| Aggregator.Aggregate | backend/services/analysis/result_aggregator.py:8-15 | exactly the four keys in order, each the input's value or its default |
| Aggregator.ExtraKeysDropped | backend/services/analysis/result_aggregator.py:10-15 | any other key is absent from the report |
| Aggregator.ReportLookup | backend/services/analysis/result_aggregator.py:11-14 | a present key passes through, None included; an absent one gets 'Error generating summary.' or [] |
| Aggregator.AggregateComplete | backend/services/analysis/result_aggregator.py:10-15 | input with the four keys in order is returned as it is |
| Orchestrator.AnalysisProcessors | backend/services/analysis/orchestrator.py:13-18 | four differently named processors, summary, components, dependencies and dependents, all on the same paths |
| Orchestrator.AnalysisIsReport | backend/services/analysis/orchestrator.py:20-26 | aggregating the pipeline run over them gives the four-value report |
| Orchestrator.ReportFor | backend/services/analysis/orchestrator.py:20-26 | definition: the four keys, each the value its processor returned or None |
| Orchestrator.AggregatedIsReport | backend/services/analysis/orchestrator.py:20-24 | the same for any outcomes and any effects confined to the dependents processor |
| Orchestrator.RunIsReport | backend/services/analysis/orchestrator.py:20-21 | the pipeline's entries are the report's fields |
| Orchestrator.StartStates | backend/services/analysis/orchestrator.py:20-21 | the first three processors leave the state for the next one as it was |
| Orchestrator.ReportSummary | backend/services/analysis/orchestrator.py:14 | the summary entry is the summary processor's value |
| Orchestrator.ReportComponents | backend/services/analysis/orchestrator.py:15 | the components entry is the components processor's value |
| Orchestrator.ComponentsValue | backend/services/analysis/orchestrator.py:15 | the components processor's outcome |
| Orchestrator.ReportDependencies | backend/services/analysis/orchestrator.py:16 | the dependencies entry is the sorted imports |
| Orchestrator.ReportDependents | backend/services/analysis/orchestrator.py:17 | the dependents entry is the sorted dependents of the resolved index |
| Orchestrator.DependentsValue | backend/services/analysis/orchestrator.py:17 | the dependents processor's outcome |
| Orchestrator.EffectsKeepState | backend/services/analysis/orchestrator.py:20-21 | only the dependents processor changes the state |
| Orchestrator.RunStateAfter | backend/services/analysis/orchestrator.py:20-21 | after the run the codebase state is the project's initialised one |
| Orchestrator.RunAnalysis | backend/services/analysis/orchestrator.py:9-26 | returns the report and initialises the project's index |
| Rag.AfterMarker | app/rag/core.py:53-55 | the text after the first "...done thinking.", a suffix of the input |
| Rag.CleanLlmResponse | app/rag/core.py:46-57 | the cleaned text is stripped and no longer than the input |
| Rag.RemoveThinkShorter | app/rag/core.py:50-51 | removing the blocks never lengthens the text |
| Rag.RemoveThink | app/rag/core.py:50-51 | definition: the lazy DOTALL removal of think blocks, left to right; RemoveThinkShorter, RemoveThinkNoTag and RemoveThinkBlock state its properties |
| Rag.RemoveThinkNoTag | app/rag/core.py:50-51 | a text without '<' is left as it is |
| Rag.RemoveThinkBlock | app/rag/core.py:50-51 | a leading `<think>…</think>` block is removed up to its first close tag, newlines included |
| Rag.CleanThinkThenAnswer | app/rag/core.py:46-57 | a think block followed by an answer cleans to the stripped answer |
| Rag.CleanDoneThinking | app/rag/core.py:53-57 | thinking text, the marker and an answer clean to the stripped answer |
| Rag.CleanPlain | app/rag/core.py:46-57 | a text without tags or marker cleans to its strip |
| Rag.LoadModels | app/rag/core.py:31-35 | ok exactly when both model names are set and non-empty; otherwise the ValueError |
| Rag.Start | app/rag/core.py:26-44 | an engine with both models and no index, or the ValueError |
| Rag.RagEngine.constructor | app/rag/core.py:37-43 | the two models and no index |
| Rag.RagEngine.BuildIndexFromText | app/rag/core.py:59-72 | the index holds the one document with its id, dimension 768 |
| Rag.RagEngine.GetOneLinerSummary | app/rag/core.py:75-108 | None exactly when no index is built; else the cleaned, stripped answer |
| Rag.RagEngine.GetCapabilityTags | app/rag/core.py:111-150 | None exactly when no index is built; else the cleaned, stripped answer to the summary |
| Vault.ProjectNames | app/database.py:21-25 | the names of the projects, by id |
| Vault.IdNamed | app/database.py:111-114 | the id of a row with that name, or None when no row has it |
| Vault.IdNamedUnique | app/database.py:111-114 | with unique names, the id found is that row's |
| Vault.BlankProjectIsDefault | app/database.py:108-109 | a None, empty or blank name gives project 1 and no change |
| Vault.BlankCategoryIsNone | app/database.py:121-122 | a None, empty or blank category gives None and no change |
| Vault.GetOrCreateProjectMeaning | app/database.py:107-118 | a known name gives its id with no insert; otherwise exactly one row is inserted under the next id; names stay unique |
| Vault.GetOrCreateProject | app/database.py:107-118 | definition: default for a blank name, a known name's id, else an insert under the next id; GetOrCreateProjectMeaning and GetOrCreateProjectIdempotent state it |
| Vault.GetOrCreateProjectIdempotent | app/database.py:107-118 | a second call with the same name returns the same id and changes nothing |
| Vault.GetOrCreateCategoryMeaning | app/database.py:120-131 | the same for categories |
| Vault.GetOrCreateCategory | app/database.py:120-131 | definition: the same for categories, None for a blank name |
| Vault.GetOrCreateCategoryIdempotent | app/database.py:120-131 | the same for categories |
| Vault.PostConditions | app/database.py:177-190 | at most a project condition and a search condition |
| Vault.Clauses | app/database.py:191-192 | one SQL clause per condition |
| Vault.PostConditionsMeaning | app/database.py:179-190 | a post matches exactly when it is in the project (NULL counting for project 1) and, for a non-blank term, author, text or notes contain it |
| Vault.SelectPosts | app/database.py:166-196 | definition: the ids of the posts every condition holds of |
| Vault.PostsQueryShape | app/database.py:191-193 | " WHERE " and the AND-joined clauses when there are conditions, then the order; parameters follow the conditions |
| Vault.DeletePostMeaning | app/database.py:204-210 | the post and its sparks are gone; all else unchanged |
| Vault.DeletePost | app/database.py:204-210 | definition: the post's sparks and the post removed; DeletePostMeaning states it |
| Vault.DeleteDefaultProjectKeeps | app/database.py:213-215 | deleting project 1 changes nothing |
| Vault.DeleteProjectMeaning | app/database.py:212-223 | its posts move to project 1, its connections, sparks and row are gone, all else unchanged |
| Vault.DeleteProject | app/database.py:212-223 | definition: no change for project 1, else posts moved and rows removed; DeleteProjectMeaning states it |
| Vault.DeleteProjectIdempotent | app/database.py:212-223 | deleting a project twice is deleting it once |
| Vault.DeleteCategoryMeaning | app/database.py:225-230 | its posts lose their category, the row is gone, all else unchanged |
| Vault.DeleteCategory | app/database.py:225-230 | definition: posts lose the category, the row removed; DeleteCategoryMeaning states it |
| Vault.DeletesKeepValid | app/database.py:204-230 | the three deletes keep names unique and ids below the next id |
| Vault.VaultDb.constructor | app/database.py:6-9 | the connection's tables as given |
| Vault.VaultDb.Restore | dashboard.py:136 | the rollback puts the tables back |
| Vault.VaultDb.GetOrCreateProjectId | app/database.py:107-118 | the result and new tables of get-or-create |
| Vault.VaultDb.GetOrCreateCategoryId | app/database.py:120-131 | the same for categories |
| Vault.VaultDb.GetAllPosts | app/database.py:166-196 | the ids of the posts the built conditions select |
| Vault.VaultDb.DeletePostById | app/database.py:204-210 | the tables after the delete |
| Vault.VaultDb.DeleteProjectById | app/database.py:212-223 | the tables after the delete |
| Vault.VaultDb.DeleteCategoryById | app/database.py:225-230 | the tables after the delete |
| Vault.BuildPostsQuery | app/database.py:177-193 | the conditions, the SQL suffix and the parameters of the query |
| Vault.CollectConditions | app/database.py:177-190 | the appends build the conditions, their clauses and their parameters in order |
| Vault.RenderSuffix | app/database.py:191-193 | the WHERE and ORDER BY suffix of the clauses |
| Dashboard.SameProjectFilter | dashboard.py:68-77 | the endpoint's filter is the query builder's project condition |
| Dashboard.ProjectCondition | dashboard.py:68-77 | definition: the project filter of the endpoint |
| Dashboard.ProjectConditionMeaning | dashboard.py:68-77 | project 1 matches its posts and posts with NULL project; another id only its own |
| Dashboard.GetPostsForProject | dashboard.py:60-81 | the ids of the posts of the project under that rule |
| Dashboard.GetLayout | dashboard.py:91-98 | exactly the sparks and connections of the project |
| Dashboard.ClearedLayout | dashboard.py:110-111 | the project has no sparks or connections left and everything else is kept |
| Dashboard.ClearLayout | dashboard.py:110-111 | definition: the project's connections and sparks deleted |
| Dashboard.SaveSparkShape | dashboard.py:115-121 | one spark row is inserted under the next id |
| Dashboard.SaveSpark | dashboard.py:115-121 | definition: one spark inserted and its id mapped, or the failure: a missing key, an unbindable value, an int outside 64 bits (OverflowError) or a NULL column; SaveSparkShape, SparkIdMapped and OversizedPostIdRollsBack state it |
| Dashboard.SparkIdMapped | dashboard.py:118-121 | the frontend id now maps to the new id, and the row is bound from post_id |
| Dashboard.SaveSparkStep | dashboard.py:115-121 | one spark keeps the saved-sparks invariant |
| Dashboard.StepKeepsSparks | dashboard.py:115-121 | the invariant is kept for any inserted row of the project |
| Dashboard.SaveSparksInvariant | dashboard.py:114-121 | after k sparks, k rows under consecutive fresh ids and every mapped id is one of them |
| Dashboard.SaveConnectionShape | dashboard.py:124-131 | a connection is inserted exactly when both endpoints map to set ids |
| Dashboard.SaveConnection | dashboard.py:124-131 | definition: one connection inserted when both ends map, or the failure, an int label outside 64 bits included; SaveConnectionShape and OversizedLabelFails state it |
| Dashboard.ConnectionUsesNewIds | dashboard.py:125-131 | the stored endpoints are the mapped new ids |
| Dashboard.SaveConnectionStep | dashboard.py:124-131 | one connection keeps the saved-connections invariant |
| Dashboard.StepKeepsConnections | dashboard.py:124-131 | the invariant is kept for any inserted row joining mapped ids |
| Dashboard.SaveConnectionsInvariant | dashboard.py:124-131 | every stored connection joins two sparks of the project |
| Dashboard.SaveLayoutMeaning | dashboard.py:100-134 | one new spark per incoming item, under fresh ids; only project rows change; every connection joins two new sparks |
| Dashboard.Bind | dashboard.py:116-119 | definition: the value SQLite stores for a bound parameter; an int outside [-2^63, 2^63) raises OverflowError and a list or dict cannot be bound |
| Dashboard.OversizedPostIdRollsBack | dashboard.py:116-119 | a spark whose post_id is an int outside 64 bits fails the save with the OverflowError; the response is 500 with "Python int too large to convert to SQLite INTEGER" |
| Dashboard.OversizedLabelFails | dashboard.py:128-131 | a connection between saved sparks whose label is an int outside 64 bits fails with the OverflowError |
| Dashboard.SaveLayout | dashboard.py:100-134 | definition: the transaction: clear, save the sparks, then the connections, or the first failure (an OverflowError included); SaveLayoutMeaning and OversizedPostIdRollsBack state it |
| Dashboard.SparkWithoutPostIdFails | dashboard.py:116-119 | a spark without post_id fails the save with its KeyError |
| Dashboard.SparksWithoutPostIdFail | dashboard.py:116-119 | the same within the spark loop |
| Dashboard.SaveSparksPrefix | dashboard.py:115-121 | later items do not affect the first k |
| Dashboard.SparksFailureStays | dashboard.py:115-121 | a failure stops the spark loop |
| Dashboard.ConnectionsFailureStays | dashboard.py:124-131 | a failure stops the connection loop |
| Dashboard.InsertSpark | dashboard.py:116-121 | one turn is the saved step, or its failure |
| Dashboard.InsertConnection | dashboard.py:125-131 | one turn is the saved step, or its failure |
| Dashboard.InsertSparks | dashboard.py:115-121 | the loop ends in the saved tables and map, or the first failure |
| Dashboard.InsertConnections | dashboard.py:124-131 | the loop ends in the saved tables, or the first failure |
| Dashboard.SaveLayoutPost | dashboard.py:100-139 | 200 with the saved layout, or 500 with the error's text and the tables rolled back |
| Dashboard.CreateProjectMeaning | dashboard.py:143-161 | 400 exactly when the name is not truthy; a 201 inserts one row under the new id it returns; any other status changes nothing |
| Dashboard.CreateProject | dashboard.py:143-161 | definition: the response and tables of project creation; a name or description SQLite cannot bind, an int outside 64 bits included, ends in 500 with no insert; CreateProjectMeaning, CreateTakenName and CreateOversizedName state it |
| Dashboard.CreateTakenName | dashboard.py:158-159 | an existing name gives 409 and no change |
| Dashboard.CreateOversizedName | dashboard.py:152-158 | an int name outside 64 bits raises OverflowError, which is not the caught IntegrityError: status 500 and no insert |
| Dashboard.CreateProjectPost | dashboard.py:143-161 | the response and the tables of project creation |
| PostDetail.FormattedParts | app/ui/post_detail_frame.py:143 | the author line's last '(' is the one after the name |
| PostDetail.FormatAuthor | app/ui/post_detail_frame.py:143 | definition: "name (handle)" |
| PostDetail.ParseAuthor | app/ui/post_detail_frame.py:105-111 | definition, as written: split at the last '(', the handle always behind an added '@'; FormatThenParse and HandleGainsAt state it |
| PostDetail.ParseAuthorFixed | app/ui/post_detail_frame.py:105-111 | definition, corrected: a handle that starts with '@' is kept; FormatThenParseFixed states it |
| PostDetail.FormatThenParse | app/ui/post_detail_frame.py:105-109 | parsing "n (h)" gives n stripped and "@" + h stripped |
| PostDetail.HandleGainsAt | app/ui/post_detail_frame.py:105-109 | a stripped handle comes back with one more '@' |
| PostDetail.DefaultLabelsWellFormed | app/ui/post_detail_frame.py:43-45 | the default labels are stripped and the handle starts with '@' |
| PostDetail.DefaultAuthorHandleDoubled | app/ui/post_detail_frame.py:105-109 | as written, the default author line parses to "@@author_handle" |
| PostDetail.FormatThenParseFixed | app/ui/post_detail_frame.py:105-111 | corrected, parsing inverts formatting for stripped names and '@' handles |
| PostDetail.FixedAgreesWithoutAt | app/ui/post_detail_frame.py:105-111 | the corrected parse agrees with the original when the handle has no '@' |
| PostDetail.UrlsPileUp | app/ui/post_detail_frame.py:100-101 | as written, an entry already holding a URL ends as the new URL followed by the old one |
| PostDetail.UrlAfterPopulate | app/ui/post_detail_frame.py:100-101 | definition, as written: the post's URL inserted in front of the entry's text |
| PostDetail.StatusUrl | app/ui/post_detail_frame.py:196 | definition: an x.com or twitter.com link holding "/status/" |
| PostDetail.StatusLinkPasses | app/ui/post_detail_frame.py:196 | an x.com URL with "/status/" passes the trigger |
| PostDetail.NoStatusNoFetch | app/ui/post_detail_frame.py:196 | a URL without "/status/" never does |
| PostDetail.ClearedMeaning | app/ui/post_detail_frame.py:154-164 | clearing is idempotent, keeps the URL unless asked, resets the author to the default and the mode to save |
| PostDetail.Cleared | app/ui/post_detail_frame.py:154-164 | definition: the cleared form; ClearedMeaning states it |
| PostDetail.Populated | app/ui/post_detail_frame.py:99-127 | definition, as written: the form after populate_form |
| PostDetail.PopulatedFixed | app/ui/post_detail_frame.py:99-127 | definition, corrected: the URL replaced and the handle split by ParseAuthorFixed |
| PostDetail.ScrapedInto | app/ui/post_detail_frame.py:129-140 | definition: the form after populate_scraped_data |
| PostDetail.ReadBack | app/ui/post_detail_frame.py:142-152 | definition: the dict get_form_data returns |
| PostDetail.PopulateAsWrittenReadBack | app/ui/post_detail_frame.py:99-152 | as written, reading a populated form back gives the post's fields, its URL in front of the old entry and its handle behind one more '@' |
| PostDetail.PopulateUrlsPileUp | app/ui/post_detail_frame.py:100-101 | as written, populating a form whose entry holds a URL leaves the new URL followed by the old one, not the post's URL |
| PostDetail.PopulateWithoutAuthorDoubled | app/ui/post_detail_frame.py:105-109 | as written, a post without author shows "@@author_handle" and does not read back as the default line |
| PostDetail.PopulatedAgreesOnFreshEntry | app/ui/post_detail_frame.py:99-111 | the written and corrected populate agree on an empty entry and a handle without its own '@' |
| PostDetail.PopulateThenReadBack | app/ui/post_detail_frame.py:99-152 | corrected (URL and '@'): populating with a formatted author reads the same author, text, notes, URL and names back, in edit mode |
| PostDetail.PopulateWithoutAuthor | app/ui/post_detail_frame.py:105 | corrected (URL and '@'): no author gives the default labels and reads back as the default line |
| PostDetail.ScrapedThenReadBack | app/ui/post_detail_frame.py:129-152 | scraped data reads back as its author line and text with the URL kept |
| PostDetail.PostDetailFrame.constructor | app/ui/post_detail_frame.py:28-97 | the initial form: title "Post Details", default author, save mode, no callback |
| PostDetail.PostDetailFrame.ConnectCallbacks | app/ui/post_detail_frame.py:183-192 | records whether a fetch callback is set |
| PostDetail.PostDetailFrame.SetSaveMode | app/ui/post_detail_frame.py:166-168 | title "Add New Post", save mode |
| PostDetail.PostDetailFrame.SetEditMode | app/ui/post_detail_frame.py:170-172 | title "Edit Post Details", edit mode |
| PostDetail.PostDetailFrame.ClearForm | app/ui/post_detail_frame.py:154-164 | the cleared form |
| PostDetail.PostDetailFrame.PopulateForm | app/ui/post_detail_frame.py:99-127 | as written: the populated form, the post's URL in front of the entry's old text and the author split by the as-written rule |
| PostDetail.PostDetailFrame.PopulateFormFixed | app/ui/post_detail_frame.py:99-127 | corrected (URL and '@'): the populated form with the URL replaced and the handle kept with one '@' |
| PostDetail.PostDetailFrame.PopulateScrapedData | app/ui/post_detail_frame.py:129-140 | the form with the scraped author and text |
| PostDetail.PostDetailFrame.GetFormData | app/ui/post_detail_frame.py:142-152 | the form read back, author as "name (handle)" |
| PostDetail.PostDetailFrame.OnUrlChange | app/ui/post_detail_frame.py:194-197 | fetches the URL exactly when a callback is set and the URL is an x.com or twitter.com status link |
| FileHandler.FileSystem.constructor | app/file_handler.py:8 | the files as given |
| FileHandler.Copy | app/file_handler.py:22 | copyfile succeeds exactly when the source exists, differs from the target and no OS error; then the target holds the source |
| FileHandler.BackupMeaning | app/file_handler.py:10-25 | no path gives "Backup cancelled." and no copy; otherwise success with the basename, or the failure text |
| FileHandler.Backup | app/file_handler.py:10-25 | definition: cancelled, the copy to the chosen path with the basename, or the failure text |
| FileHandler.RestoreMeaning | app/file_handler.py:27-40 | the same for restore |
| FileHandler.Restore | app/file_handler.py:27-40 | definition: the same, copying the chosen file over the database |
| FileHandler.BackupThenRestore | app/file_handler.py:10-40 | restoring the backup just made brings back the backed-up database, however it changed in between |
| FileHandler.BackupWithoutDatabase | app/file_handler.py:21-25 | no database file gives the "No such file or directory" failure |
| FileHandler.BackupDatabase | app/file_handler.py:10-25 | the result and files of a backup |
| FileHandler.RestoreDatabase | app/file_handler.py:27-40 | the result and files of a restore |
| FileHandler.BuildBriefing | app/file_handler.py:55-63 | the loop builds the briefing: header, then one section per post in order |
| FileHandler.Briefing | app/file_handler.py:55-63 | definition: the header, then each post's section in order |
| FileHandler.PostSection | app/file_handler.py:59-63 | definition: the author line, URL line, text, notes and separator of one post |
| FileHandler.AppendSection | app/file_handler.py:59-63 | one turn appends the post's section |
| FileHandler.CreateBriefingMeaning | app/file_handler.py:42-70 | no posts or a cancelled dialog write nothing; otherwise the file holds the briefing, or the failure text is returned |
| FileHandler.CreateBriefing | app/file_handler.py:42-70 | definition: no posts, cancelled, write failure, or the briefing written to the chosen path |
| FileHandler.CreateBriefingFile | app/file_handler.py:42-70 | the result and files of the export |
| FileHandler.BriefingStartsWithTitle | app/file_handler.py:55-56 | the briefing starts with its title and "\n\n"; an empty term titles "All Posts" |
| FileHandler.BriefingSnoc | app/file_handler.py:58-63 | one more post appends exactly its section |
| FileHandler.SectionInOrder | app/file_handler.py:58-63 | the i-th post's section lies right after the header and the earlier sections |
| FileHandler.SectionEnds | app/file_handler.py:59-63 | a section starts with its author line and ends with "---\n\n" |
| FileHandler.SectionDefaults | app/file_handler.py:59-62 | author and URL default to 'N/A', text and notes to ''; a NULL author shows "None" |
| FileHandler.BriefingEndsWithRule | app/file_handler.py:63 | a briefing of posts ends with "---\n\n" |

## Left out

- Network, HTTP and Redis transport are not modelled. Replies are parameters: `Http` for httpx, `replies` for the Redis server.
- Language-model and embedding calls are function parameters, and so are `get_llm_program`, the prompt templates of `llm_programs.py`, Ollama, FAISS and llama_index indexes. Similarity order and float scores are whatever the retriever gives.
- `asyncio.gather` is modelled as the file fetches in list order. Concurrent interleaving of the cache writes is not modelled.
- The tenacity sleeps are recorded as a list of waits; no time passes. The text of a `RetryError` (which names the future object) is rendered as its class name "RetryError" in the fallback's justifications.
- `hashlib.md5`, `json.dumps` and `json.loads` are abstract functions. Only the key sorting and the prefix concatenation are modelled.
- `add_repo_to_index` and `get_armory_document` are imported by the enrichment service but are not part of this model. The first is recorded as a call, and the second's metadata is a parameter.
- Printing, logging and `traceback.print_exc` are left out.
- Widgets and threads are not modelled: customtkinter, avatar loading in a thread, focus, and the Manage buttons. The form is modelled as its text state and mode only.
- `set_url_entry_state`, `update_project_menu` and `update_category_menu` only configure widgets and are not modelled.
- File dialogs are parameters. An empty chosen path means the dialog was cancelled.
- `shutil.copyfile` treats a same-file target as a string-equal path, not `os.path.samefile`.
- A partial write does not truncate the briefing file.
- `init_db` (schema creation and migrations) is left out.
- `add_post`, `update_post`, `update_post_summary`, `update_post_tags`, `get_all_projects` and `get_all_categories` are left out. They are single INSERT, UPDATE or SELECT statements on which nothing else here depends.
- The dashboard's project list with its statistics is left out, because it depends on SQL aggregation.
- SQL row value types beyond what the layout and project code bind are not modelled: column affinity other than TEXT is left out.
- JSON floating-point numbers are not modelled: `Json` has integers only, so a fractional `x_pos` or `y_pos` of a spark cannot be expressed.
- `LIKE` is modelled as substring containment. `%` and `_` inside a search term, and ASCII case-insensitivity, are not modelled.
- `spark_id_map` uses structural equality of JSON ids. Python's equality of `1`, `1.0` and `True` as dictionary keys is not modelled.
- Request bodies that are not JSON objects are not modelled. Neither are NULL column values in a post dict handed to `populate_form`.
- Sorting uses code-point order on strings. `sorted()` over mixed types is not needed, because every element is a string.
- `ast.parse` and `ast.walk` are a parser parameter that yields the import nodes as a list; the walk order cannot show in the sorted result.
- Redis `set` failures are swallowed, as in the source. The state of the remote server is not modelled.
- Codebase.Resolve: a store persisted at the project's path is always loaded. A `load_index_from_storage` that raises (backend/services/codebase_service.py:81), which nothing catches, is not modelled; the disk holds only stores this code persisted, which are never empty.
- Armory.ArmoryStore.DeleteRepo: an `os.remove` that raises inside the loop's `try` (backend/services/armory_service.py:66-71), after which the scan goes on to later files, is not modelled; the first record of the URL is always removable.
- Cache.CacheKeyIgnoresKeyOrder: stated for payloads that differ in the order of their top-level fields. `SortKeys` sorts nested objects as well, but equality of the keys under reordering inside nested objects is not stated.
- Armory.ArmoryStore.DeleteRepoFixed, Armory.ArmoryStore.QueryArmoryIndexFixed, PostDetail.PostDetailFrame.PopulateFormFixed and the corrected functions beside them are the evidently intended behaviour named in the findings below; the members named without "Fixed" model the code as written.
- Vault.VaultDb.GetAllPosts: returns the set of selected post ids. The selected columns, the joined names and the `created_at DESC` order of the rows are not modelled.
- Dashboard.GetPostsForProject: returns the set of selected post ids. The row contents and the `created_at DESC` order are not modelled.
- Dashboard.GetLayout: returns the rows as maps. Their JSON rendering by `jsonify` is not modelled.
- Enrichment.FetchContextFiles: each fetch's result is stated only when no two context files' requests share a cache key, that is, when the MD5 digests do not collide.
- Enrichment.EnrichRepo: the contents are tied to the fetch rule under the same no-collision assumption.
- Enrichment.FetchReadmeContent: the README is tied to the fetch rule only when the two README requests' keys differ.
- Enrichment.GetReadmeSummaryForRepo: the same no-collision assumption for the two README fetches. The saved summary is stated for the in-memory backend only.
- Dashboard.SaveLayout: the route's `<int:project_id>` is taken to fit SQLite's 64-bit INTEGER. An id outside that range, which would raise OverflowError in the first DELETE and roll back, is not modelled.
- Dashboard.SaveLayoutPost: the same for the route id.
- Dashboard.GetLayout: the same for the route id; an id outside 64 bits would end the request in an unhandled error.
- Dashboard.GetPostsForProject: the same for the route id.
- Dashboard.SaveSpark: the route id it binds as `project_id` is taken to fit 64 bits. Every value it reads from the request body is range-checked.
- Dashboard.SaveConnection: the same for the route id.
- Dashboard.SaveLayoutPost: the 500 body's message comes from a text function given for the TypeErrors Python raises. A missing key reads as the quoted key, and a NULL coordinate as the NOT NULL message.

## Findings

| source | as written | input that shows it | evidently intended | confidence | as-written member | corrected member |
|---|---|---|---|---|---|---|
| backend/services/armory_service.py:45-47 | after a delete, `build_armory_index` returns early when no document is left, so the persisted index still holds the deleted repository and queries keep finding it | an Armory with one card; `delete_repo(its url)` | deleting a repository removes it from the index | high, not executed | Armory.DeletingLastRecordKeepsStaleIndex | Armory.RebuiltIndexForgetsUrl |
| app/ui/post_detail_frame.py:105-109 | the handle is always given a leading "@", but handles shown and scraped already start with "@" | the default author "Author Name (@author_handle)" parses to handle "@@author_handle"; a save-then-edit of a scraped post doubles it again | a handle that already starts with "@" is kept as it is, so parsing inverts `get_form_data`'s format | high, not executed | PostDetail.DefaultAuthorHandleDoubled | PostDetail.FormatThenParseFixed |
| app/ui/post_detail_frame.py:100-101 | `populate_form` clears the form with `clear_url=False` and then inserts the new URL at position 0, so the previous URL stays after it | select post A (URL "a"), then post B (URL "b") through `on_post_selected`: the entry holds "ba" | the entry shows the selected post's URL | medium, not executed | PostDetail.PopulateUrlsPileUp | PostDetail.PopulateThenReadBack |
