# nexa2 generation core in Dafny

This project models the decision logic of the nexa2 application generator and proves properties of it. It covers these parts:

- **Semantic cache** (`SemanticCache`), from src/cache/semantic-cache.js:
  - an insertion-ordered map from a normalised prompt to an entry;
  - lookup by exact key first, then by the first key whose word similarity reaches 0.75;
  - eviction by last access at a capacity of 100;
  - preloading of common patterns, and statistics.
- **Quality gate** (`QualityEnhancer`), from src/quality/enhancer.js:
  - a 0–10 score built from floors, caps and minimums;
  - an ordered issue detector;
  - a fold that threads the text through one fix per issue.
- **Job queue** (`GenerationQueue`), from src/generation-queue.js:
  - the job state machine, with a FIFO drained behind a re-entrance flag;
  - merge-and-persist updates, and restart recovery.
- **Pipeline** (`StreamingGenerator`), from src/streaming-generator.js:
  - the cache short-circuit and the fixed sequence of progress events;
  - the quality-gated cache write and the fallback project;
  - image keywords, image enrichment and the application name.
- **Streaming helpers** (`StreamingHandler`), from src/streaming-handler.js:
  - prompt compression, the model configuration and the memoised system prompt;
  - chunk accumulation with its progress calls;
  - sentence-based section splitting and result joining.
- **Keyword classifiers and prompt templates**:
  - `ScotEnhancer`, from src/intelligence/scot-enhancer.js;
  - `BamlPragmatic`, from src/baml-system/baml-pragmatic.js.
- **Class-name combiner** `cn` (`Utils`), from lib/utils.js.

The helper modules are these:

- `Wrappers` holds `Option`, and `Result`, which stands for a computation that returns or throws.
- `Strings` holds the JavaScript string operations the core uses.
- `Json` holds JSON values, a concrete `Parse`/`Serialize` pair with a proved round trip, and the JavaScript view of objects: truthiness, property reads and writes, and inherited `Object.prototype` names.

The following become parameters:

- clock readings (`now`);
- job ids, which stand for the uuid;
- the transport, a function from the request to the reply it gets;
- the image search, which may fail;
- the run of a queued job;
- the regular-expression rewrites of `fixJSONStructure` and the import extraction of `checkImportCoherence`.

The disk of the job queue is a map from job id to the parsed file, or `None` when the file does not parse.

Objects whose fields the source updates in place are classes:

- the cache (`SemanticCache.SemanticCache`);
- the queue (`GenerationQueue.GenerationQueue`);
- the handler with its memoised prompts (`StreamingHandler.Handler`);
- the generator with its switches (`StreamingGenerator.Generator`);
- `BamlPragmatic.Pragmatic`.

Loops in the source are methods with loop invariants, proved equal to a specification function. The properties of that function are proved as lemmas.

The "## Model" table has one row for each member whose contract states a property of the source. Lemmas and functions that only serve as steps of those proofs, such as the stages of the JSON round trip, have no row. Some functions are the model of a source operation but only compute a value, so they carry no contract of their own. They are listed under "### Specification functions" after the table, each with the lemmas and methods that state its properties.

Quality scores are integer tenths of a point, so the source's `8` is `80` here. Every deduction the source makes is a multiple of 0.1, so this is exact.

## Model

| member | source | states |
|---|---|---|
| `SemanticCache.StripPunctuation` | src/cache/semantic-cache.js:79 | Removing punctuation keeps exactly the word characters and white space, in order. |
| `SemanticCache.StripKeeps` | src/cache/semantic-cache.js:78-79 | On lower-cased text, what survives punctuation removal is only `[a-z0-9_]` and white space. |
| `SemanticCache.StripIdentity` | src/cache/semantic-cache.js:79 | Punctuation removal does not change text that is already only word characters and white space. |
| `SemanticCache.ConsShape` | src/cache/semantic-cache.js:80 | Putting an allowed character in front of an allowed, single-spaced string keeps it allowed and single-spaced, unless both are spaces. |
| `SemanticCache.SuffixAllowedOrSpace` | src/cache/semantic-cache.js:80 | Every suffix of a string of allowed characters and white space is one too. |
| `SemanticCache.CollapseShape` | src/cache/semantic-cache.js:80 | After whitespace runs are collapsed, the only white space left is single spaces. |
| `SemanticCache.CollapseIdentity` | src/cache/semantic-cache.js:80 | Collapsing whitespace does not change a single-spaced string whose only white space is the space. |
| `SemanticCache.SliceShape` | src/cache/semantic-cache.js:82 | Cutting an allowed, single-spaced string keeps it allowed and single-spaced. |
| `SemanticCache.CleanedShape` | src/cache/semantic-cache.js:77-80 | After lower-casing, punctuation removal and collapsing, the text is allowed characters with single spaces. |
| `SemanticCache.StagesKeep` | src/cache/semantic-cache.js:77-80 | The first three normalisation stages do not change a string of allowed characters with single spaces. |
| `SemanticCache.NormalizeShape` | src/cache/semantic-cache.js:76-83 | A normalised key has at most 500 characters. It holds only lower-case letters, digits, `_` and single spaces, and does not start with a space. |
| `SemanticCache.NormalizeSettled` | src/cache/semantic-cache.js:76-83 | Normalising a key that has no space at either end gives its first 500 characters. |
| `SemanticCache.TrimOneSpace` | src/cache/semantic-cache.js:81 | Trimming a string that ends in exactly one space drops that space. |
| `SemanticCache.NormalizeTrailing` | src/cache/semantic-cache.js:80-82 | If the 500-character cut left a trailing space, normalising again drops it. |
| `SemanticCache.NormalizeTwice` | src/cache/semantic-cache.js:76-83 | Normalising twice gives the same key as normalising once, unless the cut left a trailing space, which the second pass drops. |
| `SemanticCache.NormalizeNotIdempotent` | src/cache/semantic-cache.js:80-82 | There is a prompt (499 letters, a space, a letter) whose key changes when normalised a second time. |
| `SemanticCache.Words` | src/cache/semantic-cache.js:87-88 | The set of words longer than three characters is empty for a key of at most three characters. |
| `SemanticCache.BonusRange` | src/cache/semantic-cache.js:97 | The length bonus lies between 0.7 and 1. |
| `SemanticCache.ScoreRange` | src/cache/semantic-cache.js:96-99 | When the common words are among all the words, the score lies in [0, 1] and does not depend on the order of the two keys. |
| `SemanticCache.SubsetSize` | src/cache/semantic-cache.js:90-91 | The intersection is no larger than the union. |
| `SemanticCache.ScoreFull` | src/cache/semantic-cache.js:96-99 | Keys of equal length with the same word set score 1. |
| `SemanticCache.SimilarityRange` | src/cache/semantic-cache.js:85-100 | The similarity is 0 when neither key has a word longer than three characters. It always lies in [0, 1] and is symmetric. |
| `SemanticCache.SimilaritySelf` | src/cache/semantic-cache.js:85-100 | A key with a word longer than three characters is fully similar to itself. |
| `SemanticCache.StoreSize` | src/cache/semantic-cache.js:156 | The Map's size equals the number of keys in its insertion order. |
| `SemanticCache.Put` | src/cache/semantic-cache.js:68 | Setting a key stores the entry under it. A new key goes to the end of the insertion order; an existing key keeps its place. |
| `SemanticCache.RemoveAt` | src/cache/semantic-cache.js:115 | Deleting a key removes just that entry and its place in the order. |
| `SemanticCache.FirstAtLeast` | src/cache/semantic-cache.js:34-37 | Finds the first position whose score reaches the threshold: every earlier score is below it. None means no score reaches it. |
| `SemanticCache.Lookup` | src/cache/semantic-cache.js:21-49 | An exact key wins. Otherwise the answer is the first key in insertion order that is at least 0.75 similar, with every earlier key below. None means no key qualifies. |
| `SemanticCache.Hit` | src/cache/semantic-cache.js:26-31 | A hit touches only the hit key's entry and keeps the order. |
| `SemanticCache.OldestUnique` | src/cache/semantic-cache.js:104-112 | At most one position is the first with the minimal `lastAccessed` strictly before now. |
| `SemanticCache.OldestFromFinds` | src/cache/semantic-cache.js:107-112 | The scan from any point keeps its invariant and ends at that unique position. |
| `SemanticCache.Oldest` | src/cache/semantic-cache.js:104-112 | Picks the first entry whose `lastAccessed` is minimal and strictly before now, or none if no entry was accessed before now. |
| `SemanticCache.EvictSpec` | src/cache/semantic-cache.js:102-118 | Eviction removes at most the one entry the scan picks and keeps every other entry. It removes nothing if no entry was accessed before now, and never removes the empty key. |
| `SemanticCache.SetKeyEntry` | src/cache/semantic-cache.js:59-68 | After `setCached`, the key holds a fresh entry: the given result and metadata, no hits, and `createdAt == lastAccessed == now`. Any earlier entry is overwritten. |
| `SemanticCache.SetKeyOthers` | src/cache/semantic-cache.js:54-68 | Every other key that remains keeps its entry. Below capacity, every key remains. |
| `SemanticCache.SetKeySize` | src/cache/semantic-cache.js:54-68 | `setCached` grows the Map by at most one entry, and evicts only at 100 entries or more. |
| `SemanticCache.SetKeyOverflow` | src/cache/semantic-cache.js:54-68 | If no access time is before now, a full Map loses nothing, so a new key takes it past 100 entries. |
| `SemanticCache.PreloadOneSpec` | src/cache/semantic-cache.js:220-233 | One preload round keeps every present key's entry and adds at most one key. An added entry has a `null` result and no hits. |
| `SemanticCache.PreloadSpec` | src/cache/semantic-cache.js:217-234 | Preloading never overwrites a key and adds at most one entry per pattern (three for the built-in list), with nothing evicted. Every added entry has a `null` result. |
| `SemanticCache.SumHitsAfterHit` | src/cache/semantic-cache.js:29 | A hit adds exactly one to the total of hits over any prefix that contains the hit key, and nothing over one that does not. |
| `SemanticCache.Earliest` | src/cache/semantic-cache.js:163-172 | The `oldestEntry` scan: no `createdAt` is earlier than its value, which is some entry's `createdAt` below the start bound. |
| `SemanticCache.Latest` | src/cache/semantic-cache.js:164-177 | The `newestEntry` scan: no `createdAt` is later than its value, which is some positive entry's `createdAt`. |
| `SemanticCache.SemanticCache.constructor` | src/cache/semantic-cache.js:6-11 | A new cache is empty and valid. |
| `SemanticCache.SemanticCache.GetCached` | src/cache/semantic-cache.js:21-49 | Returns the result of the entry `Lookup` picks and records the hit on it alone. With no qualifying key it returns `null` and changes nothing. A preloaded entry yields `null`. |
| `SemanticCache.SemanticCache.EvictOldest` | src/cache/semantic-cache.js:102-118 | The cache afterwards is `Evict` of the cache before; `EvictSpec` says what that removes. |
| `SemanticCache.SemanticCache.SetCached` | src/cache/semantic-cache.js:51-74 | The cache afterwards is `SetKey` of the cache before at the normalised prompt; `SetKeyEntry`, `SetKeyOthers` and `SetKeySize` say what that is. |
| `SemanticCache.SemanticCache.PreloadCommonPatterns` | src/cache/semantic-cache.js:198-237 | The cache afterwards is the three built-in patterns preloaded into the cache before. |
| `SemanticCache.SemanticCache.PreloadPatterns` | src/cache/semantic-cache.js:217-234 | The preload loop over any list of patterns gives `Preload` of the cache before. |
| `SemanticCache.SemanticCache.ClearCache` | src/cache/semantic-cache.js:185-186 | Every entry is dropped. |
| `SemanticCache.SemanticCache.GetStats` | src/cache/semantic-cache.js:154-183 | `size` is the number of entries and `totalHits` the sum of their hits. `avgHits` is their mean, 0 when empty. The earliest and latest creation times are those the two scans find. |
| `SemanticCache.Evict` | src/cache/semantic-cache.js:114-117 | Deletes the picked entry only if its key is truthy, and keeps the store well formed. |
| `SemanticCache.BeforeSet` | src/cache/semantic-cache.js:54-57 | `setCached` starts from the store itself below capacity, and from the evicted store at 100 entries or more. |
| `SemanticCache.SetKey` | src/cache/semantic-cache.js:51-68 | `setCached` on a normalised key keeps the store well formed. Its effect is stated by the `SetKey…` lemmas. |
| `SemanticCache.PreloadOne` | src/cache/semantic-cache.js:218-233 | One preload round adds the pattern under its normalised prompt only if that key is absent. |
| `SemanticCache.Preload` | src/cache/semantic-cache.js:217-234 | The preload rounds over a list of patterns, in order, with no capacity check. |
| `GenerationQueue.Added` | src/generation-queue.js:26-58 | `addJob` keeps the memory and disk records consistent. |
| `GenerationQueue.AddedSpec` | src/generation-queue.js:42-47 | After `addJob`, `getJob` returns the new job and its id is last in the queue. The flag and every other id read as before. |
| `GenerationQueue.Lookup` | src/generation-queue.js:60-76 | `getJob` returns the job in memory, else the disk record, else `null` (also for a file that does not parse). A job found has the id asked for. |
| `GenerationQueue.MergeLaws` | src/generation-queue.js:83 | An empty update changes nothing. The same update applied twice equals applying it once. The id, prompt, metadata and creation time never change. |
| `GenerationQueue.Updated` | src/generation-queue.js:78-92 | `updateJob` keeps the store consistent and never adds or removes a job in memory. |
| `GenerationQueue.UpdatedSpec` | src/generation-queue.js:78-92 | An unknown id yields `null` and changes nothing. A known job is merged, written to disk and returned by `getJob` afterwards; every other id reads as before. |
| `GenerationQueue.Progressed` | src/generation-queue.js:153-158 | Applying the progress events keeps the store consistent and the set of jobs in memory. |
| `GenerationQueue.Processed` | src/generation-queue.js:136-184 | `processJob` keeps the store consistent and the set of jobs in memory. |
| `GenerationQueue.ProgressedLookup` | src/generation-queue.js:153-158 | The progress events change the processed job as `ProgressJob` says, and no other id. |
| `GenerationQueue.ProcessedLookup` | src/generation-queue.js:136-184 | An unknown id changes nothing. A known job becomes `ProcessJobValue` of it, and no other id changes. |
| `GenerationQueue.StepNames` | src/generation-queue.js:156 | Lists the step names of the events, in order. |
| `GenerationQueue.ProgressJobProgress` | src/generation-queue.js:154-157 | Each event sets the progress, so the last event's value remains. Only progress and steps change. |
| `GenerationQueue.ProgressJobStepsInMemory` | src/generation-queue.js:153-158 | A job in memory gets every step name appended, in order. |
| `GenerationQueue.ProgressJobStepsFromDisk` | src/generation-queue.js:137-158 | A job read from disk ends with only its original steps plus the last step name, because `job.steps` is the unchanged copy. |
| `GenerationQueue.ProcessJobValueSpec` | src/generation-queue.js:140-183 | A run ends `completed` with progress 100, its result and both times. A failure ends `failed` with the error message and the last event's progress. A job in memory has every step name appended. |
| `GenerationQueue.Drained` | src/generation-queue.js:128-131 | The drain loop empties the queue and keeps the flag and a consistent store. |
| `GenerationQueue.ProcessedAll` | src/generation-queue.js:128-131 | Processing ids one after another keeps the store consistent and the set of jobs in memory. |
| `GenerationQueue.Started` | src/generation-queue.js:124-134 | `startProcessing` keeps the store consistent. |
| `GenerationQueue.DrainedFifo` | src/generation-queue.js:128-131 | Draining leaves the jobs as if the queued ids were processed one by one in queue order (FIFO). |
| `GenerationQueue.StartedSpec` | src/generation-queue.js:124-134 | With a drain under way, `startProcessing` changes nothing. Otherwise it processes the queue in order and leaves it empty with the flag cleared. |
| `GenerationQueue.ProcessedAllKeeps` | src/generation-queue.js:128-131 | An id that is not processed reads as before. |
| `GenerationQueue.ProcessedAllStaysFinished` | src/generation-queue.js:164-180 | A completed or failed job is still completed or failed after being processed again. |
| `GenerationQueue.ProcessedAllFinished` | src/generation-queue.js:128-180 | After the drain, every processed id that was known holds a completed or failed job. |
| `GenerationQueue.RestoreOne` | src/generation-queue.js:109-116 | One restored file keeps the disk and the flag unchanged and the store consistent. |
| `GenerationQueue.Restored` | src/generation-queue.js:99-122 | Restoring keeps the disk and the flag unchanged and the store consistent. A file that does not parse ends the restore. |
| `GenerationQueue.RestoredSpec` | src/generation-queue.js:103-118 | Restoring only appends to the queue, and only ids of pending or processing jobs that are then in memory. It loads only such jobs, so terminal jobs are never re-run. |
| `GenerationQueue.RestoredComplete` | src/generation-queue.js:103-118 | When every listed file parses, every listed pending or processing job is in memory and queued. |
| `GenerationQueue.RestoreOneCount` | src/generation-queue.js:112-114 | One restored file adds its id to the queue once if the job is pending or processing, and no other id. |
| `GenerationQueue.RestoredCount` | src/generation-queue.js:103-118 | With distinct, parseable files, each listed pending or processing job is queued exactly once more than before, and nothing else is queued. |
| `GenerationQueue.RestoredOnce` | src/generation-queue.js:103-118 | A pending or processing job on disk, restored into a queue that does not hold it, is queued exactly once. |
| `GenerationQueue.GenerationQueue.constructor` | src/generation-queue.js:7-13 | A new queue is empty and not processing, and has no jobs in memory over the given disk. |
| `GenerationQueue.GenerationQueue.AddJob` | src/generation-queue.js:26-58 | Returns the given id. The state afterwards is `Added` of the state before, which `AddedSpec` describes. |
| `GenerationQueue.GenerationQueue.GetJob` | src/generation-queue.js:60-76 | Returns `Lookup`: memory first, then disk, else `null`. |
| `GenerationQueue.GenerationQueue.UpdateJob` | src/generation-queue.js:78-92 | Returns `UpdateResult`, and the store becomes `Updated`. The queue and flag are untouched. |
| `GenerationQueue.GenerationQueue.ProcessJob` | src/generation-queue.js:136-184 | The store becomes `Processed` of the store before, with the queue and flag untouched. |
| `GenerationQueue.GenerationQueue.StartProcessing` | src/generation-queue.js:124-134 | The state becomes `Started` of the state before; `StartedSpec` and `DrainedFifo` describe it. |
| `GenerationQueue.GenerationQueue.RestoreJobs` | src/generation-queue.js:99-122 | The state becomes `Restored` over the listed files; `RestoredSpec`, `RestoredComplete` and `RestoredOnce` describe it. |
| `QualityEnhancer.AsSearchable` | src/quality/enhancer.js:112-184 | A file content supports `includes` exactly when it is a string or an array. |
| `QualityEnhancer.Text` | src/quality/enhancer.js:207-246 | A property supports `match` and `split` exactly when it is a string. |
| `QualityEnhancer.ComponentScore` | src/quality/enhancer.js:112-136 | `evaluateReactComponent` scores between 5 and 10. It is 10 exactly when none of the four checks fails, and at most 8 without an export. |
| `QualityEnhancer.PageScore` | src/quality/enhancer.js:138-157 | `evaluateReactPage` scores between 5 and 10. It is 10 exactly with a default export, a `Head` or `<title>`, and responsive class names; at most 8 without a default export. |
| `QualityEnhancer.ApiScore` | src/quality/enhancer.js:159-173 | `evaluateApiRoute` scores between 5 and 10. It is 10 exactly with an exported handler and a `try`/`catch`. |
| `QualityEnhancer.StyleScore` | src/quality/enhancer.js:175-184 | `evaluateCSS` scores between 7 and 10. It is 10 exactly without `!important`. |
| `QualityEnhancer.ContentScore` | src/quality/enhancer.js:95-110 | A scored type gives 5 to 10 (CSS at least 7) and throws exactly when the content has no `includes`. Every other type scores exactly 8. |
| `QualityEnhancer.FileStep` | src/quality/enhancer.js:78-90 | One file costs at most one point. It throws exactly on a `null` file, or on a complete file whose content scorer throws. |
| `QualityEnhancer.FilesRaw` | src/quality/enhancer.js:76-90 | Before the floor, the file score lies between 10 minus one point per file and 10. |
| `QualityEnhancer.FilesRawFails` | src/quality/enhancer.js:78-90 | A throw on a prefix of the files is the throw of the whole loop. |
| `QualityEnhancer.FilesScore` | src/quality/enhancer.js:75-93 | `evaluateFiles` is at least 5 and at most 10. It throws exactly when the loop throws. |
| `QualityEnhancer.FilesScoreClean` | src/quality/enhancer.js:78-92 | Complete files that each score at least 8 keep the full 10. |
| `QualityEnhancer.EvaluateFiles` | src/quality/enhancer.js:75-93 | The loop returns exactly `FilesScore` of the files. |
| `QualityEnhancer.AfterLastSlash` | src/quality/enhancer.js:207 | The suffix after the last `/`, itself free of `/`, or the whole path. |
| `QualityEnhancer.ComponentNameOf` | src/quality/enhancer.js:207-209 | `([^/]+)\.js$` gives the non-empty last path segment without `.js`, or no match when the path does not end in a named `.js` segment. |
| `QualityEnhancer.ComponentNamesFails` | src/quality/enhancer.js:205-212 | A throw on a prefix of the files is the throw of the whole name collection. |
| `QualityEnhancer.CountUnknownSpec` | src/quality/enhancer.js:227-231 | The count of unknown names is at most the number of imported names, and zero exactly when none is unknown. |
| `QualityEnhancer.FileImports` | src/quality/enhancer.js:216-234 | Counting one file's imports throws exactly on a `null` file or a content that is not a string. |
| `QualityEnhancer.ImportsRawAdds` | src/quality/enhancer.js:215-235 | A file the loop can read adds its count. |
| `QualityEnhancer.ImportsRawStops` | src/quality/enhancer.js:215-235 | A file the loop cannot read throws its error. |
| `QualityEnhancer.ImportsRawFails` | src/quality/enhancer.js:215-235 | Once the import loop has thrown, later files change nothing. |
| `QualityEnhancer.ImportsRawNeedsText` | src/quality/enhancer.js:216 | A file whose content is not a string makes the import loop throw. |
| `QualityEnhancer.ImportIssues` | src/quality/enhancer.js:200-238 | `checkImportCoherence` is at most 5. |
| `QualityEnhancer.ImportIssuesNeedText` | src/quality/enhancer.js:216 | Whatever the patterns, one file without string content makes `checkImportCoherence` throw. |
| `QualityEnhancer.CollectComponentNames` | src/quality/enhancer.js:205-212 | The first loop returns exactly `ComponentNames` of the files. |
| `QualityEnhancer.CountUnknownImports` | src/quality/enhancer.js:227-231 | The loop counts exactly `CountUnknown` of the names. |
| `QualityEnhancer.CountImportIssues` | src/quality/enhancer.js:215-235 | The second loop returns exactly `ImportsRaw` over all files. |
| `QualityEnhancer.CountFileImports` | src/quality/enhancer.js:216-234 | The body for one file returns exactly `FileImports`. |
| `QualityEnhancer.CheckImportCoherence` | src/quality/enhancer.js:200-238 | The method returns exactly `ImportIssues`. |
| `QualityEnhancer.NamingStep` | src/quality/enhancer.js:244-257 | One file adds at most two issues, and none unless it is a component. A `null` file or a path that is not a string throws. |
| `QualityEnhancer.NamingRaw` | src/quality/enhancer.js:244-257 | Before the cap there are at most two issues per file. |
| `QualityEnhancer.NamingRawFails` | src/quality/enhancer.js:244-257 | A throw on a prefix of the files is the throw of the whole loop. |
| `QualityEnhancer.NamingIssues` | src/quality/enhancer.js:240-261 | `checkNamingCoherence` is at most 3, and 0 with falsy `files`. |
| `QualityEnhancer.CheckNamingCoherence` | src/quality/enhancer.js:240-261 | The method returns exactly `NamingIssues`. |
| `QualityEnhancer.CoherenceScore` | src/quality/enhancer.js:186-198 | `evaluateCoherence` lies between 6.6 and 10: the two caps keep it above its floor of 6. |
| `QualityEnhancer.EvaluateCoherence` | src/quality/enhancer.js:186-198 | The method returns exactly `CoherenceScore`. |
| `QualityEnhancer.Checks` | src/quality/enhancer.js:39-57 | When nothing throws, the scoring stages on a parsed value give between 5 and 10. |
| `QualityEnhancer.ScoreRange` | src/quality/enhancer.js:28-64 | `evaluate` lies in [0, 10]. It is exactly 3 when the text is not JSON or a check threw, and at least 5 otherwise. |
| `QualityEnhancer.ScoreInvalid` | src/quality/enhancer.js:33-60 | Text that is not JSON scores 3, and so does `null`, whose properties cannot be read. |
| `QualityEnhancer.ScoreMissingContent` | src/quality/enhancer.js:55-60 | An object whose files array holds a file without string content scores 3, whatever else it holds. |
| `QualityEnhancer.Evaluate` | src/quality/enhancer.js:28-64 | The method returns exactly `Score` of the text. |
| `QualityEnhancer.FileIssuesStep` | src/quality/enhancer.js:300-318 | One file adds `file_invalid` for a falsy path, then `file_empty` for a falsy content. A `null` file throws and stops the walk. |
| `QualityEnhancer.FileIssuesStop` | src/quality/enhancer.js:300-318 | Once the walk has thrown, later files change nothing. |
| `QualityEnhancer.InOrderAppend` | src/quality/enhancer.js:279-319 | Two ordered lists whose elements are pairwise in order concatenate to an ordered list. |
| `QualityEnhancer.FileIssuesOrdered` | src/quality/enhancer.js:300-318 | The file issues come in file order, path before content, and name only files that were walked. |
| `QualityEnhancer.FileIssuesBounded` | src/quality/enhancer.js:300-318 | No issue names a file beyond those walked. |
| `QualityEnhancer.FileIssuesComplete` | src/quality/enhancer.js:300-318 | Without a `null` file the walk finishes. It reports exactly the files with a falsy path and those with a falsy content. |
| `QualityEnhancer.FileIssuesLast` | src/quality/enhancer.js:300-318 | The last file, when reached, adds only its own issues. |
| `QualityEnhancer.IssuesInOrder` | src/quality/enhancer.js:263-330 | `detectIssues` reports in a fixed order: name, then files, then per file by index with path before content, and a parse error last. |
| `QualityEnhancer.ValueIssuesInOrder` | src/quality/enhancer.js:276-327 | The issues found on a parsed value are in that same order. |
| `QualityEnhancer.IssuesInvalid` | src/quality/enhancer.js:267-274 | Text that is not JSON has exactly one issue, `json_invalid`, with severity critical. |
| `QualityEnhancer.CollectFileIssues` | src/quality/enhancer.js:299-319 | The `forEach` returns exactly `FileIssues`, with a flag that is false when a `null` file threw. |
| `QualityEnhancer.DetectIssues` | src/quality/enhancer.js:263-330 | The method returns exactly `Issues` of the text. |
| `QualityEnhancer.DetectIn` | src/quality/enhancer.js:276-327 | The `try` body returns exactly `ValueIssues` of the parsed value. |
| `QualityEnhancer.FirstIndexOf` | src/quality/enhancer.js:380 | Finds the first position of a character, or none when it does not occur. |
| `QualityEnhancer.LastIndexOf` | src/quality/enhancer.js:380 | Finds the last position of a character, or none when it does not occur. |
| `QualityEnhancer.JsonSpan` | src/quality/enhancer.js:380-383 | The match runs from `{` to `}`. No match means no `}` follows any `{`. |
| `QualityEnhancer.FallbackWellFormed` | src/quality/enhancer.js:399-405 | The fallback application is a well-formed value. |
| `QualityEnhancer.FixJsonStructureParses` | src/quality/enhancer.js:375-412 | Whatever the rewrites do, the repaired text parses. When they fail it is the fallback application, named "Generated App" with no files. |
| `QualityEnhancer.FirstMeaningful` | src/quality/enhancer.js:470-476 | Finds a word longer than three letters outside the stop list, or none exactly when there is no such word. |
| `QualityEnhancer.FirstMeaningfulIsFirst` | src/quality/enhancer.js:471-477 | The word picked is the first that qualifies. |
| `QualityEnhancer.GenerateAppName` | src/quality/enhancer.js:468-481 | The generated name has more than three characters and ends in `App`. |
| `QualityEnhancer.GenerateAppNameFirst` | src/quality/enhancer.js:468-481 | The name is `GeneratedApp` when no word of the lower-cased prompt qualifies. Otherwise it is the first qualifying word, capitalised, followed by `App`. |
| `QualityEnhancer.BasicFileContent` | src/quality/enhancer.js:483-521 | The template chosen by the key the type converts to: the page and api templates for those keys, ComponentTemplate for any other non-inherited key. `__proto__` reads `Object.prototype` and other inherited names read a method. A template is never empty. |
| `QualityEnhancer.MissingValueFacts` | src/quality/enhancer.js:418-428 | The value added for a missing field is truthy and well formed. |
| `QualityEnhancer.FixMissingFieldSets` | src/quality/enhancer.js:414-437 | On an object, the fix sets the field to its value (`[]` for files) and leaves every other property as it was. The text still parses. |
| `QualityEnhancer.FillFacts` | src/quality/enhancer.js:446-456 | Filling a key with a truthy, well-formed value makes it truthy, keeps every truthy property and keeps the object well formed. |
| `QualityEnhancer.FillContentFacts` | src/quality/enhancer.js:450-452 | Filling the content keeps the object well formed and every truthy property. The content is then truthy unless it was left out because the template is a function. |
| `QualityEnhancer.PatchFileFacts` | src/quality/enhancer.js:443-456 | The patched file has a truthy path and type, and a truthy content unless `DropsContent`. It keeps every truthy property and stays well formed. |
| `QualityEnhancer.FixFileIssueRepairs` | src/quality/enhancer.js:439-466 | On an object whose files array holds an object at the index, only that file changes. It gets a truthy path and type, a truthy content unless `DropsContent`, and keeps its truthy properties. |
| `QualityEnhancer.PatchFilesAt` | src/quality/enhancer.js:443-457 | For an object file in the files array, the patch replaces just that element. |
| `QualityEnhancer.ItemWellFormed` | src/quality/enhancer.js:443-444 | The files array of a well-formed object, and each file in it, are well formed. |
| `QualityEnhancer.UpdateWellFormed` | src/quality/enhancer.js:443-460 | Replacing one file by a well-formed one keeps the object well formed. |
| `QualityEnhancer.FixSingle` | src/quality/enhancer.js:358-373 | Unknown issue kinds, among them `json_parse_error`, leave the text unchanged. |
| `QualityEnhancer.FixAll` | src/quality/enhancer.js:338-346 | The fix loop records one improvement per issue. |
| `QualityEnhancer.FixAllSkips` | src/quality/enhancer.js:358-373 | Issues the fixer does not know leave the text as it was. |
| `QualityEnhancer.FixReport` | src/quality/enhancer.js:332-356 | `fixIssues` returns a score equal to `evaluate` of its returned text, with one improvement per issue, since no fix throws on a string. |
| `QualityEnhancer.FixAllStep` | src/quality/enhancer.js:338-346 | Each fix works on the text the previous fix returned, and appends its improvement. |
| `QualityEnhancer.FixIssues` | src/quality/enhancer.js:332-356 | The method returns exactly `FixReport`. |
| `QualityEnhancer.Enhancement` | src/quality/enhancer.js:8-26 | A score of at least 8 keeps the text with no improvements. A lower score runs the fixes once over the detected issues, one improvement each. Either way the reported score is that of the returned text. |
| `QualityEnhancer.EnhanceRepairsInvalid` | src/quality/enhancer.js:8-26 | Text that is not JSON comes back as JSON, repaired by `fixJSONStructure`, with one improvement. |
| `QualityEnhancer.EnhanceNull` | src/quality/enhancer.js:8-26 | `null` comes back unchanged with score 3: its only issue is a parse error that no fix handles. |
| `QualityEnhancer.Enhance` | src/quality/enhancer.js:8-26 | The method returns exactly `Enhancement`. |
| `StreamingHandler.FillerAt` | src/streaming-handler.js:66 | The length of the filler phrase matched case-insensitively at the start, at most the text's length. |
| `StreamingHandler.RemoveFillers` | src/streaming-handler.js:66 | Removing the filler phrases never makes the text longer. |
| `StreamingHandler.RemoveFillersPlain` | src/streaming-handler.js:66 | A prompt in which no filler phrase starts is left unchanged. |
| `StreamingHandler.LeadingDots` | src/streaming-handler.js:68 | Counts the dots at the start: all of them are dots, and the next character is not. |
| `StreamingHandler.LeadingDotsExact` | src/streaming-handler.js:68 | Where the leading run of dots stops fixes its length. |
| `StreamingHandler.CollapseDots` | src/streaming-handler.js:68 | Collapsing dot runs keeps the first character and is empty only on empty input. |
| `StreamingHandler.DotRuns` | src/streaming-handler.js:68 | The maximal runs of dots, left to right, each of length at least 1. |
| `StreamingHandler.DotRunsCons` | src/streaming-handler.js:68 | A run of dots followed by a non-dot counts as one run. |
| `StreamingHandler.DotRunsOther` | src/streaming-handler.js:68 | A non-dot character adds no run. |
| `StreamingHandler.DotRunsPrefix` | src/streaming-handler.js:68 | A prefix with no dots adds no run. |
| `StreamingHandler.DotRunsSuffix` | src/streaming-handler.js:68 | A suffix with no dots adds no run. |
| `StreamingHandler.Squashed` | src/streaming-handler.js:68 | A run of length 1 stays 1; a longer run becomes 3. |
| `StreamingHandler.CollapseDotsRuns` | src/streaming-handler.js:68 | Collapsing keeps every run of dots, in order, and brings each to length 1 or 3. |
| `StreamingHandler.JoinNoSpaceRun` | src/streaming-handler.js:67-68 | Joining pieces keeps white space single and plain unless the join puts two white-space characters side by side. |
| `StreamingHandler.CollapseDotsSpaces` | src/streaming-handler.js:67-68 | Collapsing dots does not create runs of white space or new kinds of white space. |
| `StreamingHandler.DotRunsAround` | src/streaming-handler.js:68-69 | Parts with no dots on either side of a middle add no run. |
| `StreamingHandler.DotRunsSlice` | src/streaming-handler.js:69 | Cutting off parts with no dots keeps the runs of dots. |
| `StreamingHandler.TrimKeepsRuns` | src/streaming-handler.js:69 | Trimming removes only white space, so the runs of dots stay those of the untrimmed text. |
| `StreamingHandler.SliceNoSpaceRun` | src/streaming-handler.js:69 | A slice keeps white space single. |
| `StreamingHandler.SlicePlainSpaces` | src/streaming-handler.js:69 | A slice keeps white space plain. |
| `StreamingHandler.TrimNoSpaceRun` | src/streaming-handler.js:69 | Trimming keeps white space single. |
| `StreamingHandler.TrimPlainSpaces` | src/streaming-handler.js:69 | Trimming keeps white space plain. |
| `StreamingHandler.CompressPromptShape` | src/streaming-handler.js:63-70 | `compressPrompt` returns trimmed text with no two white-space characters in a row, the space as its only white space, and every maximal run of dots of length 1 or 3. |
| `StreamingHandler.Selected` | src/streaming-handler.js:11-20 | An absent model or an empty id selects the default model. A non-empty id or a callback is kept as the selected model. |
| `StreamingHandler.GetModelConfig` | src/streaming-handler.js:41-61 | Always one of the three configurations. A callback passed as the model gets the 8000-token one. |
| `StreamingHandler.ConfigForSpec` | src/streaming-handler.js:41-61 | The three known ids get 2000, 8000 and 12000 tokens, with the simple, detailed and comprehensive prompts. Every other id, including the Haiku 3.5 id of the fast mode, gets the 8000-token configuration. |
| `StreamingHandler.ConfigForAsWritten` | src/streaming-handler.js:60 | As written: an id outside the inherited `Object.prototype` names reads its own configuration, as `ConfigFor` gives it. |
| `StreamingHandler.InheritedNameNotAConfig` | src/streaming-handler.js:60 | As written, the id "toString" reads an inherited function instead of a configuration. The corrected lookup gives the 8000-token default. |
| `StreamingHandler.SystemPromptFor` | src/streaming-handler.js:76-148 | The system prompt is never empty. A complexity other than simple or comprehensive, and outside the inherited names, gets the detailed prompt. |
| `StreamingHandler.SystemPromptsDistinct` | src/streaming-handler.js:76-146 | The three prompts differ, so each complexity gets its own. |
| `StreamingHandler.Chunks` | src/streaming-handler.js:160-164 | The texts of the `content_block_delta` messages in order, with a missing text as "". At most one per message. |
| `StreamingHandler.Preview` | src/streaming-handler.js:171 | The preview has at most 200 characters. |
| `StreamingHandler.ChunksAppend` | src/streaming-handler.js:160-164 | Delta texts keep their order across concatenated streams. |
| `StreamingHandler.OtherMessagesIgnored` | src/streaming-handler.js:161 | A message of any other type contributes nothing. |
| `StreamingHandler.StreamResultSplits` | src/streaming-handler.js:177 | The result of a stream is the result of its first half followed by that of its second half. |
| `StreamingHandler.StreamingEventsSpec` | src/streaming-handler.js:166-173 | There is one `streaming` call per ten deltas. The k-th reports 10·k deltas processed and a preview of at most 200 characters. |
| `StreamingHandler.StreamOutcomeSpec` | src/streaming-handler.js:159-194 | The stream ends with one `complete` call carrying the delta count and the result's length, and returns the joined text. On an iteration error it ends with one `error` call and passes the error on. |
| `StreamingHandler.HandleStream` | src/streaming-handler.js:154-195 | The accumulation loop produces exactly the progress calls and the result of `StreamOutcome`. |
| `StreamingHandler.Handler.constructor` | src/streaming-handler.js:5-13 | A new handler has stored no system prompt. |
| `StreamingHandler.Handler.GetSystemPrompt` | src/streaming-handler.js:72-152 | Returns the prompt for the complexity, defaulting to "detailed". It stores the prompt under that complexity without touching the others. On a repeat call it returns the stored string and changes nothing. |
| `StreamingHandler.Handler.GenerateWithStream` | src/streaming-handler.js:15-38 | Sends `Prepared` of the compressed prompt and the model. Its progress calls and result are those the reply gives. The only change to the prompt store is the system prompt of the model's complexity, which is the one sent. |
| `StreamingHandler.Handler.PrepareRequest` | src/streaming-handler.js:15-34 | Builds `Prepared` of the compressed prompt and the model. The system prompt it sends is the one stored for the model's complexity, and that prompt is the only change to the store. |
| `StreamingHandler.Handler.GenerateLargeContent` | src/streaming-handler.js:198-210 | Returns `LargeContent`: the answers of the sections combined, or the first failing section's error. The prompt store afterwards holds the detailed prompt under "detailed" and is otherwise unchanged. |
| `StreamingHandler.Handler.AnswerSection` | src/streaming-handler.js:203-206 | One section is answered as `Answers` says, with the callback in the model slot. It stores the detailed prompt under "detailed". |
| `StreamingHandler.PreparedFrom` | src/streaming-handler.js:20-33 | A request built from the selected configuration and the stored system prompt is the prepared request. |
| `StreamingHandler.PreparedSpec` | src/streaming-handler.js:15-34 | No model, or an empty id, sends the default model with 12000 tokens. A callback in the model slot is sent as the model, with 8000 tokens and the detailed system prompt. A non-empty id gets its own token limit. |
| `StreamingHandler.TrimAll` | src/streaming-handler.js:221-230 | Trims each section: same length, element by element. |
| `StreamingHandler.SplitSections` | src/streaming-handler.js:212-234 | `splitPromptIntoSections` never returns an empty list. |
| `StreamingHandler.Dropped` | src/streaming-handler.js:219-220 | The number of leading sentences longer than 1000 characters: all before it are, and the next is not. |
| `StreamingHandler.EndedNotBlank` | src/streaming-handler.js:222-229 | A section ending in ". " is never blank. |
| `StreamingHandler.PiecesEnds` | src/streaming-handler.js:218-231 | Once the current section holds something, there is at least one piece, and every piece ends with ". ". |
| `StreamingHandler.PiecesJoin` | src/streaming-handler.js:218-231 | Once the current section holds something, the pieces together are the section followed by the remaining sentences, in order, none dropped. |
| `StreamingHandler.PiecesDrop` | src/streaming-handler.js:219-223 | From an empty section, the leading sentences longer than 1000 characters are dropped. |
| `StreamingHandler.SplitSectionsWhole` | src/streaming-handler.js:229-233 | With no sentence of at most 1000 characters nothing is pushed and the prompt is returned whole. Otherwise there are pieces. |
| `StreamingHandler.KeptPieces` | src/streaming-handler.js:218-226 | Sentences kept from an empty section start it and are not lost. |
| `StreamingHandler.SplitSectionsOrder` | src/streaming-handler.js:214-231 | The pieces together give back the kept sentences in order, each followed by ". ". Only the leading long sentences, met while no section has started, are lost. |
| `StreamingHandler.SplitSectionsTrimmed` | src/streaming-handler.js:221-233 | When some sentence is kept, the sections are the pieces trimmed, each non-empty. |
| `StreamingHandler.TrimAllAppend` | src/streaming-handler.js:221-230 | Trimming each element distributes over concatenation. |
| `StreamingHandler.PiecesStep` | src/streaming-handler.js:219-226 | One loop step, its three cases: close the section and start a new one, drop the sentence, or append it. |
| `StreamingHandler.SplitPromptIntoSections` | src/streaming-handler.js:212-234 | The loop returns exactly `SplitSections` of the prompt. |
| `StreamingHandler.CombineGroups` | src/streaming-handler.js:236-239 | Combining two groups of results is combining each and putting a blank line between them. |
| `StreamingHandler.SectionResultsFail` | src/streaming-handler.js:202-207 | Once a section has failed, later sections change nothing. |
| `StreamingHandler.SectionResultsOk` | src/streaming-handler.js:202-207 | The answers are collected exactly when every section is answered: one per section, in section order. |
| `StreamingHandler.SectionResultsErr` | src/streaming-handler.js:202-207 | Otherwise the error is that of the first section whose request fails. |
| `StreamingHandler.SectionRequestSpec` | src/streaming-handler.js:203 | As written, every section is sent with the callback as its model, so it gets 8000 tokens and the detailed system prompt whatever its size. |
| `StreamingGenerator.AssignUnique` | src/streaming-generator.js:130-135 | Object spread and assignment keep the keys of an object distinct. |
| `StreamingGenerator.AssignFresh` | src/streaming-generator.js:147 | Spreading fields that already have distinct keys copies them as they are. |
| `StreamingGenerator.SpreadFacts` | src/streaming-generator.js:146-147 | `{...v}` always has distinct keys, and copies a well-formed object's fields exactly. |
| `StreamingGenerator.CategoryWords` | src/streaming-generator.js:215-227 | The three category keywords are always one of the five groups. |
| `StreamingGenerator.CategoryPriority` | src/streaming-generator.js:215-227 | The first matching group wins, in the order ecommerce/shop, food, travel, tech, generic, stated in both directions. |
| `StreamingGenerator.CategoryWordsDistinct` | src/streaming-generator.js:217-226 | Each group has three different keywords, none of them a name topic. |
| `StreamingGenerator.Mentioned` | src/streaming-generator.js:232-234 | A topic is picked exactly when the name mentions it. |
| `StreamingGenerator.MentionedDistinct` | src/streaming-generator.js:232-234 | Picking from topics with no repeats gives no repeats. |
| `StreamingGenerator.NameWords` | src/streaming-generator.js:230-235 | The name topics, music, fitness and education, each once, exactly those the lower-cased name mentions. |
| `StreamingGenerator.Dedup` | src/streaming-generator.js:237 | `[...new Set(xs)]` has no repeats and holds exactly the elements of `xs`. |
| `StreamingGenerator.DedupDistinct` | src/streaming-generator.js:237 | A list without repeats is left as it is. |
| `StreamingGenerator.Keywords` | src/streaming-generator.js:229-237 | Fails exactly when the name is truthy but not a string, where `toLowerCase` throws. |
| `StreamingGenerator.WithTopics` | src/streaming-generator.js:229-237 | The keywords come first with no repeats, and a topic is present exactly when the name mentions it. |
| `StreamingGenerator.KeywordsSpec` | src/streaming-generator.js:211-238 | The list starts with the category keywords, repeats nothing, and holds a topic exactly when the lower-cased name mentions it. |
| `StreamingGenerator.ExtractImageKeywords` | src/streaming-generator.js:211-238 | Fails exactly when the name is truthy but not a string. Otherwise the list is non-empty and duplicate-free, and its first three are the category keywords. |
| `StreamingGenerator.KeywordsFromName` | src/streaming-generator.js:229-235 | A topic is a keyword exactly when the lower-cased name mentions it. Without a name, only the category's three remain. |
| `StreamingGenerator.ImagesStep` | src/streaming-generator.js:191-199 | Searching one more keyword writes one more property. |
| `StreamingGenerator.ImagesGet` | src/streaming-generator.js:191-199 | Each searched keyword reads its images; every other key is absent. |
| `StreamingGenerator.ImagesInOrder` | src/streaming-generator.js:191-199 | Distinct keywords give the properties in keyword order. |
| `StreamingGenerator.AttachArray` | src/streaming-generator.js:201 | An array gets its `images` property after its indices. It becomes the object of its own properties, which is what every later spread of it copies. |
| `StreamingGenerator.AttachObject` | src/streaming-generator.js:188-201 | The keyword list is never empty, so an object always gets `images`, for exactly the three category keywords. The name topics come after them and are never searched. |
| `StreamingGenerator.EnrichedObject` | src/streaming-generator.js:175-204 | An object, given or parsed from the text, gets the images of its category's keywords. |
| `StreamingGenerator.EnrichedUnchanged` | src/streaming-generator.js:179-207 | Text that does not parse, and `null` or a primitive (given or parsed), come back unchanged. |
| `StreamingGenerator.EnrichWithImages` | src/streaming-generator.js:175-209 | The method returns exactly `Enriched` of its inputs; `EnrichedObject` and `EnrichedUnchanged` describe it. |
| `StreamingGenerator.SearchImages` | src/streaming-generator.js:189-199 | The search loop sets one property per keyword, in turn, as `Images` gives them. |
| `StreamingGenerator.FirstNameWord` | src/streaming-generator.js:282-287 | Finds the first word longer than three characters outside the stop list (compared in lower case), or none exactly when there is no such word. |
| `StreamingGenerator.FirstNameWordIsFirst` | src/streaming-generator.js:282-288 | The word found is `meaningfulWords[0]`: it occurs in the word list, and no qualifying word comes before it. |
| `StreamingGenerator.ExtractAppName` | src/streaming-generator.js:279-292 | The name always ends in `App` and has at least five characters. It is `MyApp` exactly when no word qualifies. |
| `StreamingGenerator.ExtractAppNameFirst` | src/streaming-generator.js:279-292 | When some space-separated word qualifies, the name is the first qualifying word, capitalised, followed by `App`. |
| `StreamingGenerator.FallbackName` | src/streaming-generator.js:241 | The extracted name is never empty, so the `'GeneratedApp'` default never fires. |
| `StreamingGenerator.GetAt` | src/streaming-generator.js:243-276 | A property of an object with distinct keys reads the value stored under it. |
| `StreamingGenerator.FallbackKeysDistinct` | src/streaming-generator.js:243-276 | The eleven property names of the fallback differ pairwise. |
| `StreamingGenerator.ObjectKeys` | src/streaming-generator.js:243-276 | An object literal whose keys differ pairwise has distinct keys. |
| `StreamingGenerator.FallbackPagesWellFormed` | src/streaming-generator.js:248-254 | The fallback's `pages` value is well formed. |
| `StreamingGenerator.ComponentWellFormed` | src/streaming-generator.js:256-257 | One fallback component is well formed. |
| `StreamingGenerator.FallbackComponentsWellFormed` | src/streaming-generator.js:255-258 | The fallback's `components` value is well formed. |
| `StreamingGenerator.FallbackContextsWellFormed` | src/streaming-generator.js:259-264 | The fallback's `contexts` and `apiRoutes` values are well formed. |
| `StreamingGenerator.FallbackDesignWellFormed` | src/streaming-generator.js:266-269 | The fallback's `designSystem` value is well formed. |
| `StreamingGenerator.FallbackMetadataWellFormed` | src/streaming-generator.js:270-275 | The fallback's `metadata` value is well formed. |
| `StreamingGenerator.FallbackKeysOf` | src/streaming-generator.js:243-276 | The fallback has the eleven properties of `createFallbackResult`, in order. |
| `StreamingGenerator.FallbackValues` | src/streaming-generator.js:243-276 | Every property value of the fallback is well formed. |
| `StreamingGenerator.FallbackWellFormed` | src/streaming-generator.js:240-277 | The fallback is a well-formed object. |
| `StreamingGenerator.FallbackRoundTrip` | src/streaming-generator.js:240-277 | The fallback serialises to JSON that parses back to it. |
| `StreamingGenerator.FallbackMarked` | src/streaming-generator.js:244-275 | The fallback has `projectType: 'fallback'` and its metadata. |
| `StreamingGenerator.FallbackCarries` | src/streaming-generator.js:245-247 | The fallback carries the extracted app name and the error message. |
| `StreamingGenerator.FallbackMetadataFacts` | src/streaming-generator.js:270-275 | The fallback's metadata has `fallback: true` and the error message. |
| `StreamingGenerator.FinishingSteps` | src/streaming-generator.js:94-144 | The finishing events, stage by stage, are the four steps at 80, 90, 95 and 100. |
| `StreamingGenerator.Probe` | src/streaming-generator.js:37-44 | The cache check answers only with the cache on, and only from a key that is present. |
| `StreamingGenerator.Probed` | src/streaming-generator.js:44 | The cache after the lookup, with any hit recorded, is well formed. |
| `StreamingGenerator.SentWithCallback` | src/streaming-generator.js:81-91 | As written, whatever the settings, the callback is sent as the model. The request gets 8000 tokens and the detailed system prompt, and its content is the compressed, optionally enhanced prompt. |
| `StreamingGenerator.IntendedSentSpec` | src/streaming-generator.js:81-91 | Intended: sent with no model, the request gets the default model with 12000 tokens and the same content. |
| `StreamingGenerator.IntendedStreamProgress` | src/streaming-generator.js:83-90 | Intended: every event passed on is a `streaming` step, and a rejected request passes on none. A stream of n deltas passes on n/10 + 1 events: the k-th of the first n/10 at 21 + k percent, the last at 20. |
| `StreamingGenerator.ImprovementFacts` | src/streaming-generator.js:100-111 | With the quality check off, the text passes with score 10 and no improvements. With it on, the score is that of the returned text, which is the streamed text itself when that already scores 8. |
| `StreamingGenerator.Stored` | src/streaming-generator.js:129-137 | The cache after the caching stage is well formed. |
| `StreamingGenerator.HitOrderly` | src/streaming-generator.js:37-51 | A cache hit emits `cache_check` at 5 and then `cache_hit` at 100. |
| `StreamingGenerator.FailureOrderly` | src/streaming-generator.js:161-168 | A failed run's events are orderly and end with the single error event. |
| `StreamingGenerator.FinishedOrderly` | src/streaming-generator.js:37-144 | A finished run emits `prompt_enhancement` 10, `main_generation` 20, then 80, 90, 95 and `complete` 100, after `cache_check` when the cache is on. |
| `StreamingGenerator.RunEvents` | src/streaming-generator.js:31-173 | Every run's events are orderly: `cache_check` first exactly when the cache is on, percentages rising, one terminal event at the end, and, as written, no `streaming` event. |
| `StreamingGenerator.RunCacheHit` | src/streaming-generator.js:44-57 | On a hit with a truthy result nothing is sent. The hit is recorded and the cached value comes back with `cached: true` and the processing time. A preloaded `null` result counts a hit but generates anyway. |
| `StreamingGenerator.CachedOutputFacts` | src/streaming-generator.js:53-57 | The value a hit returns has `cached: true`, the processing time, and every other property of the cached value. |
| `StreamingGenerator.RunCacheOff` | src/streaming-generator.js:37-129 | With the cache off, the cache is neither read nor written and the request is always sent. |
| `StreamingGenerator.RunFallback` | src/streaming-generator.js:161-172 | A failing stream ends the run with the error event and the fallback project, and nothing is cached. |
| `StreamingGenerator.RunQualityGate` | src/streaming-generator.js:129-137 | A generated result is cached exactly when the cache is on and its score reaches 8. It goes under the prompt's key, with the quality score and the time in its metadata. |
| `StreamingGenerator.RunQualityOff` | src/streaming-generator.js:101-129 | With the quality check off, every generated result is cached when the cache is on. |
| `StreamingGenerator.RunFinished` | src/streaming-generator.js:140-159 | A finished run ends with `complete` at 100 and returns the enriched result with its metadata. |
| `StreamingGenerator.FinishedFacts` | src/streaming-generator.js:146-156 | The output keeps the enriched result's other properties. Its metadata has `cached: false`, the quality score, the improvements and the time. |
| `StreamingGenerator.MetadataFacts` | src/streaming-generator.js:148-155 | The output metadata has distinct keys, `cached: false`, the report's score, its improvements and `generatedAt`. |
| `StreamingGenerator.Generator.constructor` | src/streaming-generator.js:9-23 | A new generator has every feature switched on and an empty cache. |
| `StreamingGenerator.Generator.Init` | src/streaming-generator.js:25-29 | `init` preloads the three common patterns. |
| `StreamingGenerator.Generator.SetCacheEnabled` | src/streaming-generator.js:295-298 | Only `useCache` changes, to the given value. |
| `StreamingGenerator.Generator.SetPromptEnhancement` | src/streaming-generator.js:300-303 | Only `enhancePrompts` changes, to the given value. |
| `StreamingGenerator.Generator.SetQualityCheck` | src/streaming-generator.js:305-308 | Only `qualityCheck` changes, to the given value. |
| `StreamingGenerator.Generator.GetCacheStats` | src/streaming-generator.js:311-313 | Reports `getStats` of the cache: its size, the total of its hits, the mean hits per entry (0 when empty), and the earliest and latest `createdAt`. |
| `StreamingGenerator.Generator.ClearCache` | src/streaming-generator.js:315-317 | Empties the cache. |
| `StreamingGenerator.Generator.Stream` | src/streaming-generator.js:61-91 | The streaming stage returns `Streaming`: the prompt enhanced when enabled, then one call with the callback in the model slot. |
| `StreamingGenerator.Generator.CheckCache` | src/streaming-generator.js:37-45 | Returns the cached value and leaves the cache as `Probed`: `null` and untouched with the cache off or on a miss. |
| `StreamingGenerator.Generator.Finish` | src/streaming-generator.js:122-159 | The caching stage leaves the cache as `Stored` and returns the finished output. |
| `StreamingGenerator.Generator.GenerateFresh` | src/streaming-generator.js:61-173 | After a miss, the events, request, output and cache are those `Fresh` gives for the stages' results. |
| `StreamingGenerator.Generator.Generate` | src/streaming-generator.js:31-173 | The events, request, output and new cache are those `Assemble` gives for what the stages yielded, under the current settings, which are unchanged. |
| `StreamingGenerator.Generator.GenerateWith` | src/streaming-generator.js:31-173 | The body of `generate` under given settings, with the same outcome as `Assemble`. |
| `StreamingGenerator.Improve` | src/streaming-generator.js:100-120 | The quality and image stages return `Improvement` of the text. |
| `ScotEnhancer.DetectAppType` | src/intelligence/scot-enhancer.js:70-87 | The detected type is always one of the four template keys. |
| `ScotEnhancer.DetectAppTypePriority` | src/intelligence/scot-enhancer.js:70-87 | Each type is returned exactly when its keywords occur in the lower-cased prompt and no earlier type's keywords do. `ecommerce` also catches the case where nothing matches. |
| `ScotEnhancer.DetectAppTypeCase` | src/intelligence/scot-enhancer.js:71 | Detection ignores case: lower-casing the prompt first changes nothing. |
| `ScotEnhancer.Matching` | src/intelligence/scot-enhancer.js:94-111 | There are never more matched features than rows in the table. |
| `ScotEnhancer.MatchingMembers` | src/intelligence/scot-enhancer.js:94-111 | A label is matched exactly when some row with that label has a keyword in the text. |
| `ScotEnhancer.MatchingOrdered` | src/intelligence/scot-enhancer.js:94-111 | The matched labels are a subsequence of the table's labels. |
| `ScotEnhancer.SubsequenceDistinct` | src/intelligence/scot-enhancer.js:94-111 | A subsequence of distinct labels is distinct, and draws only from them. |
| `ScotEnhancer.MatchedFeatures` | src/intelligence/scot-enhancer.js:89-112 | At most six features are found. |
| `ScotEnhancer.MatchedFeaturesShape` | src/intelligence/scot-enhancer.js:89-112 | The features are found in table order, each at most once, and each is a table label. |
| `ScotEnhancer.LabelsPlain` | src/intelligence/scot-enhancer.js:95-110 | Each label is non-empty, contains no `, ` separator, and cannot be mistaken for the default text. |
| `ScotEnhancer.DescribeDefault` | src/intelligence/scot-enhancer.js:113 | The joined text is `Core functionality` exactly when no feature was found. |
| `ScotEnhancer.DescribeCount` | src/intelligence/scot-enhancer.js:113-118 | Splitting the joined text on `, ` gives back one piece per feature, or one piece for the default text. |
| `ScotEnhancer.MatchedPlain` | src/intelligence/scot-enhancer.js:95-110 | Every matched feature is a plain label. |
| `ScotEnhancer.ExtractMainFeaturesDefault` | src/intelligence/scot-enhancer.js:89-114 | `extractMainFeatures` gives the default text exactly when no feature matched. |
| `ScotEnhancer.FeatureCountSpec` | src/intelligence/scot-enhancer.js:118 | The feature count in `estimateComplexity` equals the number of matched features, or 1 when none matched, and lies between 1 and 6. |
| `ScotEnhancer.EstimateComplexity` | src/intelligence/scot-enhancer.js:116-123 | The estimate is `Simple`, `Medium` or `Complex`. |
| `ScotEnhancer.EstimateComplexitySpec` | src/intelligence/scot-enhancer.js:116-123 | `Simple` exactly below 50 words and 3 features. `Medium` exactly when not simple and below 150 words and 6 features. All six features force `Complex`. |
| `ScotEnhancer.TemplateFor` | src/intelligence/scot-enhancer.js:4-13 | Unknown types fall back to the e-commerce template. An inherited property name such as `toString` finds a function, whose fields all read as `undefined`. |
| `ScotEnhancer.EnhancePromptFallback` | src/intelligence/scot-enhancer.js:12-13 | A type without its own template gives the same prompt as `ecommerce`, except that inherited names give the all-`undefined` template. |
| `ScotEnhancer.FillEmbeds` | src/intelligence/scot-enhancer.js:15-67 | The filled template quotes the user prompt right after its opening line and again just before its closing quote. |
| `ScotEnhancer.EnhancePromptEmbeds` | src/intelligence/scot-enhancer.js:12-68 | `enhancePrompt` quotes the user prompt at a fixed offset at the start and at the end. |
| `ScotEnhancer.FillDistinct` | src/intelligence/scot-enhancer.js:29-30 | Two templates whose architectures differ at some position give different prompts. |
| `ScotEnhancer.FillAt` | src/intelligence/scot-enhancer.js:29-30 | The architecture text appears right after the analysis section. |
| `ScotEnhancer.EnhancePromptDistinct` | src/intelligence/scot-enhancer.js:4-68 | Different template keys give different prompts for the same user prompt. |
| `ScotEnhancer.TemplateStart` | src/intelligence/scot-enhancer.js:125-258 | The four architectures share their first 21 characters and differ at the next one. |
| `ScotEnhancer.GetSpecificInstructions` | src/intelligence/scot-enhancer.js:270-306 | Each known type gets one of the four instruction blocks. Unknown types get the e-commerce block. An inherited name gets the source text of the inherited method. |
| `ScotEnhancer.InstructionsDistinct` | src/intelligence/scot-enhancer.js:271-303 | The four types get four different instruction blocks. |
| `ScotEnhancer.ImprovePromptShape` | src/intelligence/scot-enhancer.js:260-268 | `improvePrompt` starts with the prompt enhanced under the default `ecommerce` key, and ends with the instructions for the detected type. |
| `BamlPragmatic.Classify` | src/baml-system/baml-pragmatic.js:47-91 | The domain is always one of the six domain keys. |
| `BamlPragmatic.DomainsHavePrompts` | src/baml-system/baml-pragmatic.js:8-27 | Every detected domain has a system prompt, and the prompt table has exactly the six domains. |
| `BamlPragmatic.DetectDomainPriority` | src/baml-system/baml-pragmatic.js:47-91 | Each domain is returned exactly when its keywords occur in the lower-cased prompt and no earlier domain's keywords do. `landing` also catches the case where nothing matches. |
| `BamlPragmatic.DetectDomainCase` | src/baml-system/baml-pragmatic.js:48 | Detection ignores case. |
| `BamlPragmatic.EnhanceWithSCoTEmbedsTwice` | src/baml-system/baml-pragmatic.js:93-110 | The user prompt appears twice, in the analysis step and in the requirements line. The length is the fixed text plus twice the prompt. |
| `BamlPragmatic.EnhanceWithSCoTInjective` | src/baml-system/baml-pragmatic.js:93-110 | Different user prompts give different enhanced prompts. |
| `BamlPragmatic.Structured` | src/baml-system/baml-pragmatic.js:26-31 | The structured prompt carries the system prompt of the detected domain. |
| `BamlPragmatic.SentIgnoresDomain` | src/baml-system/baml-pragmatic.js:26-41 | What is sent uses the default model, 12000 tokens and the handler's own system prompt, never a domain prompt. |
| `BamlPragmatic.Pragmatic.constructor` | src/baml-system/baml-pragmatic.js:5-16 | The generator owns a fresh, valid streaming handler. |
| `BamlPragmatic.Pragmatic.Generate` | src/baml-system/baml-pragmatic.js:18-45 | `generate` sends only the compressed SCoT-enhanced user text, without a progress callback. It returns what the handler makes of the transport's reply. The handler's store gains the comprehensive prompt under "comprehensive" and nothing else. |
| `Utils.Text` | lib/utils.js:3 | A truthy argument joins as non-empty text, a string as itself. |
| `Utils.Kept` | lib/utils.js:3 | `filter(Boolean)` keeps only truthy arguments, drawn from the input. |
| `Utils.Texts` | lib/utils.js:3 | One text per kept argument, in order. |
| `Utils.KeptAppend` | lib/utils.js:3 | Filtering distributes over concatenation. |
| `Utils.KeptOne` | lib/utils.js:3 | A single argument is kept exactly when it is truthy. |
| `Utils.FalsyIgnored` | lib/utils.js:2-4 | A falsy argument anywhere leaves `cn`'s result unchanged. |
| `Utils.KeptEmpty` | lib/utils.js:3 | Nothing is kept exactly when every argument is falsy. |
| `Utils.CnEmpty` | lib/utils.js:2-4 | `cn` gives the empty string exactly when every argument is falsy. |
| `Utils.CnSingle` | lib/utils.js:2-4 | One non-empty class name comes back unchanged. |
| `Utils.CnSplit` | lib/utils.js:2-4 | When the kept arguments contain no space, splitting the result on spaces gives back exactly their texts. |
| `Json.Get` | src/quality/enhancer.js:42-55 | A property is present exactly when its key is among the object's keys, and then it is that member's value. |
| `Json.SetFieldGet` | src/quality/enhancer.js:418-456 | After an assignment, the assigned key reads the new value and every other key reads what it read before. |
| `Json.SetFieldUnique` | src/quality/enhancer.js:418-456 | An assignment keeps the keys unique. |
| `Json.SetFieldWellFormed` | src/quality/enhancer.js:418-456 | Assigning a well-formed value keeps an object well formed. |
| `Json.RemoveFieldGet` | src/quality/enhancer.js:450-460 | A member whose value is a function disappears when `JSON.stringify` writes the object. That key then reads as absent and every other key is unchanged. |
| `Json.RemoveFieldWellFormed` | src/quality/enhancer.js:450-460 | Dropping that member keeps the object well formed. |
| `Json.InheritedText` | src/quality/enhancer.js:518-520 | Reading an inherited method name, other than `__proto__`, off an object literal gives a function whose text ends in `() { [native code] }`. |
| `Json.PropertyKey` | src/quality/enhancer.js:518-520 | A string used as a property key is that string itself. |
| `Json.Prop` | src/quality/enhancer.js:42-60 | Reading a property throws exactly on `null`. On an object it finds the member. |
| `Json.ParseWellFormed` | src/quality/enhancer.js:66-72 | Whatever `JSON.parse` accepts is a well-formed value: its object keys are unique and its numbers canonical. |
| `Json.ParseSerialize` | src/quality/enhancer.js:429-432 | Serializing a well-formed value and parsing it back gives that value. |
| `Json.NumberRoundTrip` | src/quality/enhancer.js:431 | A number's text parses back to the same number. |
| `Json.ParseEscaped` | src/quality/enhancer.js:431 | An escaped string and its closing quote parse back to the original string. |
| `Json.SurrogatePairParses` | src/quality/enhancer.js:40 | A `\u` escape of a surrogate pair parses to the one character it encodes. |
| `Strings.ToLowerIdempotent` | src/baml-system/baml-pragmatic.js:48 | Lower-casing twice is lower-casing once. |
| `Strings.Capitalize` | src/quality/enhancer.js:477 | The first character is upper-cased, which may lengthen it (ß gives SS), and the rest is kept. |
| `Strings.Find` | src/streaming-handler.js:214 | Returns the first occurrence of a pattern, or none when there is none. |
| `Strings.ContainsAnySpec` | src/intelligence/scot-enhancer.js:73-84 | A chain of `includes` tests joined by `or` holds exactly when one of the needles occurs. |
| `Strings.JoinSplit` | src/streaming-handler.js:214-219 | Joining the pieces of a split with the same separator gives back the text. |
| `Strings.SplitJoin` | src/intelligence/scot-enhancer.js:113-118 | Splitting a join of pieces that avoid the separator gives back the pieces. |
| `Strings.CollapseSpacesShape` | src/streaming-handler.js:67 | After `replace(/\s+/g, ' ')`, no two spaces are adjacent and every space is a plain one. |
| `Strings.CollapseSpacesKeeps` | src/streaming-handler.js:67 | Collapsing spaces keeps every other character, in order. |
| `Strings.Trim` | src/streaming-handler.js:69 | `trim` leaves no leading or trailing white space and never lengthens the text. |
| `Strings.TrimBounds` | src/streaming-handler.js:69 | `trim` removes only white space, and only at the two ends. |

### Specification functions

These functions have no `ensures` of their own. Each entry gives the source lines the function models and the members in the table that state its properties.

- `SemanticCache.Normalize` (src/cache/semantic-cache.js:76-83): `NormalizeShape`, `NormalizeSettled`, `NormalizeTrailing`, `NormalizeTwice` and `NormalizeNotIdempotent`. `SemanticCache.SemanticCache.GetCached` and `SemanticCache.SemanticCache.SetCached` key the cache by it.
- `SemanticCache.Similarity` (src/cache/semantic-cache.js:85-100): `SimilarityRange`, `SimilaritySelf`, `Scores` and `Lookup`.
- `SemanticCache.Touch` (src/cache/semantic-cache.js:28-29): `Hit`, which records a hit on one key and keeps the order, and `SumHitsAfterHit`.
- `SemanticCache.Scores` (src/cache/semantic-cache.js:34-35): `Lookup`, which picks the first key in insertion order whose score reaches 0.75.
- `GenerationQueue.NewJob` (src/generation-queue.js:28-40): `AddedSpec`, which states the fields of the job `addJob` creates as `getJob` returns it.
- `QualityEnhancer.Score` (src/quality/enhancer.js:28-64): `ScoreRange`, `ScoreInvalid`, `ScoreMissingContent` and `Evaluate`.
- `QualityEnhancer.Issues` (src/quality/enhancer.js:263-330): `IssuesInOrder`, `IssuesInvalid` and `DetectIssues`.
- `QualityEnhancer.FixJsonStructure` (src/quality/enhancer.js:375-412): `FixJsonStructureParses` and `EnhanceRepairsInvalid`.
- `QualityEnhancer.FixMissingField` (src/quality/enhancer.js:414-437): `FixMissingFieldSets`.
- `QualityEnhancer.FixFileIssue` (src/quality/enhancer.js:439-466): `FixFileIssueRepairs`.
- `StreamingGenerator.Assemble` (src/streaming-generator.js:31-173): `RunEvents`, `RunCacheHit`, `RunCacheOff`, `RunFallback`, `RunQualityGate` and `RunFinished`. `StreamingGenerator.Generator.Generate` and `StreamingGenerator.Generator.GenerateWith` are proved equal to it.
- `StreamingGenerator.Run` (src/streaming-generator.js:31-173): the whole run. It computes the stream with `Streaming` and the improvement with `Improvement`, then hands both to `Assemble`, so the lemmas about `Assemble` hold for it.
- `StreamingGenerator.Enriched` (src/streaming-generator.js:175-209): `EnrichedObject`, `EnrichedUnchanged` and `EnrichWithImages`.
- `StreamingGenerator.ImageFields` (src/streaming-generator.js:191-199): `ImagesGet`, `ImagesInOrder` and `AttachObject`.
- `StreamingGenerator.StreamProgressAll` (src/streaming-generator.js:83-90): `IntendedStreamProgress`.
- `StreamingGenerator.FallbackResult` (src/streaming-generator.js:243-276): `FallbackKeysOf`, `FallbackValues`, `FallbackWellFormed`, `FallbackRoundTrip`, `FallbackMarked`, `FallbackCarries` and `RunFallback`.
- `StreamingHandler.CompressPrompt` (src/streaming-handler.js:63-70): `CompressPromptShape` and `StreamingHandler.Handler.GenerateWithStream`.
- `StreamingHandler.ConfigFor` (src/streaming-handler.js:41-61): `ConfigForSpec`, `ConfigForAsWritten`, `InheritedNameNotAConfig` and `PreparedSpec`.
- `StreamingHandler.Prepared` (src/streaming-handler.js:15-34): `PreparedFrom`, `PreparedSpec`, `SectionRequestSpec` and `StreamingHandler.Handler.GenerateWithStream`.
- `StreamingHandler.StreamOutcome` (src/streaming-handler.js:159-194): `StreamOutcomeSpec` and `HandleStream`.
- `StreamingHandler.CombineResults` (src/streaming-handler.js:236-239): `CombineGroups`.
- `StreamingHandler.LargeContent` (src/streaming-handler.js:198-210): `StreamingHandler.Handler.GenerateLargeContent`.
- `ScotEnhancer.Labels` (src/intelligence/scot-enhancer.js:94-111): `MatchingOrdered`, `MatchedFeaturesShape` and `LabelsPlain`.
- `ScotEnhancer.ExtractMainFeatures` (src/intelligence/scot-enhancer.js:89-114): `ExtractMainFeaturesDefault`.
- `ScotEnhancer.EnhancePrompt` (src/intelligence/scot-enhancer.js:12-68): `EnhancePromptFallback`, `EnhancePromptEmbeds`, `EnhancePromptDistinct` and `ImprovePromptShape`.
- `ScotEnhancer.ImprovePrompt` (src/intelligence/scot-enhancer.js:260-268): `ImprovePromptShape`.
- `BamlPragmatic.DetectDomain` (src/baml-system/baml-pragmatic.js:47-91): `DomainsHavePrompts`, `DetectDomainPriority`, `DetectDomainCase` and `Structured`.
- `BamlPragmatic.EnhanceWithSCoT` (src/baml-system/baml-pragmatic.js:93-110): `EnhanceWithSCoTEmbedsTwice` and `EnhanceWithSCoTInjective`.
- `Utils.Cn` (lib/utils.js:2-4): `FalsyIgnored`, `CnEmpty`, `CnSingle` and `CnSplit`.
- `Strings.ToLower` (src/intelligence/scot-enhancer.js:71): `ToLowerIdempotent`. `ScotEnhancer.DetectAppTypeCase` and `BamlPragmatic.DetectDomainCase` use it for case-insensitivity.
- `Json.Parse` (src/quality/enhancer.js:429-432): `ParseWellFormed` and `ParseSerialize`.
- `Json.Serialize` (src/quality/enhancer.js:429-432): `ParseSerialize` and `NumberRoundTrip`, with helper lemmas for its members and items.

## Left out

- Floating point: similarity is computed on `real`, and the quality score in integer tenths. IEEE double rounding is not modelled. `toFixed` formatting of the similarity log line and of `avgHits` is not modelled: `SemanticCache.SemanticCache.GetStats` reports the exact mean.
- Json.Serialize: it writes compact JSON, whereas the source writes `JSON.stringify(…, null, 2)` with two-space indentation. Only parsing the text back depends on it, and the round trip holds for both.
- Json.Parse: objects keep their keys in insertion order. JavaScript lists integer-like keys (such as `"0"`) first, in ascending order. Numbers are exact decimals (`mantissa * 10^-scale`), with no double rounding and no overflow to `Infinity`.
- Json.ParseString: a lone surrogate escape (`\ud800` with no low half) is rejected. `JSON.parse` accepts it as an unpaired code unit, which a Dafny `char` cannot hold. Valid surrogate pairs are decoded.
- SemanticCache.SetKey: one clock reading serves for the eviction scan and for the new entry's `createdAt` and `lastAccessed`. The source reads `Date.now()` separately for each.
- SemanticCache.SemanticCache: persistence is not modelled. `saveToDisk` and its unawaited call, `loadFromDisk`, and the file removal in `clearCache` are file I/O. `StreamingGenerator.Generator.Init` therefore preloads the patterns into the cache without loading the cache file first.
- SemanticCache: `analyzePerformance` is a console report and is not part of this model.
- SemanticCache.SemanticCache.GetStats: the dates are reported as the `createdAt` numbers that `toISOString` would render.
- Strings.ToLower: the case mapping covers ASCII, Latin-1 and Latin Extended-A. Other scripts, and special mappings such as `İ` to `i̇` (left unchanged here), are not modelled. `SemanticCache.Normalize`, `ScotEnhancer.DetectAppType`, `BamlPragmatic.DetectDomain` and `StreamingGenerator.KeywordsSpec` inherit this limit.
- Strings.Capitalize: upper-casing covers the same ranges, plus `ß` to `SS` and `ŉ` to `ʼN`. `QualityEnhancer.GenerateAppName` and `StreamingGenerator.ExtractAppName` inherit this limit.
- Strings: lengths count code points, whereas JavaScript counts UTF-16 units. For text outside the Basic Multilingual Plane, this shifts where the limits 3, 200, 500 and 1000 fall.
- SemanticCache.NormalizeNotIdempotent: `Normalize` is not idempotent. When the 500-character cut leaves a trailing space, normalising the key again trims that space, so a key can differ from its own normalisation. The lemma exhibits such a prompt, and the model follows the code.
- StreamingHandler.CompressPrompt: it is not idempotent (removing a filler phrase can join two runs of white space). There is no lemma exhibiting this, since its texts are costly to state.
- StreamingHandler.Handler.GenerateWithStream: the client it is built on, its retries and time-outs, and the `messages.create` call are the transport parameter. `StreamingHandler.Handler.GenerateLargeContent` answers its sections through the same parameter.
- StreamingHandler.SystemPromptFor: the three system prompts are short placeholder texts, not the long source texts. The lemma about them is restricted to complexities outside the inherited `Object.prototype` names. For such a name (`toString`, say), `prompts[complexity] || prompts.detailed` returns the inherited member, a function. The model returns the detailed prompt instead. No caller reaches this case, because the complexity always comes from one of the three configurations.
- StreamingHandler.GetModelConfig: it uses the corrected lookup `ConfigFor`, which also answers for inherited names. The as-written lookup is `ConfigForAsWritten`, and the difference is in "## Findings".
- BamlPragmatic: the six domain prompts and the fixed text of `enhanceWithSCoT` are short placeholder texts. `testGeneration` is a logging helper that calls `generate` on `domain + ": " + prompt`, and it is left out.
- ScotEnhancer: each field of the four templates is cut to its first line, and each instruction block to its heading line. The implementation and verification lists of `enhancePrompt` are abbreviated to `...`. The text kept matches the source. `TemplateStart` and `InstructionsDistinct` rely only on that text.
- StreamingGenerator.Generator.Generate: it models the code as written. The progress callback goes into the model slot, so no `streaming` event is ever emitted. The intended behaviour is proved separately, as `IntendedStreamProgress`.
- StreamingGenerator.StreamProgress: the `message` field of the intended `streaming` events (a preview of the text, or `Streaming...`) is not modelled. Only the step and the percentage are.
- GenerationQueue.GenerationQueue.AddJob: it does not start processing. The unawaited `startProcessing()` call is the separate step `StartProcessing`, run in sequence.
- GenerationQueue: concurrency is not modelled. The `EventEmitter`, the unawaited calls and the async progress listener run as sequential steps. The `job:created`, `job:updated`, `job:completed` and `job:failed` emits (src/generation-queue.js:50, 89, 171 and 182) are not modelled. The queue's operations take the run's progress events as an input sequence and emit nothing.
- GenerationQueue: disk writes always succeed. A failure of `saveJob`, which would reject `addJob` or `updateJob`, is not modelled.
- GenerationQueue.GenerationQueue.RestoreJobs: the directory listing is a parameter, given as the ids of the `.json` files. Every listed file can be read, and a file holds the job it is named after (a file whose `id` differs from its name is not modelled). A file that does not parse (`None`) ends the restore, as the single `try` does. The queue's `init` is `RestoreJobs` followed by `StartProcessing`, and its `mkdir` is not modelled.
- All `console` logging, and the UI, HTTP route and middleware files, are not part of this model.

## Findings

| source | as written | input that shows it | evidently intended | confidence | as-written member | corrected member |
|---|---|---|---|---|---|---|
| src/streaming-generator.js:81-91 | `generateWithStream(enhancedPrompt, callback)` puts the progress callback in the `model` slot of `generateWithStream(prompt, model, onProgress)`. The request then names a function as its model and gets the 8000-token configuration and detailed prompt. `onProgress` stays the no-op default, so no `streaming` event is emitted. | any prompt on a cache miss | the default model with 12000 tokens, and the callback as `onProgress`, giving `streaming` events at 20 + processed/10 | not executed | `StreamingGenerator.SentWithCallback` | `StreamingGenerator.IntendedStreamProgress` |
| src/streaming-handler.js:60 | `configs[model] \|\| configs['claude-3-5-sonnet-20241022']` reads inherited `Object.prototype` members. For the id `toString` it returns a function, not a configuration. | model id `"toString"` | the 8000-token default for every id that is not one of the three keys | not executed | `StreamingHandler.InheritedNameNotAConfig` | `StreamingHandler.ConfigForSpec` |
