# Raven-LK memory bookkeeping, modelled in Dafny

Raven is a chat assistant with long-term memory. Every message becomes an
*eidetic* memory, stored in the depth-0 memory cache. When a cache runs out
of token budget, its memories are summarised into one *episodic* memory one
depth higher. That push can cascade upward, and then the full cache is
flushed. Beside the caches, the conversation manager keeps two *memory logs*.
Each log is a recency-ordered window trimmed to a token budget, and it always
keeps a minimum number of the newest entries. A theme manager files each
phrase a language model extracts under an existing theme, or under a new one.
SQLite helpers turn rows into UPDATE and INSERT statements. Prompt classes
assemble the text sent to the model. A chunker splits summaries into
token-bounded chunks and blocks.

This project models that bookkeeping. The language model, the token
estimator, the vector index, `uuid4()` and `time()` become parameters. They
are either oracle functions carried in a value (`Oracles`, `ThemeEnv`,
`Render`, `tokens`) or plain arguments (`now`, `fuel`). Everything the code
computes from their answers is modelled and proved.

Files and modules:

| file | module | models |
|---|---|---|
| text.dfy | `Text` | `str.strip`, `re.sub` whitespace collapsing, `str.join`, quote doubling |
| json.dfy | `JsonValue` | JSON values and `json.dumps` |
| sorting.dfy | `Sorting` | Python's stable `sorted(..., key, reverse)` and `list.reverse()` |
| memory.dfy | `MemoryManagement` | MemoryManagement.py: `MemoryCache`, `MemoryManager` and the cascade |
| conversation.dfy | `ConversationManagement` | ConversationManagement.py: `MemoryLog` and `ConversationManager` |
| themes.dfy | `Themes` | ThemeManagement.py and conversation_management/ThemeManagement.py |
| draft_memory.dfy | `DraftMemory` | raven_memory_management.py, the earlier draft of the cache |
| sql_rows.dfy | `SqlRows` | sqlite3_test.py and querytest.py |
| prompts.dfy | `PromptManagement` | PromptManagement.py |
| chunking.dfy | `Raven` | raven.py: `load_conversation`, `format_summary_memory`, `chunk_memories` |

Code that updates object fields is modelled as Dafny classes. Each method is
proved against a specification function of the old state, for example
`ensures State() == Add(old(State()), m, n)`. The properties the code
promises are lemmas about those functions. Loops (`generate_episodic_memory`,
`__check_memory_log`, `extract_themes`, the SET-clause loop, the template
loops, `chunk_memories`) are `while`/`for` loops. Each loop's invariant ties
it to a fold over the input prefix.

Inconsistencies inside the source, and how the model resolves them:

- ConversationManagement.py:53 sorts on `created_on`, while the records
  MemoryManagement.py builds carry `timestamp`. The model sorts on the one
  creation time a `Memory` has.
- MemoryManagement.py:349-365 compresses the cache before the new memory is
  added. In an overflow example, the episodic memory therefore summarises
  the memories already cached, not the one that overflowed
  (`MemoryManagement.FiveMemoryScenario`).
- raven.py:238 lowers `remaining_chunk_tokens` after closing a chunk. The
  next pass of the outer loop recomputes it at raven.py:215-216 before it
  is read, so every chunk of a block has the same budget. The model keeps
  the decrement in `Raven.ChunkPass`, and its budget is `Raven.BlockBudget`.
- The `max_iter` test at raven.py:254-257 is reached only after the branch
  that ends the run. Every other branch leaves by `break` or `continue`, so
  the test never stops a run, and the model has no iteration cap.

## Model

| member | source | states |
|---|---|---|
| MemoryManagement.TranscriptLength | MemoryManagement.py:272-278 | The aggregated content is each summary followed by a newline, so its length is the summed summary lengths plus one per memory. |
| MemoryManagement.PromptFor | MemoryManagement.py:370-375 | Depth 0 selects `eidetic_memory`, depth 1 `eidetic_to_episodic_memory`, and every other depth `episodic_to_episodic_memory`; each direction of each case is stated. |
| MemoryManagement.SummaryPlan | MemoryManagement.py:368-394 | The request uses the prompt chosen by depth plus the given content and speaker. Its response budget is `min(prompt response_tokens + content_tokens, max_tokens)`. |
| MemoryManagement.NewEidetic | MemoryManagement.py:236-262 | The eidetic record has depth 0 and the given id, speaker and content. Its content tokens estimate the content. Its summary is the cleaned completion of `"speaker: content"` at depth 0, and its summary tokens estimate that summary. |
| MemoryManagement.NewEpisodic | MemoryManagement.py:265-297 | The episodic record has the requested depth. Its `lower_memory_ids` are the ids of the summarised memories, in order. Its summary is the cleaned completion of their transcript, budgeted by their summary-token sum. |
| MemoryManagement.AggregateMemories | MemoryManagement.py:270-278 | The loop returns the transcript of the summaries, the sum of their tokens and the list of ids, each in input order. |
| MemoryManagement.AddAccounted | MemoryManagement.py:120-123 | Adding a memory with its summary tokens keeps the cache accounted: current ids are the memory ids, and the token count is their token sum. |
| MemoryManagement.FlushAccounted | MemoryManagement.py:137-142 | A flushed cache whose current ids were transferred away is accounted again: no memories and a zero count. |
| MemoryManagement.ToRecord | MemoryManagement.py:100-116 | The `cache` record carries the timestamp given, and reading it back yields the same state. |
| MemoryManagement.CacheRoundTrip | MemoryManagement.py:88-116 | `load_cache` of `cache` restores id, depth, limits, token count, memories and both id lists unchanged. |
| MemoryManagement.MemoryCache.constructor | MemoryManagement.py:44-54 | A new cache stores its depth, limit, max tokens and id, with no memories, a zero count and empty id lists. |
| MemoryManagement.MemoryCache.MemoryIds | MemoryManagement.py:78-81 | `memory_ids` lists the id of each cached memory, in order. |
| MemoryManagement.MemoryCache.Cache | MemoryManagement.py:99-116 | The property's record reads back to the cache's current state. |
| MemoryManagement.MemoryCache.LoadCache | MemoryManagement.py:88-96 | After `load_cache` the cache state is exactly the one the record holds. |
| MemoryManagement.MemoryCache.HasMemorySpace | MemoryManagement.py:125-130 | The result is true iff `token_count + n <= cache_token_limit`. |
| MemoryManagement.MemoryCache.AddMemory | MemoryManagement.py:118-123 | n is added to the count, and the memory and its id are appended, with no space check. |
| MemoryManagement.MemoryCache.TransferMemoryIds | MemoryManagement.py:132-135 | The previous ids become the old current ids, and the current ids are emptied. Nothing else changes. |
| MemoryManagement.MemoryCache.FlushMemoryCache | MemoryManagement.py:137-142 | Memories are emptied, the count is reset to 0 and the cache gets a new id. The id lists are left alone. |
| MemoryManagement.CacheSpec | MemoryManagement.py:308-322 | `cache_memory` as a function of all caches keeps the number of caches. What it does is stated by CacheFits, CacheOverflows, CacheLast and CacheKeepsLower. |
| MemoryManagement.CompressSpec | MemoryManagement.py:349-365 | `compress_memory_cache` keeps the number of caches and returns the episodic memory of the pre-flush cache (see CompressEffect). |
| MemoryManagement.CreateSpec | MemoryManagement.py:324-343 | `create_new_memory` keeps the number of caches and returns the eidetic record built from a freshly drawn id. |
| MemoryManagement.CreateIsCacheAtDepthZero | MemoryManagement.py:324-343 | Creating a memory changes the caches exactly as `cache_memory` at depth 0 does after the eidetic id is drawn. An episodic memory is returned iff depth 0 had no space. |
| MemoryManagement.CacheKeepsLower | MemoryManagement.py:308-322 | Caching at depth d never touches a cache below d. |
| MemoryManagement.CompressKeepsLower | MemoryManagement.py:349-365 | Compressing depth d never touches a cache below d. |
| MemoryManagement.CompressEffect | MemoryManagement.py:349-365 | The new memory has depth d+1 and lower ids equal to the ids of the depth-d memories, in order. Depth d's previous ids are its old current ids, and its current ids are emptied. On success, depth d is emptied with count 0 and the new memory is the last one of depth d+1. |
| MemoryManagement.CacheLast | MemoryManagement.py:308-322 | After a successful `cache_memory`, the memory is the last one of its cache. |
| MemoryManagement.CacheFits | MemoryManagement.py:310-312 | When the memory fits, it is appended and the count grows by its tokens, staying within the limit. |
| MemoryManagement.CacheOverflows | MemoryManagement.py:313-319 | On overflow, the cache ends holding only the new memory with `token_count == tokens`. Its current ids are the new id, and its previous ids are the old current ids. |
| MemoryManagement.CacheKeepsAccounted | MemoryManagement.py:308-365 | The cascade from depth d keeps every cache at depth d and above accounted. |
| MemoryManagement.CompressKeepsAccounted | MemoryManagement.py:349-365 | Compressing depth d keeps every cache from d upward accounted. |
| MemoryManagement.CacheKeepsAllAccounted | MemoryManagement.py:308-322 | Starting from fully accounted caches, `cache_memory` leaves all of them accounted. |
| MemoryManagement.UpdateAccounted | MemoryManagement.py:308-322 | Replacing cache d with an accounted cache keeps every cache from d upward accounted. |
| MemoryManagement.FiveMemoryScenario | MemoryManagement.py:308-365 | With limit 100 and five memories of 25 tokens, four fill depth 0. The fifth compresses those four into a depth-1 memory whose lower ids are theirs, then starts a fresh depth 0 alone. |
| MemoryManagement.CacheMemoryCountAsWritten | MemoryManagement.py:145-148 | As written: -1 for depth > number of caches, the count for a valid depth, and IndexError at depth == number of caches. |
| MemoryManagement.CacheMemoryCount | MemoryManagement.py:145-148 | As intended: -1 exactly when no cache exists at that depth, otherwise that cache's memory count. |
| MemoryManagement.CountAgrees | MemoryManagement.py:145-148 | Both versions agree wherever the written guard is right. |
| MemoryManagement.InitialCaches | MemoryManagement.py:187-191 | `create_state` makes one empty cache per depth 0..count-1, in depth order, each with a freshly drawn id. |
| MemoryManagement.MemoryManager.constructor | MemoryManagement.py:20-38 | A new manager has three empty caches (max episodic depth 2), and every completion passes through `cleanup_response`. |
| MemoryManagement.MemoryManager.NewUuid | MemoryManagement.py:238 | Draws the next fresh id. |
| MemoryManagement.MemoryManager.CreateState | MemoryManagement.py:187-191 | The caches become `max_episodic_depth + 1` fresh empty caches, in depth order. |
| MemoryManagement.MemoryManager.AddToCache | MemoryManagement.py:120-123 | Adds to cache d alone. |
| MemoryManagement.MemoryManager.TransferCache | MemoryManagement.py:132-135 | Transfers the ids of cache d alone. |
| MemoryManagement.MemoryManager.FlushCache | MemoryManagement.py:137-142 | Flushes cache d alone, with the next fresh id. |
| MemoryManagement.MemoryManager.CacheMemory | MemoryManagement.py:308-322 | The recursive method does exactly what CacheSpec says to all caches. |
| MemoryManagement.MemoryManager.CompressMemoryCache | MemoryManagement.py:349-365 | The method does exactly what CompressSpec says and returns the new memory with its tokens. |
| MemoryManagement.MemoryManager.GenerateEpisodicMemory | MemoryManagement.py:265-297 | Returns NewEpisodic with the next fresh id, and its tokens. |
| MemoryManagement.MemoryManager.CreateNewMemory | MemoryManagement.py:324-343 | The method does exactly what CreateSpec says and returns the eidetic memory, its tokens and the optional episodic memory. |
| MemoryManagement.MemoryManager.GetCacheMemoryCountAsWritten | MemoryManagement.py:145-148 | The manager's `get_cache_memory_count` as written: CacheMemoryCountAsWritten of its caches, IndexError at the depth one past the last cache. |
| MemoryManagement.MemoryManager.GetCacheMemoryCount | MemoryManagement.py:145-148 | The manager's corrected count: CacheMemoryCount of its caches. |
| Text.CleanupResponseSpec | MemoryManagement.py:300-304 | `cleanup_response` leaves no `\r` or tab, no two adjacent newlines or spaces, and no whitespace at either end. It keeps every non-space character in order. |
| Text.CleanupRuns | MemoryManagement.py:300-304 | Cut the stripped response into maximal runs of `\r`/`\n`, maximal runs of tab/space and single other characters, in any way. The cleaned response is that cut with each line-break run written as one `\n` and each blank run as one space. |
| Text.PiecesCut | MemoryManagement.py:302-303 | Every text has such a maximal cut. |
| Text.SplitJoin | ConversationManagement.py:75-80 | Splitting a newline-joined list on newlines gives the list back, when no item holds a newline. |
| Text.StripSpec | raven_memory_management.py:369 | `strip` leaves no whitespace at either end and keeps every non-space character in order. Whitespace is every character `str.isspace` accepts, not just ASCII. |
| Text.EscapeRoundTrip | sqlite3_test.py:69-74 | Doubling each `'` is undone by reading `''` back as `'`. |
| Text.JoinLength | ConversationManagement.py:75-80 | A join has the summed part lengths plus one separator between each pair of parts. |
| Sorting.SortBy | ConversationManagement.py:53 | `sorted` returns a permutation of its input, ordered by the key in the requested direction. |
| Sorting.SortBySorted | raven.py:129 | Sorting an already ordered list returns it unchanged. |
| Sorting.SortByTwoKeys | sqlite3_test.py:103 | Sorting on a 0/1 key puts the 0s first and keeps input order within each group. |
| Sorting.SortByStable | ConversationManagement.py:53 | The sort is stable for any key, either direction: the elements with any one key come out in the order they went in. |
| Sorting.PrefixReversed | ConversationManagement.py:156-158 | The first k of a newest-first list, reversed, are in ascending order and drawn from the list. |
| Sorting.PrefixDominates | ConversationManagement.py:156-158 | Nothing left out of the first k of a newest-first list is newer than anything kept. |
| JsonValue.EscapeString | sqlite3_test.py:65 | `json.dumps` of a string writes printable ASCII only (`ensure_ascii`) and keeps every apostrophe as it is, one for one. |
| JsonValue.StringRoundTrip | sqlite3_test.py:65 | Decoding the dumped string body, with its escapes and surrogate pairs, gives back the string. |
| ConversationManagement.KeepCount | ConversationManagement.py:53-69 | The number of entries the trim keeps lies between the already kept count and the list length. |
| ConversationManagement.KeepCountAtLeastMin | ConversationManagement.py:57-60 | The trim keeps at least `min_log_count` entries, or all of them. |
| ConversationManagement.KeepCountFits | ConversationManagement.py:62-65 | Beyond the minimum, what is kept fits `max_log_tokens`. |
| ConversationManagement.KeepCountStops | ConversationManagement.py:66-69 | The trim stops only at an entry that would overflow the budget, after the minimum; it never skips ahead. |
| ConversationManagement.KeptSpec | ConversationManagement.py:53-69 | The kept entries are a prefix of the newest-first list. They are at least the minimum or the whole list, fit the budget beyond the minimum, and the next entry would overflow. |
| ConversationManagement.TrimOrder | ConversationManagement.py:49-73 | After trimming, entries are in ascending creation order and drawn from the old ones, unaltered. The `min_log_count` newest are always among them, and the memory string is untouched. |
| ConversationManagement.TrimCount | ConversationManagement.py:49-73 | After trimming, `token_count` is the token sum of the kept entries, within budget when more than the minimum remain. |
| ConversationManagement.TrimMakesValid | ConversationManagement.py:46-73 | A log whose count matches its entries is within budget, or at the minimum, after `__check_memory_log`. |
| ConversationManagement.AddKeepsValid | ConversationManagement.py:26-30 | `add` (append, count, trim, regenerate the string) keeps a valid log valid. |
| ConversationManagement.Weighted | ConversationManagement.py:33-40 | A reloaded list is weighted by content tokens when its first memory has depth 0, and by summary tokens otherwise. |
| ConversationManagement.LoadKeepsValid | ConversationManagement.py:33-42 | Corrected `load_memory_list`, which recounts the tokens, keeps the log valid. An empty list changes nothing. |
| ConversationManagement.LoadAsWrittenOverBudget | ConversationManagement.py:33-42 | As written, reloading five 200-token memories leaves all five with a stale count of 0. That is over the 750 budget and invalid. |
| ConversationManagement.Lines | ConversationManagement.py:75-80 | One line per entry: `speaker: content` in an eidetic log, the summary otherwise. |
| ConversationManagement.MemoryString | ConversationManagement.py:75-80 | An empty log keeps the old string. Otherwise the lines are joined with newlines, whose length is their sum plus one per separator. When no line holds a newline, splitting the string on newlines gives back exactly the lines. |
| ConversationManagement.RecentMessages | ConversationManagement.py:148-159 | Returns `min(n, count)` messages, or none when that is `<= 0`. |
| ConversationManagement.RecentMessagesOrder | ConversationManagement.py:148-159 | The messages returned are in ascending timestamp order and drawn from the log. |
| ConversationManagement.RecentMessagesNewest | ConversationManagement.py:148-159 | No message left out is newer than one returned. |
| ConversationManagement.MemoryLog.constructor | ConversationManagement.py:19-24 | A new log stores its budget and minimum, with no entries, a zero count and an empty string. |
| ConversationManagement.MemoryLog.Add | ConversationManagement.py:26-30 | Appends the entry, adds its tokens, trims and regenerates the string, as AddSpec says. |
| ConversationManagement.MemoryLog.LoadMemoryListAsWritten | ConversationManagement.py:33-42 | As written: replaces the entries with the weighted list, keeps the old token count, then trims and regenerates the string (LoadAsWritten). |
| ConversationManagement.MemoryLog.LoadMemoryList | ConversationManagement.py:33-42 | Corrected: replaces the entries with the weighted list, recounted, then trims and regenerates the string (LoadSpec). |
| ConversationManagement.MemoryLog.CheckMemoryLog | ConversationManagement.py:46-73 | The sort, greedy loop and reverse compute exactly Trim of the old state. |
| ConversationManagement.MemoryLog.GenerateMemoryString | ConversationManagement.py:75-80 | Only the memory string changes, to MemoryString of the entries. |
| ConversationManagement.ConversationManager.constructor | ConversationManagement.py:11-16 | Both logs start empty with a budget of 750 tokens and a minimum of 4 entries. |
| ConversationManagement.ConversationManager.LogMessage | ConversationManagement.py:161-165 | The caches change as `create_new_memory` does. The eidetic memory is added to the eidetic log, and an episodic memory, when one was made, to the episodic log. |
| ConversationManagement.ConversationManager.LogCreated | ConversationManagement.py:163-165 | Adds the new memories to the two logs, touching neither log otherwise. |
| Themes.CleanupThemeResponse | ThemeManagement.py:119-151 | A list is returned as is, with no error. Unparsable text, or an object with several keys or a non-list value, gives `([], True)`. A one-key object holding a list gives that list. A non-object, or an empty object, raises. |
| Themes.GenerateTheme | ThemeManagement.py:154-167 | A fresh theme has the given id and time, empty phrase and link lists, and a zero count. |
| Themes.GenerateThemeLink | conversation_management/ThemeManagement.py:181-193 | A fresh link carries the given ids and depth, with weight 0.0, cooldown 0 and repeat count 0. |
| Themes.Phrases | ThemeManagement.py:61-62 | Each extracted item becomes its `str`, one for one. |
| Themes.MergeTarget | ThemeManagement.py:67-74 | A phrase merges iff there is a top match scoring at least the threshold, and it merges into that match. |
| Themes.ExtractThemes | ThemeManagement.py:47-106 | The loop computes ExtractSpec and returns `[]` at once, with the state unchanged, on a cleanup error. |
| Themes.ExtractPhrase | ThemeManagement.py:61-104 | One pass of the loop body does exactly what Step says. |
| Themes.MergeIdempotent | ThemeManagement.py:78-87 | Merging a phrase the matched theme already holds changes no theme and no index entry. |
| Themes.CreateOnePhrase | ThemeManagement.py:88-104 | With no qualifying match, one new theme is created under the next fresh id, holding just that phrase with count 1. Its id is appended, and the phrase is indexed before the next phrase when indexing is on. |
| Themes.RunKeepsValid | ThemeManagement.py:78-83 | Every stored theme keeps distinct phrases and `theme_count == len(themes)`. |
| Themes.RunWithoutIndexing | conversation_management/ThemeManagement.py:158-162 | With pinecone indexing off, the vector index is never changed. |
| Themes.RunStaysFailed | ThemeManagement.py:61-104 | Once a pass raises, the loop ends with that exception. |
| Themes.RunInvariant | ThemeManagement.py:61-104 | The loop keeps unused ids fresh and never drops a theme or phrase. Its id list has no duplicates and names stored themes only. |
| Themes.StepInvariant | ThemeManagement.py:72-104 | One pass keeps those invariants. |
| Themes.ExtractedIdsDistinct | ThemeManagement.py:84-86 | The theme ids `extract_themes` returns are distinct and all name stored themes. |
| DraftMemory.OverflowMeansNoSpace | raven_memory_management.py:93-104 | After adding, "no space for 0 more" is the same as "no space for n more" before adding. |
| DraftMemory.AddAllAfterFlush | raven_memory_management.py:93-108 | Adding memories to a flushed cache leaves exactly them, with the sum of their tokens. |
| DraftMemory.DraftMemoryCache.constructor | raven_memory_management.py:39-47 | A new draft cache stores its depth, buffer and max tokens, with no memories and a zero count. |
| DraftMemory.DraftMemoryCache.MemoryCount | raven_memory_management.py:58-64 | `memory_count` is the length of the memory list. |
| DraftMemory.DraftMemoryCache.HasMemorySpace | raven_memory_management.py:100-104 | True iff `token_count + n <= max_tokens - token_buffer`. |
| DraftMemory.DraftMemoryCache.AddMemory | raven_memory_management.py:93-97 | Appends and counts the memory, then returns true exactly when no space is left afterwards. |
| DraftMemory.DraftMemoryCache.FlushMemoryCache | raven_memory_management.py:106-108 | Empties the memories and resets the count to 0. |
| DraftMemory.CreateState | raven_memory_management.py:139-143 | Three fresh empty caches for depths 0, 1 and 2, in order, each with budget `max_tokens - token_buffer`. |
| DraftMemory.RawText | raven_memory_management.py:361-368 | "string" takes a text response as it is, and raises iff the response is a list. "list" joins the items of a list, or the characters of a text, with newlines. Any other type gives `''`. |
| DraftMemory.ProcessGptMemoryResponse | raven_memory_management.py:361-372 | The result is clean and keeps every non-space character of the raw text. It is the raw text's maximal run cut with each line-break run written as one newline and each blank run as one space. It raises exactly when the raw text does. |
| DraftMemory.GenerateMemoryElements | raven_memory_management.py:267-302 | The prompt is chosen by depth (0, 1, other). The result is the processed summary completion, the processed keywords completion and the `total_tokens` of the keywords completion. It raises iff one processing raises. |
| DraftMemory.SpeakerLine | raven.py:187-189 | `"speaker: timestring - message"`: its prefix, suffix and length. |
| DraftMemory.FormatEideticMemory | raven_memory_management.py:258-260 | `"speaker: timestring - content"`: the prefix through the timestring, the content at the end, and nothing between. |
| DraftMemory.FormatEpisodicMemory | raven_memory_management.py:263-265 | `"timestring: summary"`, with its length. |
| DraftMemory.Chars | raven_memory_management.py:366 | `list(s)` of a string is its characters, one per element. |
| SqlRows.JsonText | sqlite3_test.py:62-67 | `json.dumps` succeeds except on bytes, and its text is never empty. |
| SqlRows.Put | sqlite3_test.py:180-181 | Assigning a dictionary key sets it, appends an absent key at the end, and leaves every other key alone. |
| SqlRows.FromPairsSpec | sqlite3_test.py:12-25 | Filling a dict pair by pair gives distinct keys, exactly the columns, and the last value written for each column. |
| SqlRows.DictFactory | querytest.py:4-8 | The loop maps each column name to its (decoded) row value, with the last duplicate column winning. |
| SqlRows.Decoded | sqlite3_test.py:15-24 | Only strings shaped `[...]` or `{...}` are parsed. On a parse failure the string is kept, and other values are left as they are. |
| SqlRows.InQuery | sqlite3_test.py:35-38 | The IN query binds the ids and has exactly one `?` per id. |
| SqlRows.QueryByIds | sqlite3_test.py:30-45 | `None` selects all rows, and one string id is wrapped in a list. The placeholders match the parameters. |
| SqlRows.GetMemoriesById | querytest.py:36-45 | One `?` per id, and only the first fetched row is returned, or None. |
| SqlRows.ClauseRhs | sqlite3_test.py:62-79 | The corrected right-hand side raises only on bytes. |
| SqlRows.ClauseRhsNull | sqlite3_test.py:75-79 | `NULL` is written exactly for None and `''`. |
| SqlRows.ClauseRhsReadsBack | sqlite3_test.py:62-79 | Any other value is a literal SQLite reads back as the string itself, or as the JSON dump. |
| SqlRows.StoredValueReadsBack | sqlite3_test.py:12-25 | A dumped list or dict, once stored, is decoded by `dict_factory` to the same object. |
| SqlRows.QuickRhs | querytest.py:15-19 | Raises only on bytes. |
| SqlRows.QuickRhsReadsBack | querytest.py:15-19 | Every value is always quoted (never NULL) and reads back as its `str`. |
| SqlRows.ClausesSpec | sqlite3_test.py:57-79 | Clauses are built iff no non-key value raises. There is then one `column = rhs` per non-key item, in row order, and the key appears in none. |
| SqlRows.ClausesStaysNone | sqlite3_test.py:57-79 | Once a value raises, the whole build raises. |
| SqlRows.BuildClauses | querytest.py:11-19 | The clause loop computes Clauses. |
| SqlRows.Stamp | sqlite3_test.py:52-55 | `modified_on` is set to the time text when present. Keys, their order and every other value are unchanged. |
| SqlRows.StampInPlace | sqlite3_test.py:54-55 | Stamping replaces at most the `modified_on` item, in place. |
| SqlRows.SqlUpdateRow | sqlite3_test.py:51-81 | The row is stamped, and the statement is UpdateStatement: clauses, then `WHERE pk = 'key'`. A JSON dump is written with the corrected escaping (ClauseRhs). |
| SqlRows.QuickUpdateRow | querytest.py:10-22 | The statement is the always-quoted clauses with the key in the WHERE clause. |
| SqlRows.DumpNotEscaped | sqlite3_test.py:62-77 | As written, the dump of `["'"]` is quoted unescaped, so the literal ends early. The corrected clause reads back as the dump. |
| SqlRows.ColumnOrder | sqlite3_test.py:103 | The column list is a permutation of the keys. |
| SqlRows.NonKeyKeys | sqlite3_test.py:103 | The non-key columns are the keys sorting after the key column, in row order. |
| SqlRows.ColumnOrderKeyFirst | sqlite3_test.py:103 | With distinct keys, the key column comes first, followed by the others in their row order. |
| SqlRows.InsertStatement | sqlite3_test.py:102-107 | A missing key raises KeyError. Otherwise every column is bound: the first to the key value, the others to None. |
| SqlRows.InsertPlaceholders | sqlite3_test.py:107 | The INSERT has one `?` per bound value. |
| SqlRows.SqlInsertRow | sqlite3_test.py:100-123 | KeyError iff the key is missing. Otherwise the INSERT, then the UPDATE of the stamped row, which is built iff no non-key value is bytes. The UPDATE uses the corrected escaping (ClauseRhs). |
| SqlRows.SqlUpsertRow | querytest.py:61-80 | The same INSERT, then querytest.py's UPDATE. |
| SqlRows.InsertThenUpdate | sqlite3_test.py:100-116 | The UPDATE after the INSERT names, after the key, exactly the INSERT's columns in order, and targets the inserted key. |
| SqlRows.UpsertThenUpdate | querytest.py:61-75 | The same, for the upsert. |
| SqlRows.DefaultFor | sqlite3_test.py:157-171 | `id` gives None. Otherwise the first match wins, each direction stated: INTEGER gives -1, then REAL -1.0, then TEXT None, then BLOB `b""`, and None otherwise. |
| SqlRows.GetTableTemplate | sqlite3_test.py:151-174 | The loop fills the template with each column's default, in table order. |
| SqlRows.TemplateSpec | sqlite3_test.py:156-171 | One entry per column name, holding the default of its last column. |
| SqlRows.OverwriteSpec | sqlite3_test.py:179-181 | Only keys already in the row are overwritten; unknown keyword arguments are ignored. |
| SqlRows.CreateRowObject | sqlite3_test.py:177-182 | The loop gives the template overwritten by the keyword arguments. |
| SqlRows.RowObjectSpec | sqlite3_test.py:177-182 | The row has exactly the table's columns. A column named by an argument holds that argument, and every other column holds its template value. |
| PromptManagement.Manager | PromptManagement.py:172-182 | The fixed (temperature, response tokens) pair of each of the nine prompts. Both directions are stated: 0.7 for Conversation, RecallExtraction and RecallRelevancy. 600 for Conversation, 500 for the four summaries of summaries and recall checks, and 250 for the rest. |
| PromptManagement.BlockShape | PromptManagement.py:41-61 | An optional section is empty when absent, and otherwise `TITLE:\n` + body + newline. |
| PromptManagement.SectionsPhraseShape | PromptManagement.py:42 | The sections text ends with "conversation log" and starts with "conversation notes" iff notes are given. |
| PromptManagement.AnticipationShape | PromptManagement.py:41-45 | The prompt opens on the sections text. It ends with the NOTES block, when given, then the LOG block. |
| PromptManagement.ConversationShape | PromptManagement.py:57-61 | The ANTICIPATED, NOTES and LOG blocks appear in that order, each only when given, and the prompt ends with `\nRAVEN:`. |
| PromptManagement.EideticSummaryShape | PromptManagement.py:73-75 | The speaker name comes before the content. |
| PromptManagement.EideticToEpisodicShape | PromptManagement.py:87-89 | The content sits between the introduction and the instructions. |
| PromptManagement.EpisodicSummaryShape | PromptManagement.py:101-103 | The introduction is followed by the content alone. |
| PromptManagement.ThemeExtractionShape | PromptManagement.py:112-114 | The prompt ends with the literal `{"themes":[]}` format. |
| PromptManagement.RecallExtractionShape | PromptManagement.py:126-128 | The content sits between the introduction and the question. |
| PromptManagement.RecallThemeExtractionShape | PromptManagement.py:143-145 | The prompt ends with the `{"themes":[]}` format. |
| PromptManagement.RecallRelevancyShape | PromptManagement.py:157-160 | The content is the recent message, then the potential goals, then the relevant information. |
| PromptManagement.PromptTokensAsWritten | PromptManagement.py:22-24 | As written, `prompt_tokens` raises for exactly four of the nine prompts. |
| PromptManagement.PromptTokens | PromptManagement.py:47-48 | As intended: the estimate of the blank prompt, plus the system instructions for recall extraction. |
| PromptManagement.PromptTokensRaise | PromptManagement.py:90-92 | Where the written property works, it gives the intended estimate. |
| PromptManagement.ConversationTokenBuffer | PromptManagement.py:185-188 | The conversation prompt's tokens plus 250 + 500. |
| Raven.LoadConversation | raven.py:124-131 | The records come back as recalled. The text is empty or has no whitespace at either end. |
| Raven.LoadConversationOrder | raven.py:129-131 | The text is the messages of a chronological permutation of the records, joined by newlines and stripped. Records already in order are used in that order. |
| Raven.FormatSummaryMemory | raven.py:187-189 | `"speaker: timestring - message"`: prefix, suffix and length. |
| Raven.CeilDivSpec | raven.py:226 | The rounded-up quotient is the least multiple of the divisor reaching the length. |
| Raven.Scan | raven.py:221-253 | A pass ends in exactly one of four ways: a block-full at its first index, a chunk-full at a later index, the end of the range, or nothing when the range is empty. |
| Raven.ScanSpec | raven.py:221-253 | A block-full means the first memory alone exceeds the budget. A chunk-full means the chunk fits while one more memory would not. The end means the rest fits. |
| Raven.PassSpec | raven.py:217-253 | Each pass keeps its invariant: chunks are contiguous runs in input order, every block is a prefix of the chunks, and every chunk fits `max_token_input`. A chunk made after block b was closed fits the budget of block b+1. A pass that ends the run produces good blocks. |
| Raven.BudgetBound | raven.py:215-216 | Each block's budget is at most the previous one's and at most `max_token_input`. |
| Raven.RunSpec | raven.py:209-257 | Whenever the run ends, its blocks are good: they cover the memories up to the stop in order, chunk by chunk. Every chunk fits `max_token_input`, and one made after block b was closed fits block b+1's budget. |
| Raven.LastMemoryNeverChunked | raven.py:201 | As written, the blocks cover every memory except the last, and the run ends only when there are at least two memories. |
| Raven.AllMemoriesChunked | raven.py:192-260 | Corrected: the blocks cover every memory, in order, within budget. |
| Raven.SingleMemoryChunked | raven.py:201 | One memory that fits comes out as one block holding one chunk of it. As written, one memory never ends the run. |
| Raven.ChunkPass | raven.py:217-253 | For any `memory_count` up to the number of memories, the `for` loop does what Pass says. A pass that ends the blocks also ends the chunks, and a pass that ends nothing changes nothing. |
| Raven.RunChunker | raven.py:209-257 | For any `memory_count`, the two `while` loops finish iff the run ends within `fuel` passes, and then return its blocks. |
| Raven.ChunkMemories | raven.py:192-260 | As written (`memory_count = len(memories) - 1`): finishes iff ChunkMemoriesAsWritten ends. Whatever it returns needs two memories and leaves the last one out. |
| Raven.ChunkEveryMemory | raven.py:192-260 | Corrected (`memory_count = len(memories)`): finishes iff the corrected run ends, and then chunks every memory in order within budget. |

## Left out

- MemoryManagement.MemoryManager.constructor: `__init__` falls back to `create_state` only when `load_state` finds no saved state file. The model always starts from the fresh state, because loading from files is I/O.
- `get_memories_from_cache`, `get_previous_memory_ids_from_cache`, `cache_count` and `compose_gpt_message` (MemoryManagement.py:151-160, 399-405) are one-line accessors or message builders. They are not part of this model.
- Calls to the OpenAI and Pinecone services are oracle parameters, not modelled code. This covers completions with their retries, embeddings, queries, upserts and `update_pinecone_vector`. These are network services.
- The tiktoken estimate (`get_token_estimate`) is an uninterpreted `string -> nat` parameter. It is a foreign library.
- `uuid4()` is a supply of fresh ids indexed by how many were drawn. `time()` is a `now` parameter, and the `datetime` time strings are plain text fields.
- File and database I/O is out, because it is I/O. This covers `load_state`/`save_state`, `index_memory`, `save_json`/`load_json`, SQLite connections, execution, commit and rollback, `print` and `debug_message`. Theme files are a map in `ThemeState`, and a missing file is the FileNotFoundError outcome.
- `sql_delete_row` (sqlite3_test.py:126-148 and querytest.py:83-101) only formats one DELETE string and runs it. It is left out with the other database execution.
- `create_memory_object` (sqlite3_test.py:184-185) is cut off in the source text.
- Python floats: a REAL value is a `real`, and its `repr` is a `Render` parameter. `json.dumps` integers and strings are modelled, and other renderings are `Render` parameters.
- The interactive `breakpoint()` pause (raven.py:284-285) waits for input. It is a no-op in the model.
- `MemoryCache.cache_token_limit` (MemoryManagement.py:61-62) reads `self.self` and always raises. No modelled code uses it, so it is left out. The same holds for the draft `token_buffer` getter (raven_memory_management.py:54-55).
- The draft `has_memory_space` and `flush_memory_cache` (raven_memory_management.py:100-108) lack `self`. They are modelled as the instance methods they are evidently meant to be.
- The draft `import_cache` stub, `generate_episodic_memory`, `generate_eidetic_summary` and `generate_episodic_summary` (raven_memory_management.py) cannot run as written.
- The draft `token_buffer` and `max_tokens` come from config strings. They are modelled as integers.
- Prompts.py builds strings but returns None, so nothing in it is observable.
- The prompt wording is a `Wording` value. Its field `SourceWording` holds the sentences of PromptManagement.py. The shape lemmas hold for any wording.
- `stash_path` and config lookups are out; they are configuration.
- `system_instructions` of recall extraction enters only as its token count `instructionTokens`.
- The base `get_prompt` (PromptManagement.py:10-11) raises NotImplementedError. Every subclass overrides it.
- `summarize_memories` (raven.py:133-185) is a completion loop over chunks; it is left out as an oracle call.
- Raven.RunChunker: `chunk_memories` loops forever when the range is empty or when a memory alone exceeds `max_token_input`. The run is bounded by `fuel`, and `finished` is false when `fuel` passes were not enough. The model does not show that the run diverges.
- Raven.RunChunker: `token_response_limit` is a `nat` and `token_per_character` is positive. The source divides by the latter, and the former is a configured response size.
- Raven.LoadConversation: a record's `time` is an integer, and loading the records from files is left out.
- ConversationManagement.Weighted: a record with no `content_tokens` inside a depth-0 list raises KeyError in the source. The model weighs it by its summary tokens. `Line` does the same for an episodic record in an eidetic log.
- MemoryManagement.MemoryManager.CacheMemory: cascading past depth 2 raises IndexError in the source. The model reports it as `ok == false` and keeps the changes made before the error.
- MemoryManagement.MemoryManager.CacheMemory: one `now` stands for every `time()` taken during a cascade.
- SqlRows.SqlUpdateRow: a JSON-dumped value is escaped like any string (the corrected ClauseRhs). The source quotes the dump unescaped (ClauseRhsAsWritten, Findings), which breaks the statement when the dump holds an apostrophe.
- SqlRows.SqlInsertRow: its UPDATE uses the same corrected escaping as SqlUpdateRow.
- MemoryManagement.MemoryManager.GetCacheMemoryCount: the corrected count answers -1 at the depth one past the last cache, where the source raises IndexError. GetCacheMemoryCountAsWritten models that case.
- ConversationManagement.MemoryLog.LoadMemoryList: the corrected reload recounts the tokens, where the source keeps the stale count. LoadMemoryListAsWritten models that.
- Themes.ExtractThemes: on a merge, ThemeManagement.py:80-81 hands the joined phrases to `update_pinecone_vector` (UtilityFunctions.py:157-161) as the vector values themselves, without embedding them. Only conversation_management/ThemeManagement.py:158-162 embeds the text first. The model records the text an index entry is made from, so it does not tell the two copies apart there.
- SqlRows.SqlInsertRow: the caller's dictionary is stamped in place. The model returns the stamped row (`SqlUpdateRow`) instead of aliasing it.

## Findings

| source | as written | input that shows it | evidently intended | confidence | as-written member | corrected member |
|---|---|---|---|---|---|---|
| MemoryManagement.py:146 | `if int(depth) > len(caches): return -1` | `depth == 3` with three caches raises IndexError | `>=`, so -1 for every depth without a cache | not executed | MemoryManagement.CacheMemoryCountAsWritten, MemoryManagement.MemoryManager.GetCacheMemoryCountAsWritten | MemoryManagement.CacheMemoryCount, MemoryManagement.MemoryManager.GetCacheMemoryCount |
| ConversationManagement.py:33-42 | `load_memory_list` replaces the entries but never recomputes `token_count` | five 200-token eidetic memories loaded into an empty log: count stays 0, no trim, 1000 tokens kept over a 750 budget | the count recomputed from the new entries before the trim | not executed | ConversationManagement.LoadAsWrittenOverBudget, ConversationManagement.MemoryLog.LoadMemoryListAsWritten | ConversationManagement.LoadKeepsValid, ConversationManagement.MemoryLog.LoadMemoryList |
| sqlite3_test.py:62-77 | a JSON-dumped value is quoted without doubling its `'` | the value `["'"]` gives the clause `col = '["'"]'`, whose literal ends early | the dump escaped like any other string | not executed | SqlRows.DumpNotEscaped | SqlRows.ClauseRhsReadsBack |
| PromptManagement.py:90-92 | `prompt_tokens` raises for the eidetic-to-episodic, episodic, recall-extraction and recall-relevancy prompts | `EpisodicSummary.prompt_tokens` (no override) or `EideticToEpisodicSummary.prompt_tokens` (three arguments to a one-argument `get_prompt`) | the estimate of the prompt built from blank arguments | not executed | PromptManagement.PromptTokensAsWritten | PromptManagement.PromptTokens |
| raven.py:201 | `memory_count = len(memories)-1` and the range stops before it | a single memory never ends the run; with several, the last one is in no chunk | `memory_count = len(memories)` | not executed | Raven.LastMemoryNeverChunked, Raven.ChunkMemories | Raven.AllMemoriesChunked, Raven.ChunkEveryMemory |
