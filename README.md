# TruthSeeker fact-checking core, modelled in Dafny

TruthSeeker checks a statement in three steps. It searches the web with Brave Search, asks a chat model to weigh the evidence, and reconciles the model's free-text reply into a structured verdict. This project models that core as sequential logic and proves what the code promises about it.

| file | module | what it models |
|---|---|---|
| `wrappers.dfy` | `Wrappers` | `Option` and `Result`. These stand in for Python's `None` and for a raised exception, whose text is the error. |
| `text.dfy` | `Text` | The `str` operations the code uses: strip, case mapping of the ASCII letters (see Left out), replace, `in`, `split`, `join`, `splitlines`, slicing and `str(int)`. Each is proved against its meaning. |
| `folds.dfy` | `Folds` | The shape of the `for ...: result.append(...)` loops, with and without an exception that stops the loop. |
| `json.dfy` | `Json` | JSON values. A dict is a list of key/value pairs in insertion order. Also `dict.get`, truthiness and `or`. |
| `foreign.dfy` | `Foreign` | The libraries the code calls, as one record of functions `Library`. `json.loads` is built on `raw_decode` the way the standard library builds it. |
| `domain.dfy` | `Domain` | `Verdict`, `Reference`, `SearchResult` and `AnalysisResult`, with their validators and defaults. |
| `reconciler.dfy` | `Reconciler` | `LLMResponseParser`: the leftmost-decodable-`{` scan, input normalisation, reference building, the fallbacks and `parse_llm_json`. |
| `legacy_parser.dfy` | `LegacyParser` | The legacy `parse_llm_json` in its own loop structure. It is proved equal to the `Reconciler` specification functions. |
| `cache.dfy` | `SearchCache` | What both search clients share: the cache key, TTL lookup, the cache-file filter, result mapping and the placeholder. |
| `brave_client.dfy` | `BraveClient` | `BraveSearchClient`, a class whose fields are the cache map, the dirty flag, the last-write time and the pending write task. It includes the debounce state machine and `search`. |
| `legacy_client.dfy` | `LegacyClient` | The legacy client. It writes the cache file on every `_set_cache`. |
| `orchestrator.dfy` | `Orchestrator` | `LLMClient`: the buffered and streaming tool loops and the reassembly of streamed tool-call fragments. |
| `coordinator.dfy` | `FactChecker` | `FactCheckerService`: result formatting, the tool schema, the search tool handler and `fact_check`. |
| `tag_parser.dfy` | `TagParser` | `parse_response` of `utils/shared_utils.py`. |
| `sanitization.dfy` | `Sanitization` | `sanitize_query`, `_is_allowed_href` and the href rewrite of `sanitize_html`. |
| `web_search_agent.dfy` | `WebSearchAgent` | The legacy agent's sanitiser, `search_web`, `search_web_direct` and the reference loop of `main`. |

What stands in for the outside world:
- **The clock.** The clock readings are `real` parameters (`now`, `start`, `finish`). Readings close together in one call share a parameter. For the current Brave client, the "## Left out" line for `BraveClient.BraveSearchClient.Search` says which ones.
- **The chat model.** It is a function from the call number, or from the conversation sent, to the reply. A streamed reply is a given sequence of chunks.
- **Tool handlers.** Each returns its result or the text of the exception it raises. Tool handlers and the search behind `brave_search` are stateless functions of their arguments, so two identical calls in one `fact_check` give the same result and elapsed time. In the program the second call would be a cache hit of the stateful client, which is modelled on its own in `BraveClient`.
- **HTTP.** Each request outcome is a parameter: the decoded body, or the text of the exception.
- **Files.** A cache file's text is a parameter. A file write is recorded as the snapshot of the cache written.
- **The environment.** The API key is a parameter.
- **Foreign libraries.** `raw_decode`, `json.dumps`, `float(str)`, pydantic's `HttpUrl`, `urlparse(...).scheme`, `bleach.clean`, the Unicode part of `\w` and the number formatting (`:.2f`, `str(dict)`) are functions the caller supplies. Every property is proved for all of them. Where a property needs something of `raw_decode`, such as "the span it accepted decodes again", it is a stated requirement on the decoder.

Where the code and its design description differ, the model follows the code:
- When its budget runs out, the buffered tool loop makes no final model call. It returns the content of the last message, which is the last tool result (`src/truthseeker/infrastructure/llm/client.py:175-179`).
- A tag section is cut at the next occurrence of its own opening tag as well as at its closing tag, because `split(open)[1]` ends there.

The two `sanitization.py` files (`src/truthseeker/utils/` and `utils/`) contain the same logic and are modelled once. The table cites whichever file states each property most directly.

A caller's `messages` list is a value in this model. That both loops leave it unchanged (`src/truthseeker/infrastructure/llm/client.py:78, 201`) therefore holds by construction and is not a lemma.

## Model

| member | source | states |
|---|---|---|
| Domain.VerdictMembers | src/truthseeker/domain/models.py:9-17 | `Verdict` has exactly six members, every verdict is one of them, and their six values are distinct |
| Domain.VerdictFromValue | src/truthseeker/domain/models.py:9-17 | `Verdict(s)` succeeds exactly when `s` is one of the six values, and the verdict read has value `s` |
| Domain.VerdictRoundTrip | src/truthseeker/domain/models.py:9-17 | reading a verdict back from its value gives the same verdict (each value equals its name) |
| Domain.NewReference | src/truthseeker/domain/models.py:20-24 | `Reference` construction succeeds exactly when the URL validates as an HTTP(S) URL, and keeps the title |
| Domain.NewSearchResult | src/truthseeker/domain/models.py:27-33 | `SearchResult` construction succeeds exactly when title and description are strings, the URL validates and the time coerces to a float as pydantic's lax mode does (a number, a bool or a numeric string); the fields are stored as given and the time is the coerced value |
| Domain.SearchResultFromFields | src/truthseeker/domain/models.py:27-33 | keyword construction from a stored dict fails for a non-dict or when title or url is missing; a built result carries the stored title |
| Domain.SearchResultDefaults | src/truthseeker/domain/models.py:27-33 | with only title and url, description defaults to `""` and query_time to 0.0 |
| Domain.NewAnalysisResult | src/truthseeker/domain/models.py:36-52 | construction succeeds exactly when the explanation is not blank and context is None or a string; every field is then stored unchanged and the result satisfies the non-blank invariant |
| Domain.AnalysisResultDefaults | src/truthseeker/domain/models.py:36-44 | with only verdict and explanation: context None, no references, both times 0.0 |
| Domain.Fallback | src/truthseeker/infrastructure/llm/parser.py:149-156 | every fallback result is UNVERIFIABLE with its fixed non-blank message, no context, no references and zero times |
| Foreign.SkipJsonSpace | src/truthseeker/infrastructure/llm/parser.py:159 | the index reached by skipping JSON whitespace: everything skipped is whitespace and what follows is not |
| Foreign.LastNewline | src/truthseeker/infrastructure/llm/parser.py:161-162 | `rfind("\n")`: -1 or the position of a newline, with no newline after it (used for the decode error's column) |
| Foreign.Loads | src/truthseeker/infrastructure/llm/parser.py:159 | `json.loads` refuses a leading byte-order mark, and any value it returns is one `raw_decode` read |
| Foreign.LoadsConsumedSpan | src/truthseeker/infrastructure/llm/parser.py:63-64 | `json.loads` of exactly the span `raw_decode` consumed from a `{` succeeds and gives back the same object |
| Foreign.PyFloat | src/truthseeker/infrastructure/llm/parser.py:124-131 | `float(v)`: None, lists and dicts raise TypeError; ints and floats convert to their value |
| Json.Get | src/truthseeker/infrastructure/llm/parser.py:83 | `dict.get` finds nothing exactly when no entry has the key, and otherwise returns the value of an entry with that key |
| Json.Or | src/truthseeker/infrastructure/llm/parser.py:118-119 | `a or b` is one of its operands, and it is truthy exactly when one of them is |
| Reconciler.FirstJsonFromSpec | src/truthseeker/infrastructure/llm/parser.py:59-68 | the scan from `start` gives None exactly when no later `{` decodes; otherwise it gives the consumed span at the first `{` that decodes |
| Reconciler.FirstJsonSpec | src/truthseeker/infrastructure/llm/parser.py:56-68 | `_find_first_json` gives the span `raw_decode` consumed at the leftmost decodable `{`, skipping earlier undecodable ones, and None exactly when no `{` decodes |
| Reconciler.FirstJsonNoBrace | src/truthseeker/infrastructure/llm/parser.py:59-61 | a text without `{` gives None |
| Reconciler.FindFirstJson | src/truthseeker/infrastructure/llm/parser.py:45-68 | the `for start` loop with early return computes exactly the scan above |
| Reconciler.AliasMapIdentity | src/truthseeker/infrastructure/llm/parser.py:83-93 | a string verdict becomes `strip().upper()` (ASCII letters only, see Left out) with spaces as `_`, which the alias map leaves unchanged; a non-string verdict leaves no verdict |
| Reconciler.AliasMapWithoutSpace | src/truthseeker/infrastructure/llm/parser.py:86-92 | on a string without spaces the alias map is the identity (every key it would change contains a space) |
| Reconciler.RefLineDash | src/truthseeker/infrastructure/llm/parser.py:107-108 | a line with a dash separator is cut at it, even when the pipe separator occurs too, and both parts are stripped |
| Reconciler.RefLinePipe | src/truthseeker/infrastructure/llm/parser.py:109-110 | a line with no `" - "` is cut at the first the pipe separator |
| Reconciler.RefLineWhole | src/truthseeker/infrastructure/llm/parser.py:111-113 | a line with neither separator is the whole title, with url `""` |
| Reconciler.StringReferencesConcat | src/truthseeker/infrastructure/llm/parser.py:103-113 | string references are built line by line, in line order |
| Reconciler.StringReferencesLine | src/truthseeker/infrastructure/llm/parser.py:104-106 | a blank line gives no reference; any other line gives exactly the reference of its stripped text |
| Reconciler.RefTitleAliases | src/truthseeker/infrastructure/llm/parser.py:118-119 | the title is the first truthy of title, source and name, else `""`; the url the first truthy of url and link, else `""` |
| Reconciler.ListReferencesRaises | src/truthseeker/infrastructure/llm/parser.py:114-120 | a list of references raises exactly when some dict item has a non-string title or url (`.strip()` on it) |
| Reconciler.ListReferencesConcat | src/truthseeker/infrastructure/llm/parser.py:114-120 | list references keep the input order |
| Reconciler.ListReferencesItem | src/truthseeker/infrastructure/llm/parser.py:116-120 | a non-dict item is skipped; a good dict item gives its aliased title and url, stripped |
| Reconciler.TimingSpec | src/truthseeker/infrastructure/llm/parser.py:123-131 | a missing or falsy timing, or one `float` refuses, is 0.0; otherwise it is the converted value |
| Reconciler.NormalizeRaises | src/truthseeker/infrastructure/llm/parser.py:80-133 | `_normalize_input` raises exactly when the data is not a dict, the explanation is not a string, or a listed reference has a non-string title or url |
| Reconciler.StringReferenceList | src/truthseeker/infrastructure/llm/parser.py:102-113 | the `splitlines` loop builds exactly the string references |
| Reconciler.ListReferenceList | src/truthseeker/infrastructure/llm/parser.py:114-120 | the list loop builds exactly the list references, stopping at the first item that raises |
| Reconciler.NormalizeInput | src/truthseeker/infrastructure/llm/parser.py:71-133 | `_normalize_input` with its loops computes exactly the normalisation |
| Reconciler.BuildReferencesConcat | src/truthseeker/infrastructure/llm/parser.py:184-190 | a reference that fails construction is dropped alone; the survivors keep their order |
| Reconciler.BuildReferencesSingle | src/truthseeker/infrastructure/llm/parser.py:187-190 | one reference survives exactly when its URL validates, keeping its title |
| Reconciler.BuildReferenceList | src/truthseeker/infrastructure/llm/parser.py:185-190 | the defensive loop builds exactly those references |
| Reconciler.ChooseVerdict | src/truthseeker/infrastructure/llm/parser.py:194-199 | an enum value gives that verdict; no verdict or any other string gives UNVERIFIABLE |
| Reconciler.FromNormalized | src/truthseeker/infrastructure/llm/parser.py:181-218 | every result built after normalisation has a non-blank explanation |
| Reconciler.ParseOutcome | src/truthseeker/infrastructure/llm/parser.py:135-228 | every result `parse` returns has a non-blank explanation |
| Reconciler.Parse | src/truthseeker/infrastructure/llm/parser.py:135-228 | `parse`, with its loops as methods, computes exactly the parse outcome |
| Reconciler.ParseLlmJson | src/truthseeker/infrastructure/llm/parser.py:232-241 | the module-level wrapper gives the same outcome as `parse` |
| Reconciler.RepairBranchDead | src/truthseeker/infrastructure/llm/parser.py:158-176 | the span the scan returns is non-empty and `json.loads` accepts it as an object on the first try, so the quote repair and the "Failed to decode JSON" fallback cannot be reached |
| Reconciler.SpanDecodes | src/truthseeker/infrastructure/llm/parser.py:63-64 | the span read at a decodable `{` is non-empty and `json.loads` reads it as an object |
| Reconciler.ParseWithoutRepair | src/truthseeker/infrastructure/llm/parser.py:158-228 | when JSON is found, the outcome is the normalised object's, with no repair involved |
| Reconciler.ParseNoJson | src/truthseeker/infrastructure/llm/parser.py:147-156 | a text with no decodable `{` gives the "Could not parse model output" fallback |
| Reconciler.ParseRaises | src/truthseeker/infrastructure/llm/parser.py:178 | the parse raises exactly when the decoded object has a non-string explanation or a listed reference with a non-string title or url |
| Reconciler.NormalizedExplanation | src/truthseeker/infrastructure/llm/parser.py:96 | the normalised explanation is the stripped one: empty exactly when the raw one is blank, otherwise not blank |
| Reconciler.FromNormalizedSpec | src/truthseeker/infrastructure/llm/parser.py:181-218 | a blank explanation gets the placeholder; the verdict is chosen as above; the references are the built ones; times and context are passed on; a context that is neither None nor a string gives the schema fallback |
| Reconciler.ParseExplanation | src/truthseeker/infrastructure/llm/parser.py:178-182 | on the whole parse, a blank explanation becomes "No explanation provided by model." and any other is kept, stripped |
| LegacyParser.FindFirstJson | src/truthseeker/llm/parser.py:41-66 | the legacy scan computes the same leftmost-decodable-`{` span as the current parser, and None when none decodes |
| LegacyParser.NormalizeInput | src/truthseeker/llm/parser.py:69-132 | the legacy `_normalize_input`, with its loops inline, computes the same normalisation as the current one (verdict, aliases, references, timings) |
| LegacyParser.ParseLlmJson | src/truthseeker/llm/parser.py:135-223 | legacy `parse_llm_json` gives the same outcome as `LLMResponseParser.parse` for every input, with a non-blank explanation |
| SearchCache.CacheKeyIgnoresCaseAndSpace | src/truthseeker/infrastructure/search/brave_client.py:77-79 | queries that differ only in ASCII letter case or in surrounding whitespace share a cache key |
| SearchCache.CacheKeyDistinguishes | src/truthseeker/infrastructure/search/brave_client.py:77-79 | for one query, equal keys mean equal count and equal language, so a different count or language gives a different key |
| SearchCache.SplitAtColon | src/truthseeker/infrastructure/search/brave_client.py:79 | the `::` separators of the key split it unambiguously, since the rendered count contains no colon |
| SearchCache.Lookup | src/truthseeker/infrastructure/search/brave_client.py:118-130 | a lookup hits exactly when the key is present and not older than the TTL, and then returns the stored list; the only entry it can remove is the looked-up key, and only when it is expired |
| SearchCache.LookupAtTtl | src/truthseeker/infrastructure/search/brave_client.py:124 | an entry exactly `ttl` old is still a hit and nothing is removed |
| SearchCache.StoreThenLookup | src/truthseeker/infrastructure/search/brave_client.py:132-134 | what `_set_cache` stores is found again by a lookup within the TTL, which changes nothing |
| SearchCache.LookupIdempotent | src/truthseeker/infrastructure/search/brave_client.py:118-130 | looking up twice at the same time gives the first answer again and changes nothing more |
| SearchCache.Iterate | src/truthseeker/infrastructure/search/brave_client.py:90-92 | `for itm in items`: a list yields its items, a string or dict yields strings, anything else raises TypeError |
| SearchCache.StoredResultsSpec | src/truthseeker/infrastructure/search/brave_client.py:91-96 | the loaded results of an entry come from its items, at most one each, only from items that construct, and all of them when every item constructs |
| SearchCache.LoadWithFresh | src/truthseeker/infrastructure/search/brave_client.py:97-99 | loading keeps only entries with `now - ts <= ttl` |
| SearchCache.LoadWithFrom | src/truthseeker/infrastructure/search/brave_client.py:88-99 | each loaded entry is the decoded value of a file entry with the same key |
| SearchCache.LoadWithAborts | src/truthseeker/infrastructure/search/brave_client.py:85-101 | the load is cut short exactly when some value of the file raises (not a dict, bad `ts`, non-iterable results) |
| SearchCache.LoadWithComplete | src/truthseeker/infrastructure/search/brave_client.py:88-99 | when nothing raises, every unexpired entry of the file is loaded with its decoded value |
| SearchCache.LoadWithStep | src/truthseeker/infrastructure/search/brave_client.py:88-99 | one more file entry is either stored (when unexpired), skipped (when expired), or ends the load keeping what was stored |
| SearchCache.LoadWithStays | src/truthseeker/infrastructure/search/brave_client.py:100-101 | after an exception the remaining entries of the file change nothing |
| SearchCache.LoadCacheFresh | src/truthseeker/infrastructure/search/brave_client.py:81-101 | a cache loaded from a file (also a missing or undecodable one) holds no expired entry |
| SearchCache.MapItem | src/truthseeker/infrastructure/search/brave_client.py:245-257 | a non-dict item is skipped; a kept item carries the shared query time; missing fields take "No title", "No description available" and "https://example.com"; an empty dict maps whenever the default URL validates |
| SearchCache.MapResultsSpec | src/truthseeker/infrastructure/search/brave_client.py:242-257 | mapping gives at most one result per item and every result carries the same query_time |
| SearchCache.MapResultsConcat | src/truthseeker/infrastructure/search/brave_client.py:245-257 | mapping keeps the order of the items, skipping malformed ones one at a time |
| SearchCache.MapResultList | src/truthseeker/infrastructure/search/brave_client.py:243-257 | the results loop computes exactly the mapping above |
| SearchCache.WebItems | src/truthseeker/infrastructure/search/brave_client.py:245 | `data.get("web", {}).get("results", [])` raises on a non-dict response and gives no items when `web` is missing |
| SearchCache.Placeholder | src/truthseeker/infrastructure/search/brave_client.py:206-215 | the keyless placeholder is exactly one "Test Result" item with the fixed description and query_time 0.0, and it builds exactly when "https://example.com" validates |
| BraveClient.ScheduleDebounced | src/truthseeker/infrastructure/search/brave_client.py:143-146 | within two seconds of the last write, scheduling changes nothing and writes nothing |
| BraveClient.ScheduleOneTask | src/truthseeker/infrastructure/search/brave_client.py:149-152 | while a write task is pending, a second one is never created |
| BraveClient.WriteOnlyWhenDirty | src/truthseeker/infrastructure/search/brave_client.py:157-173 | a write happens only when the cache is dirty, and afterwards it is clean with the last-write time set to now; a step that does not write keeps the dirty flag |
| BraveClient.DebounceDropsWrite | src/truthseeker/infrastructure/search/brave_client.py:145-146 | a change within two seconds of the last write, with no task pending, stays dirty with nothing scheduled, and no task will write it |
| BraveClient.PendingTaskWrites | src/truthseeker/infrastructure/search/brave_client.py:154-161 | a pending task writes a dirty cache when it runs, whatever the time |
| BraveClient.BraveSearchClient.constructor | src/truthseeker/infrastructure/search/brave_client.py:47-75 | the client starts clean with no pending task and last-write time 0.0, and its cache is the file's loaded entries when a file is configured, otherwise empty |
| BraveClient.BraveSearchClient.LoadCacheFile | src/truthseeker/infrastructure/search/brave_client.py:81-101 | `_load_cache_file` adds exactly the loaded entries to the cache and changes nothing else |
| BraveClient.BraveSearchClient.GetFromCache | src/truthseeker/infrastructure/search/brave_client.py:118-130 | `_get_from_cache` returns the lookup's answer and leaves the lookup's cache |
| BraveClient.BraveSearchClient.ScheduleCacheWrite | src/truthseeker/infrastructure/search/brave_client.py:141-175 | `_schedule_cache_write` moves the debounce state one schedule step and writes a snapshot of the cache exactly when that step writes |
| BraveClient.BraveSearchClient.RunPendingWrite | src/truthseeker/infrastructure/search/brave_client.py:154-163 | the scheduled task moves the state one task step and writes exactly when that step does |
| BraveClient.BraveSearchClient.SetCache | src/truthseeker/infrastructure/search/brave_client.py:132-139 | `_set_cache` overwrites only that key with `(now, results)`; the dirty flag is set and a write scheduled only when a cache file is configured |
| BraveClient.BraveSearchClient.Search | src/truthseeker/infrastructure/search/brave_client.py:183-264 | a hit returns the cached list with no request and no state change; a keyless miss returns the placeholder with no request; otherwise exactly one request, whose mapped results are returned; a successful miss is cached under the key and, with a cache file, marks the cache dirty and takes one debounce step, recording a write exactly when that step writes; without a cache file the debounce state and writes are unchanged; a raised exception leaves cache and debounce state as the lookup left them |
| BraveClient.BraveSearchClient.SearchMiss | src/truthseeker/infrastructure/search/brave_client.py:200-264 | after a miss: no key gives the placeholder with no request, otherwise exactly one request whose mapped results are returned; success caches the results under the key and, with a cache file, takes one debounce step with the dirty flag set; a raised exception changes neither the cache, the debounce state nor the writes |
| BraveClient.BraveSearchClient.SearchWithRetry | src/truthseeker/infrastructure/search/brave_client.py:177-182 | `@retry` makes one to three attempts and stops at the first success: fewer than three attempts means a success, a failure is returned only after three, and there is at most one request per attempt |
| LegacyClient.LegacySearchClient.constructor | src/truthseeker/search/client.py:33-51 | the key falls back to `BRAVE_API_KEY`; the cache is the file's loaded entries when a file is configured, otherwise empty; nothing written yet |
| LegacyClient.LegacySearchClient.GetFromCache | src/truthseeker/search/client.py:92-104 | the legacy lookup deletes and misses on `now - ts > ttl`, otherwise returns the stored list, with the same lookup as the current client |
| LegacyClient.LegacySearchClient.SetCache | src/truthseeker/search/client.py:106-113 | the legacy `_set_cache` stores `(now, results)` under the key and, with a cache file, writes it immediately with no debounce |
| LegacyClient.LegacySearchClient.Search | src/truthseeker/search/client.py:121-192 | a hit makes no request; a keyless miss caches and returns the single placeholder; otherwise one request whose mapped results are returned and cached (written at once with a file); a raised exception changes neither cache nor file |
| LegacyClient.ReadCacheFile | src/truthseeker/search/client.py:57-76 | the legacy load loop computes exactly the same loaded cache as the current one: unexpired entries, bad items skipped |
| Orchestrator.HarvestSpec | src/truthseeker/infrastructure/llm/client.py:141-152 | a tool result adds search time only when it decodes to a JSON object with a `search_time` key, and then exactly the `float` of that value; decode, key and conversion errors add nothing |
| Orchestrator.ExecuteToolSpec | src/truthseeker/infrastructure/llm/client.py:113-171 | an unknown name gives "Error: Unknown function <name>", a raising parse or handler gives "Error: <exception>", both adding no time; a non-string result adds no time; any time added comes from the very text sent back to the model |
| Orchestrator.ToolTurnSpec | src/truthseeker/infrastructure/llm/client.py:113-171 | a turn appends exactly one tool message per call, with that call's id and outcome, in emitted order, and adds no time when no call carries any |
| Orchestrator.RunToolCalls | src/truthseeker/infrastructure/llm/client.py:113-171 | the `for tool_call` loop appends exactly the turn's tool messages and adds exactly its time |
| Orchestrator.TurnTools | src/truthseeker/infrastructure/llm/client.py:113-171 | the tool messages of a turn answer its calls one for one, by id and in order |
| Orchestrator.ToolTurnLast | src/truthseeker/infrastructure/llm/client.py:173-179 | a turn with calls ends with a tool message, which is what an exhausted run returns |
| Orchestrator.BufferedSpec | src/truthseeker/infrastructure/llm/client.py:78-179 | the caller's messages stay a prefix (the loop works on a copy); at most `max_iterations` tool turns; a run stops early only on a reply without tool calls, returning its content; a run that spends the budget makes no further call and returns the content of the last message, the last tool result after at least one turn, and raises IndexError only when there is no message at all |
| Orchestrator.BufferedTranscript | src/truthseeker/infrastructure/llm/client.py:89-171 | after the caller's messages the transcript is a series of turns: an assistant message carrying its tool calls, then one tool message per call id in emitted order |
| Orchestrator.ChatCompletionWithTools | src/truthseeker/infrastructure/llm/client.py:57-179 | the `while iterations < max_iterations` loop returns exactly the buffered run's result |
| Orchestrator.Grow | src/truthseeker/infrastructure/llm/client.py:236-241 | the slot list grows with empty slots to the needed length and keeps the slots it had |
| Orchestrator.ApplyDeltaSpec | src/truthseeker/infrastructure/llm/client.py:233-250 | a fragment with index `i` grows the slots to more than `i`, merges into slot `i` only (a non-empty id or name overwrites, arguments are appended), and leaves every other slot as it was; a fragment without an index changes nothing |
| Orchestrator.ApplyAllConcat | src/truthseeker/infrastructure/llm/client.py:222-250 | fragments are applied in arrival order, chunk after chunk |
| Orchestrator.ApplyToolDeltas | src/truthseeker/infrastructure/llm/client.py:233-250 | the loop over one chunk's fragments applies exactly those fragments in order |
| Orchestrator.ReassembleSpec | src/truthseeker/infrastructure/llm/client.py:232-250 | after a stream there is one slot per index up to the largest seen; each holds the last non-empty id and name sent for its index and its argument fragments concatenated in arrival order |
| Orchestrator.ApplyToolDelta | src/truthseeker/infrastructure/llm/client.py:234-250 | growing slot by slot and updating in place computes exactly one fragment's effect |
| Orchestrator.TextEventsSpec | src/truthseeker/infrastructure/llm/client.py:227-229 | the events yielded while a stream is read carry no metadata and no empty text, and together they spell out the accumulated content |
| Orchestrator.ConsumeStream | src/truthseeker/infrastructure/llm/client.py:218-250 | the `async for chunk` loop yields exactly the text events and builds exactly the accumulated content and the reassembled slots |
| Orchestrator.KeptSpec | src/truthseeker/infrastructure/llm/client.py:258-272 | exactly the slots with both an id and a name are kept, each as its call; no call is kept exactly when no slot is complete |
| Orchestrator.KeepComplete | src/truthseeker/infrastructure/llm/client.py:259-270 | the loop that builds `formatted_tool_calls` keeps exactly the complete slots, in slot order |
| Orchestrator.StreamTurnEvents | src/truthseeker/infrastructure/llm/client.py:276-280 | the text of one streaming turn carries no metadata; a turn that stops normally ends with the one `("", metadata)` event, and one that raises yields no metadata |
| Orchestrator.StreamTurnTranscript | src/truthseeker/infrastructure/llm/client.py:252-348 | a turn that stops adds at most its reply, with no calls; one that continues adds its reply and exactly one tool message per complete call id |
| Orchestrator.StreamedBudget | src/truthseeker/infrastructure/llm/client.py:205-363 | at most `max_iterations` tool turns run, and the extra call without tools is made exactly when all of them ran |
| Orchestrator.StreamedEvents | src/truthseeker/infrastructure/llm/client.py:276-280 | a streaming run that ends normally yields metadata in its last event and in no other; one that raises yields none |
| Orchestrator.StreamedTranscript | src/truthseeker/infrastructure/llm/client.py:201-348 | after the caller's messages a streamed transcript is a series of turns, each reply followed by the answers to its complete calls |
| Orchestrator.StreamingTurn | src/truthseeker/infrastructure/llm/client.py:205-348 | the body of the streaming `while` loop computes exactly one streaming turn |
| Orchestrator.ChatCompletionWithToolsStreaming | src/truthseeker/infrastructure/llm/client.py:181-363 | the streaming loop yields exactly the streamed run's events and ends with exactly its exception, if any |
| FactChecker.Blocks | src/truthseeker/application/fact_checker.py:48-50 | one `"[Source: t]\nURL: u\nd\n"` block per result, in order |
| FactChecker.FormatSearchResultsSpec | src/truthseeker/application/fact_checker.py:39-50 | no results format to `""`, one result to its block, and each further result adds `"\n---\n"` and its block at the end |
| FactChecker.JoinSnoc | src/truthseeker/application/fact_checker.py:48 | `sep.join(parts + [p])` is `sep.join(parts) + sep + p` for non-empty `parts` |
| FactChecker.SearchToolDefinitionSpec | src/truthseeker/application/fact_checker.py:52-81 | the tool schema is a function definition exposing exactly one function, `brave_search`, with the parameters below |
| FactChecker.ParametersSpec | src/truthseeker/application/fact_checker.py:63-79 | the parameters are `query` and `count`, only `query` is required, and it is a string |
| FactChecker.CountSchemaSpec | src/truthseeker/application/fact_checker.py:70-76 | `count` is an integer from 1 to 10 with default 5 |
| FactChecker.CountKeys | src/truthseeker/application/fact_checker.py:70-76 | the keys of the `count` schema are distinct, so each lookup finds its own entry |
| FactChecker.GetAt | src/truthseeker/application/fact_checker.py:58-81 | a key not used earlier in a dict literal is found with its own value |
| FactChecker.UnexpectedKeyword | src/truthseeker/application/fact_checker.py:83-85 | the first keyword argument that is neither `query` nor `count`, and none exactly when there is no such keyword |
| FactChecker.BindSearchArgs | src/truthseeker/application/fact_checker.py:83-85 | binding `(query, count=5)` succeeds exactly for a mapping with a `query` and no other keyword than `count`, and then gives `query` and the count with default 5 |
| FactChecker.HandleBraveSearch | src/truthseeker/application/fact_checker.py:95-120 | once its arguments bind, `_handle_brave_search` never raises: it returns the JSON with `formatted`, `results` (title, url string, description) and `search_time`, or on any exception the JSON with only an `error` key |
| FactChecker.BraveSearchTime | src/truthseeker/application/fact_checker.py:114 | the tool loop harvests exactly the search's elapsed time from a successful search and nothing from a failed one |
| FactChecker.NonNegative | src/truthseeker/application/fact_checker.py:237 | `max(0.0, x)` is non-negative, at least `x`, and either `x` or 0.0 |
| FactChecker.FactCheckSpec | src/truthseeker/application/fact_checker.py:183-239 | `fact_check` always returns a valid result; its search time is the tool loop's (0.0 when the loop raised) and its analysis time is `max(0, total - search)`; an exception in the loop or the parse gives UNVERIFIABLE with "Error during analysis: <msg>" and no references; otherwise verdict, explanation, context and references are the parsed ones |
| FactChecker.AccumulateStream | src/truthseeker/application/fact_checker.py:186-202 | the streaming loop accumulates exactly the concatenation of all chunks, and keeps the last metadata seen |
| FactChecker.RunToolLoop | src/truthseeker/application/fact_checker.py:185-212 | streaming mode is used exactly when a stream callback is given; the loop hands back the reply text and search time, 0.0 without metadata |
| FactChecker.FactCheck | src/truthseeker/application/fact_checker.py:122-239 | `fact_check` computes exactly the result above |
| TagParser.SplitAllFront | utils/shared_utils.py:41 | `s.split(sep)` has at least one piece, is `[s]` when `sep` does not occur, and otherwise starts with the two pieces `split(sep, 1)` cuts at |
| TagParser.Section | utils/shared_utils.py:41-44 | a section fails only with the IndexError of `split(...)[1]` |
| TagParser.SectionMissing | utils/shared_utils.py:41-44 | a section raises IndexError exactly when its opening tag occurs nowhere |
| TagParser.SectionWellFormed | utils/shared_utils.py:41-44 | for `a <tag>body</tag> rest` with no other opening tag before the closing one ends and no closing tag inside `body`, the section is `body` stripped |
| TagParser.PieceAfterOpen | utils/shared_utils.py:41 | the piece after an opening tag runs up to the next opening tag, so at least as far as no opening tag starts |
| TagParser.CloseCut | utils/shared_utils.py:41 | `split('</tag>')[0]` of `body + '</tag>' + after` is `body` when no closing tag starts inside `body` |
| TagParser.OccursInSlice | utils/shared_utils.py:41-44 | an occurrence inside a slice is an occurrence in the whole response, shifted by the slice's start |
| TagParser.OccursShift | utils/shared_utils.py:41-44 | an occurrence in a suffix is exactly an occurrence in the whole response past the cut |
| TagParser.LineRef | utils/shared_utils.py:48-56 | a reference line gives at most one reference |
| TagParser.TitleUrl | utils/shared_utils.py:52-53 | the text after the number gives at most one title and url |
| TagParser.LineRefCases | utils/shared_utils.py:49-56 | a blank line or one without `". "` gives nothing; otherwise the rest after the number is split on `" - "` |
| TagParser.ShapeSplits | utils/shared_utils.py:51-52 | a line has a `". "` followed, not overlapping, by a `" - "` exactly when both splits find their separator |
| TagParser.LineRefKept | utils/shared_utils.py:48-56 | a line yields a reference exactly when it is not blank and has that shape; any other line is skipped, its ValueError caught |
| TagParser.LineRefParts | utils/shared_utils.py:51-53 | a kept reference's title is the text between the first `". "` and the first `" - "` after it, its url everything after that, neither trimmed |
| TagParser.ReferencesFromLines | utils/shared_utils.py:47-56 | at most one reference per line, each from some line, and when every line is kept the k-th reference is the k-th line's: line order is kept |
| TagParser.ParseSpec | utils/shared_utils.py:39-58 | `parse_response` raises IndexError exactly when one of the four opening tags is absent, and otherwise returns the four sections with the references parsed from the last |
| TagParser.ParseResponse | utils/shared_utils.py:39-58 | `parse_response` with its reference loop computes exactly the parse above |
| Sanitization.DropUnsafeSpec | src/truthseeker/utils/sanitization.py:26 | deleting `[\x00-\x1f<>]` leaves no such character, never lengthens, and leaves a string without them unchanged |
| Sanitization.DropUnsafeConcat | utils/sanitization.py:19 | the deletion works character by character: deleting from `a + b` is deleting from each, so the other characters keep their order |
| Sanitization.SanitizeQuery | src/truthseeker/utils/sanitization.py:22-27 | a non-`str` gives `""`, and the output is at most 500 characters |
| Sanitization.SanitizeQuerySafe | src/truthseeker/utils/sanitization.py:24-26 | the output contains no character in `\x00`-`\x1f` and no `<` or `>` |
| Sanitization.SanitizeQueryPrefix | src/truthseeker/utils/sanitization.py:24-27 | the output is the first 500 characters of the stripped input with those characters deleted, cut short only at the limit |
| Sanitization.SanitizeQueryKeepsClean | utils/sanitization.py:15-20 | a stripped query of at most 500 safe characters comes back unchanged |
| Sanitization.StripIdentity | utils/sanitization.py:17 | `strip` leaves a string with no whitespace at either end unchanged |
| Sanitization.SanitizeQueryUntrimmed | utils/sanitization.py:17-20 | as written, stripping before deleting can leave leading whitespace: `"\x01 a"` gives `" a"`, and sanitising that again gives `"a"` |
| Sanitization.SanitizeQueryTrimmed | utils/sanitization.py:9-14 | the corrected sanitiser's output is at most 500 characters |
| Sanitization.SanitizeQueryTrimmedSpec | utils/sanitization.py:9-20 | the corrected sanitiser's output has no unsafe character and no whitespace at either end, and sanitising it again gives it back |
| Sanitization.IsAllowedHref | src/truthseeker/utils/sanitization.py:39-45 | false for None or `""` and where `urlparse` raises; otherwise true exactly for the schemes http, https, mailto and none |
| Sanitization.ReplaceHref | utils/sanitization.py:75-81 | an allowed value becomes `href="v" target="_blank" rel="noopener noreferrer"`, any other `href="#"` |
| Sanitization.RewriteNoHref | src/truthseeker/utils/sanitization.py:99 | cleaned text with no `href="` passes through the rewrite unchanged |
| Sanitization.RewriteAttribute | src/truthseeker/utils/sanitization.py:93-99 | a whole `href="v"` attribute becomes the replacement for `v`, allowed or `#`, and the scan goes on after its closing quote |
| Sanitization.RewriteCopies | utils/sanitization.py:83 | a prefix in which no match starts is copied as it is |
| Sanitization.RewriteStep | utils/sanitization.py:83 | where no match starts, the substitution copies one character and moves on |
| Sanitization.SanitizeHtml | utils/sanitization.py:42-43 | a non-`str` or empty content gives `""` |
| Sanitization.SanitizeHtmlNoLinks | src/truthseeker/utils/sanitization.py:85-101 | cleaned HTML without any `href="` is returned as `bleach` left it |
| WebSearchAgent.KeepQueryCharsSpec | web_search_agent.py:84 | `re.sub(r'[^\w\s-]', '', q)` never lengthens, leaves only word, whitespace and `-` characters, and leaves a query made only of them unchanged |
| WebSearchAgent.SanitizeAgentQuery | web_search_agent.py:81-85 | the agent's sanitised query is at most 500 characters |
| WebSearchAgent.SanitizeAgentQuerySpec | web_search_agent.py:81-85 | the output holds only `[\w\s-]` characters and is a prefix of the filtered query; a query already of that form within the limit comes back as it is, whitespace included, so sanitising twice is sanitising once |
| WebSearchAgent.ResultBlock | web_search_agent.py:139-153 | one web result gives exactly one formatted block, and raises exactly when it is not a dict |
| WebSearchAgent.ResultBlocksSpec | web_search_agent.py:139-153 | the loop raises exactly when some web result is not a dict; otherwise one block per result, in order |
| WebSearchAgent.SearchWebSpec | web_search_agent.py:102-155 | a request is made exactly when a key is set, and then for `"fact check "` plus the sanitised query; no key gives the test text; a failed request gives the error text; it raises exactly when the results cannot be read or one is not a dict |
| WebSearchAgent.SearchWeb | web_search_agent.py:100-155 | the tool with its loops written out returns the request and output that the outcome function gives |
| WebSearchAgent.DirectItem | web_search_agent.py:212-218 | one web result gives exactly one dict, and raises exactly when it is not a dict |
| WebSearchAgent.DirectItemsSpec | web_search_agent.py:208-220 | one dict per web result in order, with title, description and url taken from the result or defaulted to `"No title"`, `"No description available"` and `"#"`, and the shared query time; raises exactly when some result is not a dict |
| WebSearchAgent.SearchWebDirectSpec | web_search_agent.py:171-220 | no key gives exactly the one test item and no request; otherwise the request is the query as given; a failed request gives exactly the one error item; otherwise the mapped results |
| WebSearchAgent.SearchWebDirect | web_search_agent.py:158-220 | the direct search with its loop written out returns the request and output that the outcome function gives |
| WebSearchAgent.StrictLineRefSpec | web_search_agent.py:314-318 | a reference line in `main` raises exactly when it is not blank and lacks the `n. title - url` shape, and otherwise keeps what `parse_response` keeps |
| WebSearchAgent.StrictReferencesLines | web_search_agent.py:313-318 | the reference loop of `main` raises exactly when some line is non-blank and malformed; otherwise it builds the same list as `parse_response` |
| WebSearchAgent.MainAgreesWithParse | web_search_agent.py:305-318 | when `main` gets through the parse it has what `parse_response` returns; when `parse_response` raises, `main` raises the same |
| WebSearchAgent.SplitReferences | web_search_agent.py:313-318 | the loop written out stops at the first malformed line and equals the fold it is specified by |
| WebSearchAgent.MainParse | web_search_agent.py:306-318 | the four section extractions, then the reference loop, giving the outcome of the specification function |
| Text.TrimStartSpec | utils/shared_utils.py:41 | `lstrip` drops exactly a whitespace-only prefix and leaves a suffix not starting with whitespace |
| Text.TrimEndSpec | utils/shared_utils.py:41 | `rstrip` drops exactly a whitespace-only suffix and leaves a prefix not ending with whitespace |
| Text.StripSpec | utils/shared_utils.py:41-44 | `strip` leaves the middle of the string, drops only whitespace at both ends, has none left at either end, and is empty exactly for a blank string |
| Text.StrippedNotBlank | utils/shared_utils.py:49 | a non-empty stripped string is not blank |
| Text.StripLower | src/truthseeker/infrastructure/search/brave_client.py:79 | stripping then lower-casing is lower-casing then stripping |
| Text.StripSurrounding | src/truthseeker/search/client.py:55 | whitespace added around a query does not change what `strip` leaves |
| Text.ReplaceCharRemoves | src/truthseeker/infrastructure/llm/parser.py:85 | after a one-character replace with a different character, none of the old character is left |
| Text.IndexOfFromSpec | src/truthseeker/llm/parser.py:41-66 | the search returns the first occurrence at or after the start, and None exactly when there is none |
| Text.ContainsIff | src/truthseeker/llm/parser.py:41-66 | `sub in s` holds exactly when `sub` occurs somewhere in `s` |
| Text.SplitOnceSpec | utils/shared_utils.py:51-52 | `split(sep, 1)` gives `(a, b)` exactly when `s == a + sep + b` and `sep` does not occur before the end of `a` |
| Text.SplitOnceNone | utils/shared_utils.py:51-55 | the unpacking fails exactly when the separator does not occur |
| Text.SplitAllNonEmpty | utils/shared_utils.py:41 | `split` always has a first piece |
| Text.FirstCut | utils/shared_utils.py:41 | at the first occurrence, the string is the text before, the separator and the rest, and the text before holds no separator |
| Text.JoinSplitAll | utils/shared_utils.py:48 | `sep.join(s.split(sep)) == s` |
| Text.SplitAllPieces | utils/shared_utils.py:48 | no piece of `s.split(sep)` contains the separator |
| Text.JoinCons | src/truthseeker/application/fact_checker.py:48 | joining a head onto at least one more piece puts one separator between them |
| Text.SplitLinesSpec | src/truthseeker/llm/parser.py:101 | no line from `splitlines` contains a line break, and there are no more lines than characters |
| Text.NatToString | src/truthseeker/infrastructure/search/brave_client.py:79 | `str(n)` is a non-empty run of decimal digits, a single digit exactly below ten |
| Text.IntToStringChars | src/truthseeker/search/client.py:55 | `str(i)` is made of digits and an optional leading minus sign |
| Text.IntToStringInjective | src/truthseeker/infrastructure/search/brave_client.py:79 | distinct integers print differently |
| Folds.FlatMapConcat | src/truthseeker/infrastructure/llm/parser.py:103-132 | folding a concatenation is folding each part in order |
| Folds.FlatMapAtMostOne | utils/shared_utils.py:47-56 | a loop appending at most one item per input gives at most one result per input, each from some input, and exactly the inputs' items in order when each yields one |
| Folds.TryFlatMapFailure | web_search_agent.py:313-318 | a loop that may raise raises exactly when some element raises |
| Folds.TryFlatMapConcat | web_search_agent.py:313-318 | without an error, folding a concatenation is folding each part in order |
| Folds.TryFlatMapStops | web_search_agent.py:313-318 | once a prefix raises, the whole loop has that prefix's error |
| Folds.TryFlatMapOnes | web_search_agent.py:139-145 | when each element yields one value, a loop without an error has the k-th element's value at position k |

## Left out

- Network and vendor calls: `httpx` GETs, `AsyncOpenAI` completions and stream iteration are outside the model. Their outcomes are parameters.
- `async`/`await`: every coroutine runs to completion in sequence.
- The `asyncio` debounce task: it runs when the caller calls `RunPendingWrite`. `asyncio.sleep` is left out.
- Event-loop presence: it is a boolean parameter.
- BraveClient.BraveSearchClient.Search: one search uses two clock readings. `start` is both the start time (`src/truthseeker/infrastructure/search/brave_client.py:199`) and the lookup's `time.time()` (:124). `finish` is the entry's timestamp (:134), the schedule's `current_time` (:143) and the end of `query_time` (:242). So a stored `ts` is always exactly `start + query_time`. In `ScheduleCacheWrite` and `RunPendingWrite`, the last-write time after a write is the `now` of the step rather than a reading taken after `_save_cache_file()` returns (:161, :173). The debounce window in `ScheduleDebounced` and `DebounceDropsWrite` therefore starts earlier than in the program, by however long the write takes.
- LegacyClient.LegacySearchClient.Search: models one attempt only. The `@retry(stop=stop_after_attempt(3), reraise=True)` with exponential wait around the legacy `search` (`src/truthseeker/search/client.py:115-120`) is not modelled. It would repeat the attempt in the same way as `BraveClient.BraveSearchClient.SearchWithRetry` does for the current client.
- BraveClient.BraveSearchClient.SearchWithRetry: states only the attempt bound of the `tenacity` decorator (at most three attempts, the last error re-raised). The wait and jitter between attempts are not modelled, because they only affect timing.
- File input and output: reading is a text parameter. Every write is recorded as a snapshot of the cache, whatever its outcome. A failed write's `OSError` is swallowed and leaves the same later state as a successful one (`src/truthseeker/infrastructure/search/brave_client.py:113-116`, `src/truthseeker/infrastructure/search/brave_client.py:157-161`), so the outcome is not modelled.
- `json.dumps` of the cache file and of tool results: it is `Library.dumps`, so the exact text is not modelled.
- JSON decoding internals: `raw_decode` is abstract. `json.loads` is modelled on top of it: the BOM check, surrounding whitespace and "Extra data".
- CacheKeyIgnoresCaseAndSpace: `.lower()` is modelled for the ASCII letters only. Python also lower-cases non-ASCII letters, so `"CAFÉ"` and `"café"` share a key in the source but not in `SearchCache.CacheKey`. Unicode case tables, including mappings that change a string's length, are outside the model.
- AliasMapIdentity: `.upper()` in `Reconciler.NormalizeVerdict` and the legacy parser is modelled for the ASCII letters only. Python maps some non-ASCII letters onto ASCII ones, so the verdicts `"falſe"` and `"partıally true"` become FALSE and PARTIALLY_TRUE in the source but UNVERIFIABLE in the model. The reason is the same.
- NewSearchResult: pydantic's parsing of a numeric string for `query_time` is taken to be `float(str)` (`Library.parseFloat`).
- A `RecursionError` from `raw_decode` or `json.loads` on deeply nested input is not modelled: the model's decoder returns a value or a decode error. In the source this error escapes the scan's `except ValueError` and the `except json.JSONDecodeError` (`src/truthseeker/infrastructure/llm/parser.py:65`, `src/truthseeker/infrastructure/llm/parser.py:161`), so `parse` would raise. The cache load's `except Exception` would catch it and end the load.
- Floats are `real`. Rounding, `inf`/`nan` and the `OverflowError` of `float(...)` are not modelled. `float(str)` is `Library.parseFloat`.
- The `:.2f` formatting and `str(...)` of a dict or float are supplied functions. Only where they are used is modelled.
- pydantic `HttpUrl`, `bleach.clean` and `urlparse`: they are supplied functions. Only their outcome, a normalised URL, a cleaned text, a scheme or a failure, is modelled.
- The exact wording of CPython's `TypeError` and `AttributeError` messages: these are fixed texts in the model.
- The outermost "Unexpected error" branch of the reconciler cannot be reached in the model, because every step below it returns a result or a modelled exception. It is therefore not represented.
- Orchestrator: a streamed tool-call delta with a negative index is not modelled. Indexes are natural numbers.
- Orchestrator: the tool list sent to the model is passed through unchanged and not inspected. An empty `tool_calls` list and an absent key are the same message.
- Orchestrator: status callbacks and the `stream_callback` argument are represented only by whether a callback is given.
- Logging, `logfire` spans and warnings are not modelled.
- The user interfaces are not part of this model: `src/truthseeker/interfaces/streamlit/`, `streamlit_ui.py`, `src/truthseeker/interfaces/cli/cli.py`, `format_output` in `utils/shared_utils.py`, `format_terminal_output` in `web_search_agent.py` and the read-print loop of `main`.
- PDF export (`src/truthseeker/utils/pdf.py`, `utils/generate_pdf.py`) is not part of this model.
- Plumbing and configuration are not part of this model: the HTTP client factory, `settings.py`, the loader and tool wrappers, the dataclasses in `models/`, the re-export modules and `main.py`.

## Findings

| source | as written | input that shows it | evidently intended | confidence | as-written member | corrected member |
|---|---|---|---|---|---|---|
| utils/sanitization.py:17-20 | the query is stripped before the control characters are deleted, so whitespace behind a control character survives at the front | `"\x01 a"` gives `" a"`, and sanitising `" a"` again gives `"a"` | the documented "trims": the output has no surrounding whitespace and sanitising is idempotent | low, not executed | Sanitization.SanitizeQueryUntrimmed | Sanitization.SanitizeQueryTrimmedSpec |
