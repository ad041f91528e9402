# Zyra yt-dlp API: the data shaping around yt-dlp and the recommender graph

Zyra is a small music service. It asks yt-dlp for YouTube search results and stream information. It asks a language model, which can call a web search tool, for song recommendations. Most of the repository is glue around those libraries. This project models the logic the repository itself owns:

- **Audio-stream selection** (`parse_stream_url`): a top-level `url` in yt-dlp's info dictionary wins. Otherwise the `url` of the first format that has audio and no video is taken. Otherwise the result is None.
- **Search-entry normalisation**, in two variants. The single-query parser defaults to `'N/A'`, `''` and `0`. The batch parser reads `duration` and the last `thumbnails` entry, and lets None through to the record. Both skip falsy entries and build the watch URL from the entry's `id`.
- **The batch fetcher** (`fetch_youtube_data`): it gathers every query's `entries` in query order, asking an abstract extractor for `"ytsearch1:" + query`. `search_multiple_songs` composes it with the batch parser.
- **The recommender**: a graph whose `llm_node` and `tools` node alternate over a message log that only grows, until the model answers without asking for tools. The last message is then split on `"\n"`, and any exception gives `[]`.

The files:

- `py_values.dfy` (module `PyValues`): the Python values yt-dlp returns. It covers truthiness, `dict.get`, iteration, `int(...)`, `str(...)` inside an f-string, and the exceptions these raise. A dictionary is kept as its bindings in insertion order, so that a present `None` differs from an absent key and iteration follows Python's order.
- `output_schema.dfy` (module `OutputSchema`): the `SongSearchResult` record. Building one checks every field's type, as pydantic does.
- `entry_lists.dfy` (module `EntryLists`): what both parse loops share. They skip falsy entries, map the others in order, and stop at the first exception. It also holds the lemmas about that shape.
- `stream_data.dfy` (module `StreamData`): `parse_stream_url`, as a recursive first-match search.
- `search_result.dfy` (module `SearchResult`): the single-query `parse_search_results`, as a loop method.
- `batch_search.dfy` (module `BatchSearch`): the batch fetch loop, the batch parse loop and their composition.
- `ai_recommendation.dfy` (module `AiRecommendation`): the graph as a step function with fuel, the run as a loop method, and `recommender_function`.

The two parse loops, the batch fetch loop and the graph run are methods with a `while` or `for` loop. Each such method is proved equal to a recursive specification function, and the lemmas state what the source promises about that function. The format loop of `parse_stream_url` returns from inside its body, and is modelled as the recursive function `FirstAudioOnly`. yt-dlp's `extract_info`, the language model and the tool node are oracles: arbitrary functions passed in as parameters. Their exceptions are values of the `PyError` datatype.

An empty final answer gives `[""]`, not `[]`. `"".split("\n")` is `[""]`, and only an exception leads to the empty list.

## Model

| member | source | states |
|---|---|---|
| `PyValues.Iterate` | src/batch_search.py:35 | Iterating a list gives exactly its items, a string exactly its characters, and a dictionary exactly its keys in insertion order. None, booleans and integers raise TypeError. The result is empty exactly when the value is falsy. |
| `PyValues.LastItem` | src/batch_search.py:60 | `v[-1]` on a truthy list or string is its last item. On a dictionary it raises KeyError, since its keys are strings, and on a boolean or integer TypeError. |
| `PyValues.ParseInt` | src/search_result.py:41 | `int(s)` of a string succeeds exactly when, after stripping whitespace, it is a digit string (digits, with single underscores allowed between them) with an optional `+` or `-` sign. It then gives the number the digits denote, negated after `-`. Any other string raises ValueError. |
| `PyValues.IntOf` | src/batch_search.py:56 | `int(v)` keeps an integer, maps `True`/`False` to 1/0, parses a string, and raises TypeError on None, a list or a dictionary. |
| `PyValues.Format` | src/search_result.py:39 | `str(v)` inside an f-string: None gives `None`, booleans `True`/`False`, a string itself. A non-negative integer gives the canonical digit string denoting it: plain digits, no underscore, no leading zero. A negative one gives `-` followed by the canonical digits of its magnitude. |
| `PyValues.CanonicalUnique` | src/search_result.py:39 | A number has only one canonical digit string, so the integer cases of `Format` fix the rendering, and with it the watch URL of an integer `id`. |
| `PyValues.Truthy` | src/search_result.py:34 | The falsy values are exactly None, `False`, `0`, the empty string, the empty list and the empty dictionary. |
| `PyValues.HasKeyIterates` | src/stream_data.py:24 | `key in d` holds exactly when iterating the dictionary yields the key. |
| `PyValues.Get` | src/stream_data.py:27 | `d.get(key, default)` is the default when the key is absent. Otherwise it is the value bound to the key, at its first binding. |
| `PyValues.Subscript` | src/batch_search.py:60 | `v['url']` succeeds only on a dictionary holding the key, and gives the bound value. |
| `PyValues.ParseIntDigits` | src/search_result.py:41 | `int` reads a digit string, and the same string after a minus sign, as the number it denotes and its negation. |
| `PyValues.IntOfFormat` | src/batch_search.py:56 | `int(str(i)) == i` for every integer `i`: the integer conversion reads back an integer's rendering. |
| `StreamData.IsAudioOnly` | src/stream_data.py:29 | A format matches exactly when its `acodec` is not the string `'none'` (absent counts as not `'none'`) and its `vcodec` is the string `'none'`. |
| `StreamData.FirstAudioOnly` | src/stream_data.py:27-32 | The only exception the format loop can raise is AttributeError. |
| `StreamData.ParseStreamUrl` | src/stream_data.py:20-32 | A present top-level `url` is returned whatever `formats` holds. Without `url`, a list in `formats` gives the format loop's result, a None `formats` raises TypeError, and no `formats` gives None. |
| `StreamData.FirstMatchWins` | src/stream_data.py:27-30 | When format `k` is the first audio-only one, the result is its `url`, or None when it has none. Later matches are ignored. |
| `StreamData.AllSkippedGivesNone` | src/stream_data.py:27-32 | When every format is a dictionary that is not audio-only, the result is None. |
| `StreamData.FirstAudioOnlyOkCases` | src/stream_data.py:27-32 | A successful search returned either through a first match or by falling through with None. |
| `StreamData.FirstAudioOnlyIsFirstMatch` | src/stream_data.py:27-32 | In both directions: the loop returns `v` exactly when `v` is the `url` of the first audio-only format, or when no format matched and `v` is None. |
| `StreamData.FirstAudioOnlyFails` | src/stream_data.py:27-29 | In both directions: the loop fails exactly when it meets a non-dictionary before any audio-only format. |
| `StreamData.FirstAudioOnlyFromFormats` | src/stream_data.py:27-30 | A non-None result of the loop is the bound `url` of some dictionary in the formats list. |
| `StreamData.ParseStreamUrlNoInvention` | src/stream_data.py:24-32 | A non-None result is `info['url']` or the `url` of some format in `info['formats']`. No value is invented. |
| `StreamData.MissingCodecs` | src/stream_data.py:29 | A format without `acodec` counts as having audio. A format without `vcodec` never matches. |
| `OutputSchema.NewSongSearchResult` | schema/ouput_schema.py:3-8 | The record is built exactly when every field has its declared type, and carries those values. Otherwise a ValidationError lists the fields, and `thumbnail` and `duration` are listed exactly when they are mistyped. |
| `EntryLists.ParseEach` | src/search_result.py:32-44 | The shared parse loop, as a function. It succeeds exactly when every truthy entry parses, and then gives one record per truthy entry. |
| `EntryLists.Kept` | src/search_result.py:33-34 | No more entries are kept than were given. |
| `EntryLists.KeptMembers` | src/search_result.py:33-34 | The kept entries are exactly the truthy ones. |
| `EntryLists.KeptAppend` | src/batch_search.py:51-53 | Skipping falsy entries splits over concatenation and keeps order. |
| `EntryLists.ParseEachValues` | src/search_result.py:32-44 | On success there is exactly one record per truthy entry, in input order, each parsed from its own entry. |
| `EntryLists.ParseEachFailsFirst` | src/search_result.py:33-43 | A failure is the exception of the first truthy entry that does not parse. Every truthy entry before it parsed. |
| `EntryLists.ParseEachSucceeds` | src/search_result.py:33-43 | The loop succeeds exactly when every truthy entry parses. |
| `EntryLists.ParseEachAppend` | src/batch_search.py:50-71 | Parsing `a + b` is parsing `a` followed by parsing `b`. The first exception wins. |
| `SearchResult.WatchUrl` | src/search_result.py:39 | The URL starts with the watch prefix. A missing id gives `...v=None`, and a string id is appended as is. |
| `SearchResult.ParseEntry` | src/search_result.py:36-42 | A non-dictionary raises AttributeError. `int(...)` of `duration` runs before validation, and its exception is the result: TypeError for a present None, ValueError for a non-numeric string. After that, a failure is the record's ValidationError, which names `thumbnail` exactly when it is not a string and never names `duration`. A record is built exactly when title, uploader and thumbnail are absent or strings and `duration` converts. Its fields hold the entry's values or the `'N/A'`, `''` and `0` defaults for absent keys. |
| `SearchResult.ParseSearchResults` | src/search_result.py:27-44 | The loop that appends a record per truthy entry computes `ParseEach(ParseEntry, entries)`. |
| `SearchResult.ParseSearchResultsSpec` | src/search_result.py:33-44 | On success there is one record per truthy entry, in order. A truthy entry whose `duration` is None fails the whole call. |
| `BatchSearch.SearchQuery` | src/batch_search.py:31 | The search string is `ytsearch1:` followed by the query. |
| `BatchSearch.EntriesOf` | src/batch_search.py:34-35 | A None or empty result, or one without `entries`, contributes nothing. A list of entries contributes its items, and a None `entries` raises TypeError. |
| `BatchSearch.FetchYoutubeData` | src/batch_search.py:26-42 | The loop that extends `all_entries` query by query computes `FetchAll(extract, queries)`: every query's entries, in query order, or the first exception. |
| `BatchSearch.QueryEntries` | src/batch_search.py:31-35 | One search asks the extractor for `ytsearch1:` + query. The extractor's exception propagates, a None result gives no entries, and a list in `entries` gives its items. The only other exception is TypeError. |
| `BatchSearch.FetchAll` | src/batch_search.py:26-42 | The fetch succeeds exactly when every query's search succeeds. A failure is the exception of one of the queries. |
| `BatchSearch.FetchAllAppend` | src/batch_search.py:30-35 | Fetching `a + b` gives the entries of `a` followed by those of `b`. The first exception wins. |
| `BatchSearch.FetchAllSingle` | src/batch_search.py:30-35 | A single query contributes exactly what its own search yields. |
| `BatchSearch.DurationOf` | src/batch_search.py:55-56 | `duration` is None exactly when the key is absent or None. Otherwise it is the integer conversion of the value, and when that conversion raises, its exception is raised. |
| `BatchSearch.ThumbnailOf` | src/batch_search.py:58-60 | Falsy `thumbnails` give None. A non-empty list gives the `url` of its last element. |
| `BatchSearch.ParseEntry` | src/batch_search.py:55-70 | A non-dictionary raises AttributeError. `int(...)` of `duration` raises first, then the `thumbnails` lookup, and either exception is the result. Past those, a failure is the record's ValidationError, which names `duration` exactly when it is not an integer (a missing or None `duration`) and `thumbnail` exactly when it is not a string (falsy `thumbnails`). A record is built exactly when the fields have their types, and it carries the entry's values. |
| `BatchSearch.ParseSearchResults` | src/batch_search.py:44-71 | The loop with `continue` computes `ParseEach(ParseEntry, entries)`. |
| `BatchSearch.SearchMultipleSongs` | src/batch_search.py:73-81 | Equals `SearchAll(extract, queries)`: parsing the result of fetching, or the fetch's exception. |
| `BatchSearch.SearchAll` | src/batch_search.py:73-81 | The fetch runs to the end before any parse, so its exception is the result. On success there is one record per truthy fetched entry. |
| `BatchSearch.SearchAllAppend` | src/batch_search.py:73-81 | Every fetch runs before any parse. When both halves fetch, the records of `a + b` are those of `a` followed by those of `b`. A failed fetch in `b` wins over a parse failure in `a`. |
| `BatchSearch.SearchAllRecords` | src/batch_search.py:50-81 | On success there is one record per truthy fetched entry, in order, and every truthy fetched entry is a dictionary with a `duration` key and truthy `thumbnails`. |
| `AiRecommendation.Initial` | src/ai_recommendation.py:52 | The run starts at `llm_node`, the target of the START edge. Its log is the input `{"messages": [prompt]}` passed through the reducer into an empty state. |
| `AiRecommendation.AddMessages` | src/ai_recommendation.py:14-15 | The `operator.add` reducer: the old messages followed by the update. |
| `AiRecommendation.RouteAfterModel` | src/ai_recommendation.py:53-60 | After `llm_node` the run goes to END exactly when the reply asks for no tools, and never back to `llm_node`. |
| `AiRecommendation.Step` | src/ai_recommendation.py:39-61 | The log only grows by appending. A successful `tools` step appends exactly the tool node's messages and leads back to `llm_node`. `llm_node` appends exactly the model's reply and goes to END exactly when that reply has no tool calls. END is reached only that way. A failing node's exception is the step's exception. |
| `AiRecommendation.Invoke` | src/ai_recommendation.py:52-63 | The loop that steps the compiled graph until END computes `RunFrom(model, tools, Initial(prompt), fuel)`. |
| `AiRecommendation.RunFrom` | src/ai_recommendation.py:39-63 | A run at END returns its log. A run not at END with no fuel left raises the recursion-limit error. A successful run's final history extends the one it started from. |
| `AiRecommendation.RunFromEndsWithAnswer` | src/ai_recommendation.py:53-60 | A run that ends does so right after a model reply with no tool calls. That reply is the last message, answering everything before it. |
| `AiRecommendation.RunFromFuel` | src/ai_recommendation.py:47-63 | More fuel never changes the outcome of a run that did not run out. |
| `AiRecommendation.FirstStepIsModel` | src/ai_recommendation.py:52 | The run starts at `llm_node` on the prompt alone. A model failing there fails the run, and a first answer without tools ends it after that one call. |
| `AiRecommendation.SplitLines` | src/ai_recommendation.py:95 | `split("\n")` always gives at least one line. |
| `AiRecommendation.JoinSplitLines` | src/ai_recommendation.py:95 | Joining the lines with `"\n"` gives back the text. |
| `AiRecommendation.SplitLinesShape` | src/ai_recommendation.py:95 | No line contains `"\n"`, and there is one more line than there are newlines. |
| `AiRecommendation.SplitJoinLines` | src/ai_recommendation.py:95 | Splitting undoes joining, for a non-empty list of lines without `"\n"`. |
| `AiRecommendation.Recommendations` | src/ai_recommendation.py:92-99 | The list is empty exactly when the run raised or left no messages. Otherwise joining it with `"\n"` gives back the content of the last message, and no line contains `"\n"`. |
| `AiRecommendation.RecommenderFunction` | src/ai_recommendation.py:89-101 | The result is the split of the last message of the run, or `[]` when the run raised. |
| `AiRecommendation.RecommendationsSpec` | src/ai_recommendation.py:92-101 | Every exception gives `[]`. A finished run gives lines that join to the model's final tool-free answer. None of them contains `"\n"`, and there is one more line than newlines in that answer. |
| `AiRecommendation.ScriptedRun` | src/ai_recommendation.py:39-61 | With a model that searches once and then answers, and a tool node that answers the call, the history after three steps is prompt, tool request, tool result, answer. |
| `AiRecommendation.OneToolRoundTrip` | src/ai_recommendation.py:65-101 | That run gives the caller the three titles of the answer, one per line. |

## Left out

- Network I/O is not modelled: `fetch_stream_data`, the single-query `fetch_youtube_data` and the yt-dlp options. yt-dlp's `extract_info` is an oracle that returns an info dictionary, None, or an exception. Because it is a function of the search string, a query repeated within one batch gets the same answer each time, where the real network call may answer differently.
- Library behaviour is not modelled: the `web_search` tool and its DuckDuckGo backend, the Gemini client, and `ToolNode` (including tool-call id matching and turning tool errors into messages). The model and the tool node are oracles over the message history. `tools_condition` is modelled by `RouteAfterModel`: it checks `messages[-1].tool_calls`, and the model reads that as whether the reply just appended has tool calls.
- The prompt text and its request for exactly ten songs are not modelled: the prompt is a parameter, and the code does not check the count.
- AiRecommendation.RunFrom: replaces langgraph's own recursion limit with a fuel bound of one unit per node run. Running out is an exception, so it gives `[]`.
- Message content that is a list of parts rather than a string is not modelled: `Message.content` is a string.
- `app.py`, the HTTP layer, is not modelled. Note that the 404 raised inside `try` at app.py:61 and app.py:74 is caught by `except Exception` at app.py:65 and app.py:78 and becomes a 500.
- Float durations and `int()` truncation of floats are not modelled: durations are integers, booleans or strings.
- PyValues.ParseIntDigits: does not model CPython's default limit on integer/string conversion, which raises ValueError for more than 4300 digits. The model reads digit strings of any length.
- PyValues.IntOfFormat: does not model that same 4300-digit limit, which makes `str(i)` raise for larger integers. The round trip is proved for every integer.
- PyValues.ParseInt: does not model the 4300-digit limit either. Around the number it accepts only the ten ASCII characters Python counts as whitespace (space, `\t\n\v\f\r` and `\x1c`-`\x1f`), and only ASCII digits. Python also accepts Unicode whitespace and digits.
- PyValues.Format: does not model the 4300-digit limit. It renders a list or dictionary as a fixed placeholder rather than its Python repr. It is reachable only through an `id` that is a list or dictionary.
- OutputSchema.NewSongSearchResult: a `str` field takes only a string, as in pydantic 2's default lax mode. For the `int` field `duration` the model accepts only an integer, while lax mode also accepts numeric strings, booleans and whole floats; this does not matter here because both callers pass `int(...)` or None, so only integers and None reach `duration`. Pydantic 1's coercions (an integer turned into a string, for instance) are not modelled.
- Logging with `print` and `load_dotenv` are left out as they change no result.
