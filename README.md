# Movies Buddy core, modelled in Dafny

Movies Buddy is a chat agent that answers questions about films and series.
This project models the parts of it that are its own logic rather than glue
around third-party runtimes:

- **The TVDB search pipeline** (`movies_buddy/tools/mcp_servers/tvdb/helper.py`), in four parts:
  - the client, which stays unauthenticated until a login response carries a token, then sends searches with a `Bearer` header and only the parameters that are not `None`;
  - the credential check;
  - the search tool, which validates and builds the query parameters;
  - the formatter, which turns a loosely shaped search response into one numbered text report.
- **The agent-side helpers** (`movies_buddy/agents/movies_buddy_agent.py`):
  - the ordered API-key lookup;
  - the configuration defaults and the tracing flag;
  - extraction of the reply text from the last chat message;
  - one agent turn: building the message list and mapping the runtime's outcome to the conversation and reply returned.

Python values that come from JSON are the datatype `PyValue.Json`. A dict is
an ordered list of entries, and lookup takes the first entry with the key.
Dict values are taken to have distinct keys, as decoded JSON objects and
keyword arguments do; for a list with a repeated key the first entry wins,
whereas Python's JSON decoder keeps the last.
Wherever Python would raise on a value of the wrong shape (`.get` on a
non-dict, `.title()` on a non-str, `len` of a number, a non-str in
`"\n".join`), the model returns an error result. It does not exclude that input
with a precondition.

The network and the agents runtime are inputs:

- an HTTP exchange is `TvdbClient.HttpOutcome`: either a response with its decoded body, or a failure;
- an agent run is a function from the message list to `MoviesBuddyAgent.RunOutcome`: completed, timed out, or failed. `MoviesBuddyAgent.Ending` maps that outcome to the reply: the runtime's conversation with the extracted text, or a fixed text.

The process environment, the dotenv-loaded environment and the environment
seen at import time are explicit maps.

Modules, one per file:

- `wrappers.dfy`: `Option` and `Result`.
- `py_text.dfy`: the Python string operations used. These are `strip` (with Python's whitespace set), ASCII `lower` and `title`, `join`, and `str(int)` with its read-back.
- `py_value.dfy`: the `Json` values, truthiness, `dict.get`, and `str()`/`repr()`.
- `tvdb_format.dfy`: `format_search_results` and `_format_item`.
- `tvdb_client.dfy`: `TVDBClient` as a class with a mutable token, and `load_tvdb_credentials`.
- `tvdb_search.dfy`: `TVDBSearchTool`.
- `agent.dfy`: `_resolve_api_key`, the configuration read by `create_movies_buddy_agent`, `_extract_final_output`, and `run_movies_buddy_agent`.

Behaviour of the code a reader might not expect:

- The content type is sent lower-cased, whether or not it is a known type.
- In a list content, a text part whose text is `None` is dropped before the join, like an empty one.
- A company given as whitespace only is truthy. It is therefore sent, stripped to the empty string, rather than omitted.
- The token check is on truthiness: a login body whose token is `0` or `""` fails authentication.

## Model

| member | source | states |
|---|---|---|
| TvdbFormat.DataOf | movies_buddy/tools/mcp_servers/tvdb/helper.py:121 | a falsy response has no data; a truthy response that is not a dict raises |
| TvdbFormat.NoResultsIff | movies_buddy/tools/mcp_servers/tvdb/helper.py:121-123 | the report is exactly "No results found for the search query." if and only if the response is empty/None or its "data" is absent or falsy |
| TvdbFormat.FormatSearchResults | movies_buddy/tools/mcp_servers/tvdb/helper.py:119-129 | the loop that extends the line list record by record returns the specified report (or the error) for every response |
| TvdbFormat.ExtendWithBlocks | movies_buddy/tools/mcp_servers/tvdb/helper.py:125-127 | appending each record's block in turn, numbered from 1, gives the head followed by all blocks, and fails when any record fails |
| TvdbFormat.ReportOfList | movies_buddy/tools/mcp_servers/tvdb/helper.py:125-129 | a non-empty data list is reported as the count line followed by all records' lines, joined by newlines, or fails with the records |
| TvdbFormat.ReportOfRecords | movies_buddy/tools/mcp_servers/tvdb/helper.py:125-129 | a report on records is "Found N results:" with N the number of records, a blank line, then the blocks joined by newlines |
| TvdbFormat.ReportOfWellShaped | movies_buddy/tools/mcp_servers/tvdb/helper.py:119-158 | a response whose data is a non-empty list of well-shaped records always formats, as "Found N results:", a blank line, then the blocks |
| TvdbFormat.BlocksByOkIff | movies_buddy/tools/mcp_servers/tvdb/helper.py:126-127 | formatting the records succeeds exactly when every record, numbered k + 1 for position k, can be formatted |
| TvdbFormat.BlocksPrefixFails | movies_buddy/tools/mcp_servers/tvdb/helper.py:126-127 | once one record fails, the whole report fails (the exception ends the loop) |
| TvdbFormat.BlocksByPrefix | movies_buddy/tools/mcp_servers/tvdb/helper.py:126-127 | the blocks of the first n records are a prefix of the blocks of all records, so input order is kept |
| TvdbFormat.BlockAt | movies_buddy/tools/mcp_servers/tvdb/helper.py:126-138 | record k's block follows the blocks of the records before it, and its first line starts with "k+1. **" |
| TvdbFormat.BlocksLength | movies_buddy/tools/mcp_servers/tvdb/helper.py:126-158 | N records yield between 2N and 5N lines |
| TvdbFormat.FormatItem | movies_buddy/tools/mcp_servers/tvdb/helper.py:132-158 | a record that is not a dict raises; a formatted record has between two and five lines |
| TvdbFormat.FormatItemOk | movies_buddy/tools/mcp_servers/tvdb/helper.py:132-158 | a dict record formats whenever its type is absent or a str, its overview is falsy or a str, and its companies and genres are falsy or lists whose first 3 or 5 entries print; missing fields are never an error |
| TvdbFormat.EmptyRecord | movies_buddy/tools/mcp_servers/tvdb/helper.py:133-139 | a record with no fields formats as the header with name, type and year "N/A" and the line "   - TVDB ID: N/A", nothing more |
| TvdbFormat.ItemBlock | movies_buddy/tools/mcp_servers/tvdb/helper.py:132-158 | a block is the header, the ID line, then the overview, companies and genres lines in that order, each present exactly when its field is truthy |
| TvdbFormat.HeaderShows | movies_buddy/tools/mcp_servers/tvdb/helper.py:133-138 | the header is "{i}. **{name}** ({Type}, {year})" with the type title-cased and each field "N/A" when absent |
| TvdbFormat.TitleNotAvailable | movies_buddy/tools/mcp_servers/tvdb/helper.py:134 | the default type "N/A" is unchanged by title-casing |
| TvdbFormat.IdLineShows | movies_buddy/tools/mcp_servers/tvdb/helper.py:136-139 | the ID line shows tvdb_id when truthy, else id when present, else "N/A" |
| TvdbFormat.Truncated | movies_buddy/tools/mcp_servers/tvdb/helper.py:143 | an overview of at most 200 characters is kept verbatim; a longer one becomes its first 200 characters followed by "..." (203 characters) |
| TvdbFormat.OverviewLine | movies_buddy/tools/mcp_servers/tvdb/helper.py:141-144 | a falsy overview has no line; a truthy one has exactly one; a str overview shows truncated after "   - Overview: " |
| TvdbFormat.Slice | movies_buddy/tools/mcp_servers/tvdb/helper.py:149 | a list field is cut to its first cap elements (all when fewer); a str becomes its first cap characters, each a one-character string; any other value cannot be sliced |
| TvdbFormat.EntryNames | movies_buddy/tools/mcp_servers/tvdb/helper.py:147-150 | every entry is rendered in order, a dict by its "name" (default "N/A") and anything else by str(), failing exactly when one entry cannot be |
| TvdbFormat.ListLine | movies_buddy/tools/mcp_servers/tvdb/helper.py:146-158 | a falsy companies or genres field has no line, and a field that renders has a line exactly when it is truthy |
| TvdbFormat.ListLineCapped | movies_buddy/tools/mcp_servers/tvdb/helper.py:146-158 | a list field whose first 3 (companies) or 5 (genres) entries render shows exactly their names, in order, joined by ", "; entries past the cap are never looked at |
| TvdbClient.Client.constructor | movies_buddy/tools/mcp_servers/tvdb/helper.py:28-35 | a new client holds its credentials and no token |
| TvdbClient.Client.LoginRequest | movies_buddy/tools/mcp_servers/tvdb/helper.py:48-50 | the login request is a POST of the API key and PIN to the login endpoint |
| TvdbClient.LoginToken | movies_buddy/tools/mcp_servers/tvdb/helper.py:52-67 | a token is returned exactly when the exchange succeeds and data.token (data defaulting to {}) is truthy, and it is that token; a body or "data" that is not a dict is the shape error; every other failure, including a falsy token, is the authentication error |
| TvdbClient.Client.Authenticate | movies_buddy/tools/mcp_servers/tvdb/helper.py:46-68 | the token is stored exactly when the response yields one; on every failure the error is raised and the stored token is left unchanged; after a success the headers carry "Bearer " and the new token |
| TvdbClient.Client.Headers | movies_buddy/tools/mcp_servers/tvdb/helper.py:70-76 | without a token the headers are refused with the authentication error; with one, Authorization is "Bearer " followed by the token; for a client whose cached token is never empty, refused exactly when no token is cached |
| TvdbClient.BearerRoundTrip | movies_buddy/tools/mcp_servers/tvdb/helper.py:74 | the Authorization value is "Bearer", one space, then the cached token, and removing that 7-character prefix gives the token back unchanged; no server-side parsing is modelled |
| TvdbClient.CleanParams | movies_buddy/tools/mcp_servers/tvdb/helper.py:81 | the parameters sent are exactly those whose value is not None, in their original order |
| TvdbClient.CleanParamsKeepsSet | movies_buddy/tools/mcp_servers/tvdb/helper.py:81 | parameters with no None value are sent unchanged |
| TvdbClient.Client.Search | movies_buddy/tools/mcp_servers/tvdb/helper.py:78-91 | without a token nothing is sent and the authentication error is raised; otherwise the cleaned parameters go out with the bearer headers, and the body or the request error comes back |
| TvdbClient.CredentialsLoaded | movies_buddy/tools/mcp_servers/tvdb/helper.py:107-116 | credentials load exactly when both values have a non-space character, and the pair returned is the stripped TVDB_API_KEY and TVDB_PIN |
| TvdbSearch.SearchParamsRejects | movies_buddy/tools/mcp_servers/tvdb/helper.py:177-182 | an all-whitespace query is rejected first, then a limit outside [1, 20]; any other arguments pass |
| TvdbSearch.SearchParamsHold | movies_buddy/tools/mcp_servers/tvdb/helper.py:184-197 | parameters: query trimmed; limit; type lower-cased only when given (known or not); year only when not None; company stripped only when given |
| TvdbSearch.ParamsFromHold | movies_buddy/tools/mcp_servers/tvdb/helper.py:184-197 | each key set in turn holds its value, and an optional key left unset is absent |
| TvdbSearch.SearchParamsSent | movies_buddy/tools/mcp_servers/tvdb/helper.py:184-200 | the built parameters have no None, so the client sends all of them unchanged |
| TvdbSearch.QueryOnlySearch | movies_buddy/tools/mcp_servers/tvdb/helper.py:167-184 | a search given only a non-blank query sends the trimmed query and the default limit 10, and nothing else |
| TvdbSearch.SearchWithoutData | movies_buddy/tools/mcp_servers/tvdb/helper.py:200-205 | a valid search answers with the no-results message exactly when the response has no data |
| TvdbSearch.SearchTool.constructor | movies_buddy/tools/mcp_servers/tvdb/helper.py:164-165 | the tool wraps the given client |
| TvdbSearch.SearchTool.Search | movies_buddy/tools/mcp_servers/tvdb/helper.py:167-205 | validation errors come before any request, and without a token nothing is sent; otherwise exactly the built parameters are sent and the response is formatted, with client and formatter errors passed through; the unknown-content-type warning is logged exactly for valid arguments whose lower-cased type is not series, movie, person or company |
| TvdbSearch.BuildParams | movies_buddy/tools/mcp_servers/tvdb/helper.py:177-197 | filling the dict key by key yields the validated parameters, or the first validation error, and warns exactly for a valid search with an unknown content type |
| TvdbSearch.SetOptionalParams | movies_buddy/tools/mcp_servers/tvdb/helper.py:186-197 | type, year and company are appended in that order, each only when its argument is given, and the warning is raised exactly for an unknown given type |
| MoviesBuddyAgent.FirstKeyIsFirst | movies_buddy/agents/movies_buddy_agent.py:52-61 | the key chosen is the value of the earliest name whose value is non-empty, the mapping's value taking precedence over the process's; nothing is chosen exactly when all are empty |
| MoviesBuddyAgent.MisspellingIsLastResort | movies_buddy/agents/movies_buddy_agent.py:30 | the misspelled name is used only when GEMINI_API_KEY and GOOGLE_API_KEY both give nothing |
| MoviesBuddyAgent.ResolveApiKey | movies_buddy/agents/movies_buddy_agent.py:47-62 | the loop returns the first non-empty value, warns exactly when it came from GEMENI_API_KEY, and raises MissingApiKeyError when none has one |
| MoviesBuddyAgent.BaseUrl | movies_buddy/agents/movies_buddy_agent.py:122 | the mapping's GEMINI_BASE_URL wins; without it the module-level value read from the import-time environment (lines 23-26) is used; without both, the Gemini OpenAI-compatible endpoint |
| MoviesBuddyAgent.ModelId | movies_buddy/agents/movies_buddy_agent.py:125 | the mapping's GEMINI_MODEL is used when present, gemini-2.5-pro otherwise |
| MoviesBuddyAgent.TracingDisabledIff | movies_buddy/agents/movies_buddy_agent.py:139 | tracing is disabled by default, and otherwise exactly when AGENT_TRACING is "1", "true" or "yes" in any letter case |
| MoviesBuddyAgent.CreateMoviesBuddyAgent | movies_buddy/agents/movies_buddy_agent.py:114-147 | the key is resolved first (its error raised), then a missing server script raises, otherwise the configuration holds the key, base URL, model and tracing flag |
| MoviesBuddyAgent.SetupDefaults | movies_buddy/agents/movies_buddy_agent.py:121-139 | with a GEMINI_API_KEY set, the setup succeeds with that key, and tracing is off when AGENT_TRACING is unset |
| MoviesBuddyAgent.TextParts | movies_buddy/agents/movies_buddy_agent.py:105-109 | the collected values are exactly the "text" values (default "") of the dict parts whose type is "text"; order and repeats are stated by TextPartsAppend |
| MoviesBuddyAgent.TextPartsAppend | movies_buddy/agents/movies_buddy_agent.py:105-109 | the texts of content laid end to end are the texts of each run in turn; a single part contributes its text exactly when it is a dict whose type is "text" |
| MoviesBuddyAgent.KeptParts | movies_buddy/agents/movies_buddy_agent.py:110 | the joined parts are exactly the truthy ones; order and repeats are stated by KeptPartsAppend |
| MoviesBuddyAgent.KeptPartsAppend | movies_buddy/agents/movies_buddy_agent.py:110 | the kept parts of lists laid end to end are the kept parts of each in turn; a single part is kept exactly when it is truthy |
| MoviesBuddyAgent.Strings | movies_buddy/agents/movies_buddy_agent.py:110 | the join succeeds exactly when every kept part is a str |
| MoviesBuddyAgent.ExtractFinalOutput | movies_buddy/agents/movies_buddy_agent.py:92-111 | a non-empty fallback is returned unchanged; an empty conversation gives ""; str content is returned verbatim; content that is neither str nor list gives "" |
| MoviesBuddyAgent.KeptTexts | movies_buddy/agents/movies_buddy_agent.py:104-110 | a value is joined exactly when it is the text of a text part and is truthy, whatever its type |
| MoviesBuddyAgent.JoinLinesLength | movies_buddy/agents/movies_buddy_agent.py:110 | joining str parts succeeds; no parts give ""; otherwise the reply is as long as the parts plus one newline between each neighbouring pair |
| MoviesBuddyAgent.ListContentReply | movies_buddy/agents/movies_buddy_agent.py:99-110 | for a last message with list content and no fallback, the reply is the truthy texts of the text parts, in order, joined by newlines, each a non-empty str; it fails, with the join error, exactly when one of those texts is not a str |
| MoviesBuddyAgent.NullTextDropped | movies_buddy/agents/movies_buddy_agent.py:104-110 | a list content of a text part with text None and one with text "hi" replies "hi": the None is filtered out before the join |
| MoviesBuddyAgent.TurnMessages | movies_buddy/agents/movies_buddy_agent.py:170-171 | the message list is the prior history followed by exactly one user message |
| MoviesBuddyAgent.BuildMessages | movies_buddy/agents/movies_buddy_agent.py:170-171 | the copy loop yields a new list with the history and the user message appended, leaving the caller's list alone |
| MoviesBuddyAgent.RunMoviesBuddyAgent | movies_buddy/agents/movies_buddy_agent.py:150-192 | setup errors propagate; the runtime gets the history plus the user message; a completed run gives its conversation and extracted reply; a timeout or any other failure gives `conversation_history or []` (the caller's own list when non-empty) with the fixed reply, the caller's list unchanged |
| MoviesBuddyAgent.RunTurn | movies_buddy/agents/movies_buddy_agent.py:170-192 | the runtime gets the history plus the user message; an answered run gives a new list with the runtime's conversation and the extracted reply; otherwise the reply is the fixed text and the list is the caller's own when non-empty, else a new empty one |
| MoviesBuddyAgent.NewList | movies_buddy/agents/movies_buddy_agent.py:178 | the returned conversation is a new list holding exactly the run's messages |
| PyText.StripEmptyIff | movies_buddy/tools/mcp_servers/tvdb/helper.py:177-178 | a query strips to nothing exactly when every character is whitespace |
| PyText.TitleAt | movies_buddy/tools/mcp_servers/tvdb/helper.py:134 | title-casing raises a letter at a word start and lowers it elsewhere |
| PyText.IntToStringRoundTrip | movies_buddy/tools/mcp_servers/tvdb/helper.py:125 | the record count shown reads back as the same number |
| PyValue.LookupFirst | movies_buddy/tools/mcp_servers/tvdb/helper.py:133 | `get` finds the value of the first entry with the key, and nothing exactly when no entry has it |

## Left out

- HTTP transport is not modelled. This covers `requests.Session`, the 10-second timeouts, the JSON decoding of bodies, and the exceptions it raises. A response is an abstract body or failure.
- `load_environment_variables` (dotenv file loading and path resolution) is not modelled; the loaded environment is a map parameter.
- Logging is not modelled, except for two warnings kept as boolean results: the API-key migration warning and the unknown-content-type warning of the search tool.
- Floating-point values in responses, and the float `timeout_s`, are not modelled. The timeout is only the `TimedOut` outcome of a run.
- Async execution, the MCP server context manager, `AsyncOpenAI`, `Agent`, `Runner.run` and `MCPServerStdio` are not modelled. The run is a function from the message list to its outcome, and the server script's existence is a boolean.
- `movies_buddy/tools/mcp_servers/tvdb/server.py`, `movies_buddy/tools/wikipedia_summary.py`, `agent_runner.py`, the system prompt and the package re-exports are not part of this model.
- PyValue.Repr: `repr()` of a nested value is approximated. It always uses single quotes around strings and no escapes, where Python picks the quote and escapes. Only list/dict overviews and non-str company/genre entries or fields are printed this way.
- PyText.Lower and PyText.Title: only ASCII letters change case. Python also maps other Unicode letters, and counts non-ASCII cased letters as letters when it looks for word starts.
- MoviesBuddyAgent.RunMoviesBuddyAgent: a `final_output` that is not a string is not modelled. The attribute is an optional string.
- MoviesBuddyAgent.RunMoviesBuddyAgent: a failing `to_input_list()` is not modelled separately. It is `except Exception`, the same path as a failed run.
