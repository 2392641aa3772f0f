# OllamaManagerUI gateway, modelled in Dafny

OllamaManagerUI is a small Flask web front end for an Ollama server. Its
core is `OllamaClient`, a gateway that wraps the Ollama HTTP API. It
retries failed requests with a doubling delay and rewrites 404 replies
and empty bodies. It builds a model file and scans it back, reduces the
newline-delimited JSON streams of model creation and pulls, and caches a
liveness probe. It checks the running list before and after unloading a
model, and it enriches the model list with each model's modification
time. The web routes in front of it resolve the server URL per request,
validate model names, change the session language and filter library
search results.

The model has seven modules:

- `Json` (json.dfy) holds JSON values, `Option`, and `Call`. A `Call` is
  a Python call that either returns a value or raises an exception.
- `Strings` (strings.dfy) holds the `str` operations the gateway uses.
- `Transport` (transport.dfy) covers one request attempt and the
  reference meaning `Execute` of the retry loop.
- `Modelfile` (modelfile.dfy) holds the model-file builder and its three
  scanners.
- `Stream` (stream.dfy) holds the create-stream and pull-stream loops.
- `Client` (client.dfy) holds the class `OllamaClient` and the pure result
  shaping of its calls.
- `App` (app.dfy) holds the route rules.

Every network call is replaced by an oracle, `outcome: nat -> Outcome`,
which gives what attempt `i` produced. The clock is replaced by a `now`
argument. Sleeps are logged as a sequence of delays. Each method is
proved equal to a reference function, and the properties are proved as
lemmas about those functions.

## Model

| member | source | states |
|---|---|---|
| Transport.StripLeadingSlash | ollama_client.py:30-31 | exactly one leading `/` is removed; an endpoint without one is kept |
| Transport.NotFoundResult | ollama_client.py:44-45 | a 404 gives `{'models': []}` exactly when the endpoint contains `tags` or `ps`, else `{}` |
| Transport.Attempt | ollama_client.py:39-58 | a 404 is rewritten; a status that `raise_for_status` accepts returns the body, or `{}` for empty content; an error status, a connection error, a timeout or another request exception fails with the message recorded for it |
| Transport.DefaultHeaders | ollama_client.py:22-26 | JSON content type always; `Authorization: Bearer <key>` exactly when the API key is set and non-empty; no other header |
| Transport.Execute | ollama_client.py:34-65 | the retry loop makes at most `max_retries` attempts and at least one when retries are allowed, sleeps once fewer than it attempts, and its i-th delay is `retry_delay * 2**i` |
| Transport.ExecuteMeaning | ollama_client.py:38-65 | every attempt but the last failed; a last attempt that succeeded gives its value; a last attempt that failed was attempt `max_retries` and gives `{'error': its message}`; stopping early means the last attempt succeeded |
| Transport.DefaultPolicy | ollama_client.py:34-65 | with 3 attempts and a first delay of 1: between 1 and 3 attempts, one delay fewer than attempts, delays 1 then 2; three failures give exactly `{'error': third message}`, delays [1, 2] and 3 attempts |
| Transport.FirstResponseDecides | ollama_client.py:43-48 | a response that does not raise decides on the first attempt with no delay: a 404 from tags or ps gives the empty model list, another 404 gives `{}`, an empty body gives `{}` |
| Client.OllamaClient.Retry | ollama_client.py:34-65 | the while loop returns exactly what `Execute` defines: the first non-raising attempt's value after one doubling delay per earlier failure, or the last failure's message after `max_retries` failures, with no delay after the last attempt |
| Client.OllamaClient.HandleRequest | ollama_client.py:28-65 | the request carries the caller's verb (`requests.get`, `post` or `delete`); the URL is `base_url + '/' + endpoint` with one leading `/` stripped; headers are the defaults overridden by the caller's; timeout defaults to 30; the JSON body is passed through; the result is the retry loop's |
| Client.OllamaClient.constructor | ollama_client.py:10-19 | the base URL is the argument, else `OLLAMA_SERVER_URL`, else the default, minus one trailing `/`; the API key comes from the environment; 3 retries, delay 1, interval 5, empty cache |
| Client.ChosenUrl | ollama_client.py:11 | an empty or absent argument falls through to the environment value, and then to `http://localhost:11434` |
| Client.DropTrailingSlash | ollama_client.py:12-13 | exactly one trailing `/` is removed, when present |
| Client.CheckStep | ollama_client.py:129-151 | a cached verdict younger than the interval is returned without a probe; otherwise an empty base URL gives `False` and keeps `_last_check`; otherwise a probe is sent, the verdict is `status == 200` (False when it raised) and `_last_check := now` |
| Client.CachedWithinInterval | ollama_client.py:132-133 | a second check within the interval after a probe returns the same verdict, sends no probe and leaves the cache alone |
| Client.ProbesAfterInterval | ollama_client.py:140-150 | once the interval has passed, the next check probes and adopts the new verdict at time `now` |
| Client.OllamaClient.CheckServer | ollama_client.py:129-151 | the method's verdict, probe flag and new `_server_status`/`_last_check` fields are exactly those of `CheckStep` on the old fields |
| Client.RunningReply | ollama_client.py:168-173 | an error becomes `{'models': [], 'error': e}` and nothing else; any other reply is passed through unchanged |
| Client.OllamaClient.ListRunning | ollama_client.py:168-173 | the reply is `RunningReply` of the `api/ps` result |
| Client.DetailsReply | ollama_client.py:282-288 | an error gives only the error; otherwise exactly `details` (default `{}`) and `modified_at` (default `''`) |
| Client.OllamaClient.GetModelDetails | ollama_client.py:274-290 | posts `{'name': n}` to `api/show` and shapes the reply as `DetailsReply` |
| Client.DeleteReply | ollama_client.py:217-219 | success exactly when the delete call reports no error; the error is passed on |
| Client.OllamaClient.DeleteModel | ollama_client.py:210-219 | sends a DELETE with body `{'name': n}` to `api/delete` and shapes the reply as `DeleteReply` |
| Client.Entries | ollama_client.py:160-161 | iterating the `models` value: a list gives its items; an empty string or object gives none; a non-empty string or object, a number, a boolean or `None` raises |
| Client.AnyNamed | ollama_client.py:183 | `False` exactly when every entry has a name and none matches; `True` only when some entry matches and every entry before it has a name; a raise only when some entry has no name and no entry before it matches |
| Client.Listed | ollama_client.py:183 | a running list without `models` names nothing; `True` only when `models` is a list with an entry whose name matches |
| Client.BeforeUnload | ollama_client.py:179-184 | the unload request goes out exactly when the first list has no error and names the model; a list error is passed on; a model that is not listed is a success |
| Client.AfterUnload | ollama_client.py:198-205 | after the unload, success exactly when the second list has no error and no longer names the model, with the stopped message; a list error is passed on |
| Client.StopReply | ollama_client.py:175-208 | the reply carries a boolean `success` and the call makes 1 to 3 backend requests |
| Client.StopReplyMeaning | ollama_client.py:179-205 | the unload request is made only for a model the first list names; errors from the first list or the unload are passed on, and no later request is made; otherwise three requests are made and the second list decides |
| Client.StopSucceedsIff | ollama_client.py:179-205 | `stop_model` succeeds exactly when the model was not running, or when the unload went through and the second list no longer names it |
| Client.OllamaClient.CheckRunning | ollama_client.py:179-184 | the check sends one GET to `api/ps`, and its verdict is `BeforeUnload` of that result |
| Client.OllamaClient.ConfirmStopped | ollama_client.py:198-205 | the re-check sends one GET to `api/ps`, and its reply is `AfterUnload` of that result |
| Client.OllamaClient.StopModel | ollama_client.py:175-208 | the reply and the number of requests sent are `StopReply` of the three results; the first request is a GET to `api/ps`, the second POSTs `{'model', 'prompt': '', 'keep_alive': '0s'}` to `api/generate`, and a third is a GET to `api/ps` again |
| Client.Enriched | ollama_client.py:161-164 | enriching one entry raises exactly when it has no `name` |
| Client.EnrichedMeaning | ollama_client.py:162-164 | enrichment keeps the name and every field but `modified_at`; a details error leaves the entry as it was |
| Client.ModifiedAtFromShow | ollama_client.py:164 | when details come back, `modified_at` is overwritten with the show reply's value, or `''` when it has none; the entry's own value is never the fallback |
| Client.EnrichAll | ollama_client.py:161-164 | the loop, when it returns, returns one entry per model |
| Client.EnrichAllMeaning | ollama_client.py:161-164 | each entry is enriched as `Enriched` says, in place and in order; the loop raises exactly when some entry has no name |
| Client.OllamaClient.EnrichModel | ollama_client.py:161-164 | one turn of the loop is `Enriched` with the `api/show` results |
| Client.OllamaClient.EnrichModels | ollama_client.py:160-164 | the loop that overwrites the list in place returns exactly `EnrichAll` of the models |
| Client.ListModelsReply | ollama_client.py:153-166 | a tags error gives `{'models': [], 'error': e}`; otherwise a returned reply has only the `models` key |
| Client.ListModelsKeepsModels | ollama_client.py:155-166 | on a list of named models, every model comes back in order under its name with all its other fields unchanged, and `modified_at` is taken from the show reply whenever that call did not fail |
| Client.OllamaClient.ListModels | ollama_client.py:153-166 | the method's result is `ListModelsReply` of the tags result and the show results |
| Client.ConfigReply | ollama_client.py:233-241 | an error gives only the error; otherwise exactly the model file and what the three scanners read from it |
| Client.OllamaClient.GetModelConfig | ollama_client.py:225-243 | posts `{'name': n}` to `api/show` and shapes the reply as `ConfigReply` |
| Client.ConfigOfSavedModel | ollama_client.py:236-241 | reading back a saved configuration: the parameters come back as saved, the template comes back `''`, and the system prompt keeps its triple quotes |
| Client.SaveReply | ollama_client.py:100-127 | failure exactly when the post raised or the stream recorded a truthy error, and that error is passed on; otherwise the saved message |
| Client.SaveSucceedsWhenStreamEnds | ollama_client.py:105-122 | a create stream that simply ends, with no error event, counts as saved |
| Client.EmptyErrorCountsAsSaved | ollama_client.py:109-122 | an error event with an empty error stops the stream but still counts as saved |
| Client.OllamaClient.SaveModelConfig | ollama_client.py:67-127 | posts exactly the built model file and the name to `api/create`; the reply is `SaveReply` |
| Modelfile.Build | ollama_client.py:71-84 | the model file is `FROM <name>\n`, then one `PARAMETER k v\n` per parameter in order, then a `SYSTEM` line only for a truthy prompt, then a `TEMPLATE` line only for a truthy template |
| Modelfile.AppendParameters | ollama_client.py:74-76 | the parameter loop appends one line per parameter, in iteration order |
| Modelfile.Text | ollama_client.py:71-84 | the built file starts with the `FROM <name>` line and ends in a newline |
| Modelfile.ParseParameterLine | ollama_client.py:248-253 | only a line that starts with `PARAMETER` gives a parameter; the key has no space; the value neither starts nor ends with `"` |
| Modelfile.ParseParameterLineDefined | ollama_client.py:248-250 | a line gives a parameter exactly when it starts with `PARAMETER` and holds at least two spaces |
| Modelfile.ParseParameterLineParts | ollama_client.py:248-253 | a `PARAMETER` line whose keyword part and key have no space gives the key between the first two spaces and the rest with `"` stripped from both ends |
| Modelfile.ParamsFromLinesKeys | ollama_client.py:245-254 | the dictionary holds exactly the keys that some line sets |
| Modelfile.ParamsFromLinesLastWins | ollama_client.py:245-254 | each key holds the value of the last line that sets it |
| Modelfile.ExtractParameters | ollama_client.py:245-254 | the dictionary filled line by line is `ParamsFromLines` of the lines, where later keys overwrite earlier ones; no key contains a space |
| Modelfile.ExtractTemplate | ollama_client.py:256-263 | `''` when `TEMPLATE` does not occur; the result never contains `"` |
| Modelfile.QuotedText | ollama_client.py:262 | `line.split('"')[1]` when `"` occurs, else `''`; the result never contains `"` (its values are stated by `QuotedTextLone` and `QuotedTextBetween` below, and by `UnquotedAfterKeyword` for a line without `"`) |
| Modelfile.QuotedTextLone | ollama_client.py:262 | a line `h"f` with a single `"` gives `f`, the text after it |
| Modelfile.QuotedTextBetween | ollama_client.py:262 | a line `h"x"f` with no `"` in `h` or `x` gives `x` |
| Modelfile.FindKeywordAfter | ollama_client.py:256-268 | `find` locates a keyword written right after a text `p` when no occurrence of it starts inside `p`, whether at a line start or inside a line |
| Modelfile.ClearAtLineStart | ollama_client.py:256-268 | a keyword without a newline, written at a line start with no earlier occurrence, has no occurrence starting before it |
| Modelfile.FirstLineOfJoint | ollama_client.py:261 | the first line of `u + rest`, for `u` without a newline, is `u` followed by the first line of `rest` |
| Modelfile.TemplateOfFirstLine | ollama_client.py:256-263 | the template scanner reads only the first line that holds the first `TEMPLATE` |
| Modelfile.TemplateBetweenQuotes | ollama_client.py:256-263 | when the first `TEMPLATE` is followed by `a"x"…` on its line, with no `"` or newline in `a` or `x`, the scanner returns exactly `x` |
| Modelfile.TemplateLoneQuote | ollama_client.py:256-263 | when the line of the first `TEMPLATE` reads `TEMPLATE a"x` with a single `"`, the scanner returns `x` |
| Modelfile.TemplateWithoutQuote | ollama_client.py:256-263 | when the line of the first `TEMPLATE` has no `"`, the scanner returns `''` |
| Modelfile.QuotedAfterKeyword | ollama_client.py:261-262 | after a keyword without `"`, the first line `a"x"…` yields `x` |
| Modelfile.UnquotedAfterKeyword | ollama_client.py:261-262 | after a keyword without `"`, a first line without `"` yields `''` |
| Modelfile.UnclosedAfterKeyword | ollama_client.py:261-262 | after a keyword without `"`, a first line `a"x` with a single `"` yields `x` |
| Modelfile.ExtractSystem | ollama_client.py:265-272 | `''` when `SYSTEM` does not occur; the result has no surrounding whitespace |
| Modelfile.SystemOfFirstLine | ollama_client.py:265-272 | the system scanner returns the stripped rest of the line of the first `SYSTEM` |
| Modelfile.SystemOfLine | ollama_client.py:265-272 | when the first `SYSTEM` is followed by `x` and a newline, the scanner returns `x` stripped of surrounding whitespace |
| Modelfile.FirstLineIsPrefix | ollama_client.py:261 | `split('\n')[0]` is the text before the first newline, or the whole text |
| Modelfile.ParseParameterLineBuilt | ollama_client.py:248-253 | a parameter line the builder wrote, with a plain key and value, scans back to that key and value |
| Modelfile.ParametersRoundTrip | ollama_client.py:245-254 | parameters round-trip through builder and scanner, later keys winning, when keys have no space or newline, values no newline and no surrounding `"`, and name, system and template no newline |
| Modelfile.TemplateOfTemplateHead | ollama_client.py:262 | any line starting `TEMPLATE """` yields `''`: its first two `"` are adjacent |
| Modelfile.TemplateOfBuilderOutput | ollama_client.py:256-263 | on builder output the template scanner returns `''`, unless `TEMPLATE` already occurs earlier in the file |
| Modelfile.BuilderOutputReadsBack | ollama_client.py:245-272 | on builder output with single-line fields, plain parameters and no early `SYSTEM` or `TEMPLATE`, the three scanners give back the parameters, `''` and the quoted system prompt |
| Modelfile.SystemOfBuilderOutput | ollama_client.py:265-272 | on builder output a one-line system prompt comes back wrapped in its triple quotes, unless `SYSTEM` already occurs in the `FROM` or parameter lines |
| Strings.Find | ollama_client.py:257 | `s.find(t)`: an occurrence with none before it, or -1 when there is none |
| Strings.Split | ollama_client.py:247 | `s.split(c)` has at least one piece and no piece contains `c` |
| Strings.IndexOf | ollama_client.py:249 | `s.find(c)`: an index holding `c` with no `c` before it, or -1 when `c` does not occur |
| Strings.TrimStart | ollama_client.py:252 | `lstrip` leaves a suffix of the input that does not start with a stripped character |
| Strings.TrimStartDropped | ollama_client.py:252 | every character `lstrip` removes is a stripped character |
| Strings.TrimEnd | ollama_client.py:252 | `rstrip` leaves a prefix of the input that does not end with a stripped character |
| Strings.TrimEndDropped | ollama_client.py:252 | every character `rstrip` removes is a stripped character |
| Strings.Strip | ollama_client.py:271 | `strip` is no longer than its input, and neither end of a non-empty result is a stripped character |
| Strings.Lower | app.py:215 | lower-casing keeps the length, turns each upper-case ASCII letter into its lower-case letter (code plus 32), leaves no upper-case ASCII letter and changes no other character |
| Strings.SplitFirstJoint | ollama_client.py:261 | the first piece of `(u + rest).split(c)`, for `u` without `c`, is `u` followed by the first piece of `rest.split(c)` |
| Strings.SplitJoin | ollama_client.py:247 | joining the pieces with the separator gives the string back |
| Stream.ReduceCreateStream | ollama_client.py:103-117 | the loop stops at the first error event, whose error it records, or at the first `success` status; the error is checked before the status; blank and malformed lines are skipped |
| Stream.CreateStreamEnd | ollama_client.py:103-117 | the create loop reads no further than the stream, no line before the last one read stops it, reading ends early only at a stopping line, and a recorded error is the `error` value of the last line read |
| Stream.CreateStreamThatEnds | ollama_client.py:105-117 | a stream with no stopping event is read to its end and records no error |
| Stream.FirstErrorDecides | ollama_client.py:109-111 | the first error event's error is recorded, even when the same event reports success, and nothing after it is read |
| Stream.SuccessHidesLaterErrors | ollama_client.py:112-115 | a success status before any error ends reading, so later errors are never seen |
| Stream.SkippedLine | ollama_client.py:106 | a blank or malformed line in front changes only the number of lines read, in both loops |
| Stream.CreateIgnoresRest | ollama_client.py:105-115 | lines after the stopping line are never read |
| Stream.ConsumedBounds | ollama_client.py:105 | neither loop reads past the stream's end, and both read at least one line of a non-empty stream |
| Stream.ReducePullStream | app.py:186-194 | the pull loop stops at the first `success` status, reads past error events, and skips blank and malformed lines |
| Stream.PullStreamEnd | app.py:186-194 | the pull loop reads no further than the stream, no line before the last one read stops it, and reading ends early only at a `success` status |
| Stream.PullReadsAtLeastCreate | app.py:186-194 | the pull loop reads at least as far as the create loop, and exactly as far on a stream without error events |
| App.ServerUrl | app.py:47-56 | the `X-Ollama-URL` header when non-empty, else `OLLAMA_SERVER_URL`, else the default; one trailing `/` removed; `http://` prefixed only when the result does not start with `http` |
| App.BeforeRequest | app.py:39-59 | the session gets the default language only if it has none; the new client's base URL is the resolved URL minus one more trailing `/`, its API key is the environment's, and its cache is empty with `_last_check` 0 |
| App.ClientGetsServerUrl | app.py:59 | the resolved URL is never empty, so the client uses it rather than its own environment lookup |
| App.TwoTrailingSlashes | app.py:53-59 | a header URL ending in `//` loses both slashes, one in the route and one in the client; `http://` is put in front when it does not start with `http` |
| App.LanguageReply | app.py:66-92 | 200 exactly for a JSON request whose language is a non-empty available code, echoing it; otherwise 400 with an error, and a missing or empty language gives the required message |
| App.ChangeLanguage | app.py:66-92 | the reply is `LanguageReply`; `session['language']` is set to the code exactly on a 200, and the session is unchanged otherwise |
| App.StatusReply | app.py:105-109 | status `running` exactly when the server is up, otherwise `stopped` |
| App.ListReply | app.py:111-125 | a reply with an error is a 503 carrying only the error; any other reply is a 200 as is; an escaping exception is a 500 |
| App.ListErrorIs503 | app.py:113-125 | errors from `list_models` and `list_running` both reach the browser as a 503 with only the error |
| App.ActionReply | app.py:140-146 | a reply without a truthy `success` becomes a 500 carrying its error or the fallback; a successful one passes through |
| App.StopRoute | app.py:127-146 | a non-JSON request is a 400; a missing or empty name is a 400 `validation_error`; the client is called exactly for a non-empty name |
| App.DeleteRoute | app.py:148-164 | a non-JSON request fails in `request.json` and is a 500; a missing or empty name is a 400 `validation_error`; the client is called exactly for a JSON request with a non-empty name |
| App.StopRouteNotRunning | app.py:140-146 | stopping a model that is not running answers 200 with the not-running message |
| App.PullModel | app.py:166-198 | a non-JSON request is a 500 and a missing or empty name a 400 `validation_error`, and neither sends a request; otherwise it posts `{'name': n}` to `api/pull`, reads the stream as the pull loop does, and answers `PullReply` |
| App.PullReply | app.py:196-198 | a request exception is a 500 with its text; any stream of object lines is a 200 success |
| App.PullIgnoresErrors | app.py:186-196 | the reply to a pull stream of object lines does not depend on those lines, so error events never fail a pull |
| App.FilterModels | app.py:215 | the kept names are exactly the scraped names whose lower-case form contains the lower-case keyword |
| App.FilterAppend | app.py:215 | filtering distributes over concatenation, so the original order is kept |
| App.FilterEmptyKeyword | app.py:215 | an empty keyword keeps every name |
| App.SearchReply | app.py:214-223 | a 200 with only `models`: one entry per kept name, in order, each with that name and the same fixed size-tag list |

## Left out

- HTTP itself is not modelled. Each request is an oracle of attempt outcomes. Sleeps are a logged sequence of delays, and the one-second pause in `stop_model` (ollama_client.py:197) is not logged. The clock is the `now` argument.
- Only the status code of the liveness probe in `check_server` is modelled. Its headers and its 5-second timeout are not.
- JSON decoding is not modelled, and neither is `iter_lines`. Stream lines arrive decoded, with `None` for a blank or undecodable line. A response body is a JSON object or empty; non-object bodies are not modelled.
- JSON numbers are integers. Floating-point numbers are not modelled.
- Stream.ReduceCreateStream: a stream line that decodes to a string, list, number, boolean or `null` is not modelled. On a string or list the `in` tests (ollama_client.py:109, 112) test substrings or elements and `data['error']` then raises; on a number, boolean or `null` the `in` test raises. `except Exception` (ollama_client.py:126-127) turns either into a failure reply, which `Client.SaveReply` does not cover.
- App.PullReply: on a stream line that decodes to anything but an object, `data.get` (app.py:191) raises `AttributeError` and the route answers 500; the model covers streams of object lines only, and `App.PullIgnoresErrors` holds only for those.
- App.StopRoute: a JSON body that is not an object makes `request.json.get` (app.py:133) raise, and the error-handling wrapper (app.py:30-36) answers 500; the model takes the body as its `name` field only. The same holds for App.LanguageReply (`data.get` at app.py:74, caught at app.py:94-97), App.DeleteRoute (app.py:151) and App.PullModel (app.py:169).
- App.DeleteRoute and App.PullModel: a non-JSON request makes `request.json` raise and yields a 500; its error text is the placeholder `NotJsonText`.
- Transport.Attempt: the message an HTTP error status records is opaque (`Resp.failure`). Which message a 503 produces (ollama_client.py:55-56) depends on how the `requests` library judges the truth of a `Response`, and that library is not part of this model.
- `gettext` translations and `print` logging are left out. Messages are the untranslated strings, and the route's `t` is a parameter.
- `get_model_stats` (ollama_client.py:221-223) is left out: it delegates to `ModelUsage`, which is not part of this model.
- The Flask routing and `jsonify` are not modelled. The ConnectionError arm of the error decorator is not modelled either, because client calls catch that exception themselves. The process-global client that each request replaces (app.py:41, 59) is not modelled.
- These routes are left out:
  - `index` (app.py:61-64) renders the page template.
  - `get_server_url` (app.py:99-103) answers with the `OLLAMA_SERVER_URL` environment variable, or `http://localhost:11434` when it is unset. It does not use the client.
  - The two stats routes (app.py:227-236) return `get_model_stats`, which is left out.
  - The configuration routes (app.py:238-267) are also out. The GET route answers 500 with the reply's `error` when `get_model_config` reports one. The POST route answers 400 for a non-JSON request, passes the body's `system`, `template` and `parameters` to `save_model_config`, and answers 500 with the reply's error (or a translated default) when the reply has no `success`. The client operations these routes call are modelled (`Client.ConfigReply`, `Client.SaveReply`); the routes' own status codes are not.
- The curl call and the regex scraping in `search_models` (app.py:206-212) are left out. The scraped names are a parameter. static/js/search.js is browser UI and is not part of this model.
- Strings.Lower: lower-casing covers ASCII letters only. Python's full Unicode case mapping is not modelled.
- Non-string model names, keywords and parameter values are not modelled. `parameters` is a sequence of key/value pairs standing for a dict's items in iteration order.
- Exception texts are placeholders (`TypeError`, `AttributeError`, `'name'`). Only whether a call raises, and where, is modelled.
- `list_models` is described as keeping a model's own `modified_at` when its details carry none. The code does not do that: the details reply always has the key, so the value is overwritten with `''`. The model follows the code, and `Client.ModifiedAtFromShow` states it.
- A `models` value that is not a list, or a running list whose entries are not objects, is modelled only as far as whether `model['name']` raises.
