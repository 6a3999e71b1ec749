# Ragnar core, modelled in Dafny

Ragnar is a chat bot. A Discord front end hands user prompts to a locally run
Ollama language-model server, and a program thread ties the pieces together.
This project models Ragnar's decision-making and sequencing code and proves
what that code promises:

- **The Ollama client** (`Ollama`, ollama_client.dfy). The constructor builds a
  deduplicated registry of the available models and records at most one
  running model. If nothing is resident, it loads the first available model,
  or pulls and then loads `llama3.2`. `chat` decides the backend's `stream`
  flag and the shape of its result. `list_running_models`, `show_model` and
  `web_search` answer fixed sentinel texts instead of raising. Every backend
  call is an event in the client's ghost `trace`.
- **The program thread** (`Orchestration`, program.dfy). `start` waits on the
  "any service valid" gate, starts the services and registers the job table
  with the background scheduler. `stop` unloads the running models, then stops
  the initialised services, then shuts the scheduler down. What the program
  logs or asks of others goes into a ghost `events` log.
- **Services** (`Services`, service_base.dfy; `Discord`,
  discord_service.dfy). The base wrapper turns the outcome of `setup()` into
  `initialized`. The Discord service has:
  - the token check that gates set-up;
  - the guard of `stop`;
  - mention stripping in `on_message`;
  - the 2000-character embed threshold;
  - the model-name check of `set_model`.
- **Settings** (`SettingsModels`, `Manager`, `Version`). The default values and
  the `api_url` prefixing validator. The top-level key filter of
  `clean_settings`. How `load` picks its source, maps its three failure kinds
  onto `RagnarException`, and saves. The `version = "(.+)"` search of
  `get_version`, with Python's leftmost, greedy and line-bound regular
  expression semantics.

`Strings` models the Python string operations the code relies on: `in`,
`startswith`, `join`, `split`, `replace` and `strip`. `Results` holds `Option`
and `Result`.

The backend, the Discord client, the settings file and the JSON and pydantic
libraries are parameters. What the backend answers (`ListAnswer`, `PsAnswer`,
`ChatBackend`) is passed in. So is how a call whose value is not used ends
(`Ack`: it returns, or raises with a message). This covers pulls, loads,
unloads and the services' `stop()`. The file is its text, or `None` when
absent. The libraries are a `Toolkit` of functions (`validate`, `parse`,
`dump`). The network behind the `api_url` check is a `ping` function: the
body of the answer, or the exception the request raises, with its text and
whether it is a `ValueError`. How the SDK set-up in `OllamaClient.__init__`
went (`SdkSetup`: which of its steps raised, if any) is a parameter too.

Where the code departs from the behaviour intended for the system, the model
follows the code:

- `available_models` is deduplicated by whole-record equality (`in` on a
  list), not by digest. The digest-only `__hash__` is never used.
- When a model is resident, the "running" entry is built from the last
  listed model, because the loop variable `model` is left over. If the listing
  was empty the constructor raises `NameError` (`StaleModelUnbound`). A model
  loaded by the bootstrap itself is never recorded as running.
- `chat` with tools reads `settings.num_ctx`, which `OllamaModel` does not
  have. It raises `AttributeError` before any backend call.
- `chat` with no stream flag, while the settings enable streaming, indexes
  the stream and fails (`NotSubscriptable`). The SDK's stream is lazy, so
  this happens whatever the backend would answer, and a streamed call never
  raises the backend's `ResponseError` inside `chat`.
- `set_model` never confirms:
  - The interaction is deferred first, so the "not found" answer, a second
    response, raises.
  - After saving, the call to the settings manager's missing `reload` raises.
  - Both end in "Unable to set model: …".
- `DiscordService.stop` on an initialised service reads `self.running`,
  which nothing sets. It raises `AttributeError`.
- `Program.stop` has no terminal-state guard. A second call repeats the
  unloads and the service stops.
- Nothing in `Program.stop` catches an exception. The first unload or
  service `stop()` that raises ends it: no later unload or service stop
  happens, and there is no scheduler shutdown and no final log line. An
  initialised Discord service always raises there.
- A bootstrap pull or load that raises escapes `OllamaClient.__init__`, and
  with it `Program.__init__`.
- The `api_url` validator raises `RagnarException("Ollama is not running")`,
  or lets the request's own exception through. pydantic v2 turns only a
  `ValueError` into a validation error. So an unreachable host, or an answer
  without the banner, escapes `load` without the "Validation error: "
  prefix. A malformed URL is different: requests raises `InvalidURL` or a
  sibling, which are `ValueError`s, and `load` reports it with the prefix.
  An empty `api_url` becomes the bare `http://` and takes that path.
- If `ollama.Client(...)` raises in `OllamaClient.__init__`, `self.client` is
  never assigned. `list_running_models` then catches the attribute error
  before its `ps` call and answers an error text, which the constructor takes
  for a resident model. Nothing is loaded or pulled, whatever the backend
  holds. If the wrapper lacks `_ollama`, the listing reads it again and the
  `AttributeError` escapes before any backend call.
- `set_model` assigns the new model through the settings manager's Ollama
  section. That section is the client's own `settings` object, so every
  later `chat` asks for the new model, although the user was told "Unable to
  set model".

## Model

| member | source | states |
|---|---|---|
| Strings.TrimStartDropsSpace | src/services/discord.py:76-78 | `lstrip` keeps a suffix, drops only whitespace, and stops at a non-whitespace character |
| Strings.TrimEndDropsSpace | src/services/discord.py:76-78 | `rstrip` keeps a prefix, drops only whitespace, and stops at a non-whitespace character |
| Strings.StripKeepsCore | src/services/discord.py:76-78 | `strip` keeps a contiguous run of the text with non-whitespace ends, and all it drops is whitespace |
| Strings.StripIdempotent | src/services/discord.py:76-78 | stripping twice is stripping once |
| Strings.JoinSplit | src/services/discord.py:76-78 | joining the parts of a split with the separator gives back the text |
| Strings.ReplaceAbsent | src/services/discord.py:76-78 | `replace` of a pattern that does not occur leaves the text unchanged |
| Strings.ReplaceLeading | src/services/discord.py:76-78 | `replace` on a text starting with the pattern replaces that occurrence and then works on the rest |
| Strings.Split | src/services/discord.py:76-77 | `split` on a non-empty separator yields at least one part, and no part contains the separator |
| Strings.Replace | src/services/discord.py:76-77 | `replace` of every occurrence, scanning left to right: the parts between occurrences joined with the replacement |
| Strings.Strip | src/services/discord.py:78 | `strip`: `rstrip` of `lstrip` |
| Version.MatchAt | src/settings/__init__.py:17 | the capture at a start position is a match there and the longest one; `None` exactly when nothing matches there |
| Version.Search | src/settings/__init__.py:17 | `re.search`: the match found is one, it is the leftmost, and no match starts before it |
| Version.GetVersion | src/settings/__init__.py:13-22 | a failure is `ValueError("Could not find version in pyproject.toml")` |
| Version.GetVersionFound | src/settings/__init__.py:17-21 | the version is non-empty, has no newline, and `version = "` + version + `"` occurs in the text; `ValueError` exactly when nothing matches anywhere |
| Version.VersionIsLeftmostGreedy | src/settings/__init__.py:17-19 | the version is the capture of the leftmost match, and no `"` follows it on its line (greedy `.+`) |
| Version.CaptureRunsToLastQuote | src/settings/__init__.py:17 | the longest capture runs to the last `"` before the end of the line |
| SettingsModels.DefaultOllama | src/settings/models.py:50-54 | the Ollama defaults: `http://localhost:11434`, `llama3.2`, 32000 tokens, no streaming |
| SettingsModels.DefaultDiscord | src/settings/models.py:69-70 | the Discord defaults: an empty token and an empty invite URL |
| SettingsModels.DefaultAppSettings | src/settings/models.py:81-86 | the application defaults: version `0.1.0`, debug and log on, the default sections, empty external tokens |
| SettingsModels.NormalizeApiUrl | src/settings/models.py:59-60 | the result starts with `http://`; it is the input exactly when the input already starts with `http://`, else `http://` + input |
| SettingsModels.NormalizeIdempotent | src/settings/models.py:59-60 | normalising twice is normalising once |
| SettingsModels.HttpsIsPrefixed | src/settings/models.py:59-60 | an `https://` URL is not recognised and gets `http://` in front |
| SettingsModels.DefaultApiUrlIsNormal | src/settings/models.py:50-60 | the default URL `http://localhost:11434` passes through the prefixing unchanged |
| SettingsModels.ValidateApiUrl | src/settings/models.py:57-64 | succeeds exactly when the request to the normalised URL answers and its body contains "Ollama is running", and then returns that URL; a request that raises gives its exception, `BadUrl` for a `ValueError` and `RequestFailed` otherwise; an answer without the banner gives `RagnarException("Ollama is not running")` (`NotRunning`); pydantic lets the error through exactly when it is not a `ValueError` |
| SettingsModels.EmptyApiUrlIsBareScheme | src/settings/models.py:59-61 | an empty `api_url` is requested as `http://`; when requests refuses that with a `ValueError`, the validator raises it as `BadUrl`, which pydantic does not let through |
| Manager.Reraised | src/settings/manager.py:41-51 | the re-raised message is the failure kind's prefix followed by the failure's detail |
| Manager.ReraisedIsRecoverable | src/settings/manager.py:41-51 | the three prefixes keep the kinds apart: kind and detail can be read back from the message |
| Manager.Escaping | src/settings/manager.py:41-51 | the exception `load` raises for a failure: a caught one re-raised with its kind's prefix; the validator's `RagnarException` or request error as it was raised |
| Manager.ValidatorErrorIsUnprefixed | src/settings/manager.py:41-51 | a caught failure escapes as its prefixed re-raise, with its kind readable from the message; a validator exception carries none of the three prefixes; it escapes as a request error exactly when the request raised |
| Manager.Cleaned | src/settings/manager.py:28-29 | keeps exactly the input keys that are valid, with their values unchanged |
| Manager.CleanedIdempotent | src/settings/manager.py:29 | filtering twice is filtering once, and the keys left are valid keys |
| Manager.CleanedKeepsValidDictionary | src/settings/manager.py:28-29 | a dictionary whose keys are all valid is unchanged |
| Manager.LoadIgnoresFileGivenDictionary | src/settings/manager.py:35-37 | with a non-empty argument the file plays no part |
| Manager.LoadSource | src/settings/manager.py:35-37 | the dictionary comes from the argument unless it is `None` or empty; else a missing file is `FileNotFoundError` and unparsable text a decode error |
| Manager.LoadResult | src/settings/manager.py:32-51 | `load` step by step: the source, the first validation (a failure keeps the old settings), the validation of the cleaned dictionary (a failure keeps the first result), then the save |
| Manager.LoadWithRejectedUrl | src/settings/manager.py:38-45 | a dictionary whose `api_url` the validator rejects makes `load` fail, holding and saving nothing new; a request `ValueError` becomes a validation error quoting the request's text, re-raised with "Validation error: "; otherwise the validator's own exception escapes: the request's error for an unreachable host, `RagnarException("Ollama is not running")` without any prefix for a missing banner |
| Manager.LoadOutcomes | src/settings/manager.py:32-51 | `load` saves exactly when nothing failed, and then holds the validation of the cleaned dictionary; a missing file exactly when reading from an absent file; a decode failure exactly when the file does not parse |
| Manager.SettingsManager.constructor | src/settings/manager.py:14-24 | an absent file gets the defaults, written to the file; a present file is loaded, and the exception that escapes is `Escaping` of the load's failure, prefixed or the validator's own |
| Manager.SettingsManager.CleanSettings | src/settings/manager.py:26-30 | holds the validation of the filtered dictionary; a validation error or a validator exception is reported and the settings are kept |
| Manager.SettingsManager.Load | src/settings/manager.py:32-51 | the new settings, file and writes are those of `LoadResult`'s step, and the exception raised is `Escaping` of its failure |
| Manager.SettingsManager.Save | src/settings/manager.py:53-56 | the file holds the dump of the settings, and the write is recorded |
| Ollama.CreateModelInfo | src/ai/ollama_client.py:74-87 | name, digest and details copied; `modified_at` is the part before the first `T`, so it is a prefix of the timestamp with no `T` |
| Ollama.Deduplicated | src/ai/ollama_client.py:44-50 | the same elements as the input, with no repeats |
| Ollama.DeduplicatedKeepsFirstSeenOrder | src/ai/ollama_client.py:44-50 | the elements come in the order of their first occurrence in the input |
| Ollama.BlockLines | src/ai/ollama_client.py:215-228 | a resident model's block has twelve newline-terminated lines, the first naming it |
| Ollama.FormatBlock | src/ai/ollama_client.py:215-228 | every block starts with "Name: " |
| Ollama.BlocksTextStartsWithName | src/ai/ollama_client.py:229-231 | the joined blocks of a non-empty answer start with "Name: " |
| Ollama.RunningTextIsSentinelIffNoneResident | src/ai/ollama_client.py:204-234 | the answer is empty or the sentinel exactly when nothing is resident; a failure gives the "Error listing running models: " text |
| Ollama.RunningModelsText | src/ai/ollama_client.py:204-234 | the answer of `list_running_models` for each `ps` outcome: the error text, the sentinel, or the blank-line joined blocks |
| Ollama.FormatRunning | src/ai/ollama_client.py:212-231 | the loop yields the blocks of all resident models joined by a blank line |
| Ollama.Bootstrapped | src/ai/ollama_client.py:28-72 | the constructor as a function of the set-up, the listing, the `ps` answer and how the bootstrap's pull and load end; its properties are the lemmas below |
| Ollama.BootstrapFollowsSetup | src/ai/ollama_client.py:34-62 | a failing wrapper or `_ollama` escapes with no backend call; otherwise the first call is the listing; `ps` is called exactly when `self.client` was assigned; without it only the listing call is made, and the running entry is the last listed model or the unbound loop variable escapes |
| Ollama.Provisioned | src/ai/ollama_client.py:52-72 | the bootstrap branch: the running entry from the leftover loop variable, or load the first available model, or pull then load `llama3.2`; a raising pull skips the load, and what raises is the failure |
| Ollama.BootstrapRegistry | src/ai/ollama_client.py:44-50 | the registry holds each distinct listed record once, in first-seen order |
| Ollama.BootstrapLoadsFirstAvailable | src/ai/ollama_client.py:52-67 | `self.client` assigned, nothing resident and a non-empty registry: exactly list, ps, `Load(first)`; no pull; nothing running; the constructor fails exactly when the load raises, with the load's error |
| Ollama.BootstrapPullsFallback | src/ai/ollama_client.py:52-72 | `self.client` assigned, nothing resident and nothing listed: list, ps, `Pull("llama3.2")`, and `Load("llama3.2")` only when the pull returned; a raising pull or load is the constructor's failure; no failure exactly when both return |
| Ollama.BootstrapRunningAtMostOne | src/ai/ollama_client.py:52-72 | at most one running entry; none when the bootstrap loaded a model; none unless something is resident, `ps` failed or `self.client` is unassigned |
| Ollama.BootstrapRunningIsLastListed | src/ai/ollama_client.py:44-60 | when a model is resident, the running entry is built from the last listed model |
| Ollama.ChatOutcome | src/ai/ollama_client.py:126-135 | what `chat` returns once the SDK was called: a streamed call gets the lazy stream and raises nothing yet; a non-streamed refusal is the re-raised `ResponseError`; the whole response for `stream=True`, else `response["message"]`, which fails on a stream |
| Ollama.ChatReturnShape | src/ai/ollama_client.py:126-135 | for every backend answer: the caller's flag decides the shape, the whole response (the unread stream) exactly for `stream=True`, else the reply message; `NotSubscriptable` exactly when no flag is given and the default streams; `ResponseError` exactly for a refused call sent without streaming |
| Ollama.SearchReply | src/ai/ollama_client.py:239-242 | never empty; a truthy answer passes unchanged, a falsy one becomes "No results found for user query." |
| Ollama.ModelNames | src/ai/ollama_client.py:169 | the listed names, one per model, in order |
| Ollama.OllamaClient.constructor | src/ai/ollama_client.py:28-72 | keeps the settings object it is given; `initialized` exactly when every set-up step succeeded; registry, calls and escaping exception are those of `Bootstrapped`, for each way the set-up can fail and each way a pull or load ends |
| Ollama.OllamaClient.Survey | src/ai/ollama_client.py:44-72 | after the listing call: the state `Bootstrapped` gives for that listing |
| Ollama.OllamaClient.ProbeRunning | src/ai/ollama_client.py:204-234 | the constructor's `list_running_models`: one ps call and its text when `self.client` is assigned; otherwise no call and the error text of the unassigned attribute |
| Ollama.OllamaClient.RegisterAvailable | src/ai/ollama_client.py:44-50 | the listing loop leaves the deduplicated list of the listed records |
| Ollama.OllamaClient.Provision | src/ai/ollama_client.py:52-72 | the bootstrap branch leaves the state `Provisioned` describes, ending at the first pull or load that raises |
| Ollama.OllamaClient.Chat | src/ai/ollama_client.py:100-135 | not initialised: fails with no call; with tools: `AttributeError` with no call; otherwise one chat call with the configured model, the caller's messages and the caller's flag or the default, result as `ChatOutcome` (a streamed call returns the unread stream or fails on indexing it) |
| Ollama.OllamaClient.ListModels | src/ai/ollama_client.py:165-172 | one list call; the names, or the backend error re-raised |
| Ollama.OllamaClient.ShowModel | src/ai/ollama_client.py:149-154 | an unlisted name gets "Model {name} not found" with no show call; a listed one gets the details after one show call |
| Ollama.OllamaClient.ListRunningModels | src/ai/ollama_client.py:204-234 | one ps call, never an exception; the text of `RunningModelsText` |
| Ollama.OllamaClient.WebSearch | src/ai/ollama_client.py:236-242 | one agent search; the reply of `SearchReply` |
| Ollama.OllamaClient.PullModel | src/ai/ollama_client.py:174-180 | exactly one `Pull` call; the backend's error is re-raised |
| Ollama.OllamaClient.LoadModel | src/ai/ollama_client.py:244-246 | exactly one `Load` call; it ends as the backend's answer does |
| Ollama.OllamaClient.UnloadModel | src/ai/ollama_client.py:248-250 | exactly one `Unload` call; it ends as the backend's answer does |
| Services.SetupFailureLine | src/services/base.py:21-22 | the logged line starts with "Failed to initialize " |
| Services.BaseService.constructor | src/services/base.py:12-22 | `initialized` exactly when `setup()` returned a truthy value; `running` whatever happened; a raised exception is logged and does not escape; the client is stored |
| Services.BaseService.Stop | src/services/base.py:34-38 | `running` is false, and it was already false at the join |
| Discord.DefaultConfigurationIsInvalid | src/services/discord.py:40-45 | the default (empty) token fails `validate`; a token passes exactly when non-empty |
| Discord.Route | src/services/discord.py:103-113 | the text is shown unchanged; an embed titled "Ragnar's response" in colour 0xF1C40F exactly when longer than 2000 |
| Discord.MentionTag | src/services/discord.py:76-77 | the tag is exactly "<@" + the bot's id + ">", so it is non-empty and starts with "<@" |
| Discord.StrippedPrompt | src/services/discord.py:76-78 | the content with every `<@id>` mention of the bot removed, then stripped |
| Discord.LeadingMentionRemoved | src/services/discord.py:76-78 | a leading mention before mention-free text leaves that text, stripped |
| Discord.PromptIsTrimmed | src/services/discord.py:76-78 | content without a mention is only stripped; every prompt is already stripped |
| Discord.MentionPrompt | src/services/discord.py:72-78 | a prompt exactly for another user's message that mentions the bot; the prompt is `StrippedPrompt` of the content, and it is stripped |
| Discord.UserChat | src/services/discord.py:80-82 | the call the handlers make: the configured model, one user message carrying the prompt, the configured `stream` flag |
| Discord.PlainChat | src/services/discord.py:80-83 | what the handlers get from `chat`: with streaming configured always `NotSubscriptable`, otherwise the backend's message or its re-raised refusal |
| Discord.PlainChatAgrees | src/services/discord.py:80-83 | `PlainChat` is `chat`'s result for the handlers' call; never the whole response; with streaming on it fails whatever the backend would answer; with it off it succeeds exactly when the backend answers |
| Discord.ChatCommandReply | src/services/discord.py:96-113 | a falsy response gets the apology; otherwise the content, routed by length |
| Discord.SetModelText | src/services/discord.py:156-158 | every caught failure is reported after "Unable to set model: " |
| Discord.WithModel | src/services/discord.py:151 | only the Ollama model name changes |
| Discord.SetModelResult | src/services/discord.py:141-158 | the reply for a listing, a requested model and the manager's settings: the listing's error, the second-response error for an unlisted model, the unassigned settings, or the missing `reload` |
| Discord.SetModelNeverConfirms | src/services/discord.py:138-158 | for every listing, model and settings the reply is an "Unable to set model" text and never "Model set to …"; the save is reached exactly for a listed model with settings present |
| Discord.DiscordService.constructor | src/services/discord.py:12-25 | `initialized` and set-up exactly when the token validates |
| Discord.DiscordService.Stop | src/services/discord.py:190-195 | returns without effect exactly when not initialised; otherwise the `AttributeError` on `running` |
| Discord.DiscordService.OnMessage | src/services/discord.py:70-84 | ignores the bot's own and unmentioning messages with no call; otherwise, when the client is initialised, exactly one chat call carrying `StrippedPrompt` of the content as the user message; the reply is the content of `chat`'s answer or its exception |
| Discord.DiscordService.Ask | src/services/discord.py:80-83 | when initialised exactly one chat call carrying the prompt as the one user message, none otherwise; the answer of `PlainChat` |
| Discord.DiscordService.ChatCommand | src/services/discord.py:89-113 | when initialised exactly one chat call carrying the command's message, none otherwise; the reply is the routed answer, or `chat`'s exception |
| Discord.DiscordService.PsCommand | src/services/discord.py:115-121 | one list call; "Available models: " and the comma-joined names |
| Discord.DiscordService.WebSearchCommand | src/services/discord.py:160-176 | one search; the non-empty reply, routed by length |
| Discord.DiscordService.SetModelCommand | src/services/discord.py:138-158 | the reply is `SetModelResult`; when the save is not reached nothing changes; when it is, the manager holds the settings with the new model, saved, and the client's settings carry the new model too; a client and manager that share the Ollama section still share it |
| Orchestration.AnyValid | src/program.py:37-41 | true exactly when some service validates; false with no services |
| Orchestration.FirstValid | src/program.py:58-59 | the first poll at which the gate holds, none failing before it |
| Orchestration.JobFor | src/program.py:79-89 | id and function are the name; interval trigger with the configured seconds and args; `max_instances` defaults to 1; replace, first run now, grace 30 |
| Orchestration.AddJob | src/program.py:79-89 | the added job is registered |
| Orchestration.AddJobKeepsOthers | src/program.py:79-89 | jobs with other ids stay, nothing else comes in, and ids stay unique |
| Orchestration.ScheduledRegistersEach | src/program.py:74-92 | every table entry gets its job, ids stay unique |
| Orchestration.DefaultSchedule | src/program.py:76-89 | the program's table yields exactly the hourly `log_cleaner` job |
| Orchestration.WaitTail | src/program.py:53-56 | the only event of waiting is the warning |
| Orchestration.StartGate | src/program.py:53-72 | no service starts during the wait; every service starts in order after it; the warning exactly when the first check fails |
| Orchestration.ServiceStopsExactlyInitialized | src/program.py:115-117 | the services stopped are exactly the initialised ones |
| Orchestration.StopPhasesInOrder | src/program.py:110-122 | unloads, then service stops, then the scheduler shutdown |
| Orchestration.StopCoversServicesAndModels | src/program.py:110-117 | all running models unloaded first, in order; exactly the initialised services stopped |
| Orchestration.StopEvents | src/program.py:110-122 | the events of a `stop` where nothing raises: the unloads, the initialised services' stops, the shutdown if the scheduler runs, the final line |
| Orchestration.FirstRaise | src/program.py:110-117 | the first call that raises: all before it return, and it raises |
| Orchestration.UnloadPhase | src/program.py:110-113 | the unload loop: each running model logged and unloaded up to and including the first unload that raises, whose error ends the loop |
| Orchestration.ServicePhase | src/program.py:115-117 | the service loop: each initialised service stopped up to and including the first `stop()` that raises, whose error ends the loop |
| Orchestration.StopRun | src/program.py:110-122 | `stop` on an initialised program: the unload phase; the service phase only when no unload raised; the shutdown and the final line only when nothing raised |
| Orchestration.StopRunCompletes | src/program.py:110-122 | `stop` ends without an exception exactly when every unload and every initialised service's `stop()` returns, and then its events are `StopEvents` and its calls one unload per running model |
| Orchestration.StopRunIsPrefix | src/program.py:110-122 | whatever raises, the events are a prefix of `StopEvents` and the calls a prefix of the unloads; a failed stop has no shutdown and no final line; a raising unload means no service was stopped |
| Orchestration.UnloadPhaseIsPrefix | src/program.py:110-113 | the unload loop's events and calls are prefixes of the full unloads, of equal length |
| Orchestration.ServicePhaseIsPrefix | src/program.py:115-117 | the service loop's events are a prefix of the full service stops, all of them when nothing raised |
| Orchestration.UnloadsAllDone | src/program.py:110-113 | an unload loop that ended without an exception unloaded every running model, and none raised |
| Orchestration.SecondStopRepeats | src/program.py:103-122 | a second `stop` repeats the unloads and service stops, with no shutdown |
| Orchestration.Program.constructor | src/program.py:18-35 | takes a client whose constructor returned; without an initialised client the table stays unassigned and the failure is logged; otherwise an empty table |
| Orchestration.Program.Start | src/program.py:43-72 | the version error escapes with nothing done and the file unchanged; an absent file then holds the dump of the settings, a present one is unchanged; started (and `initialized`) exactly when the gate opens, with the scheduler running the job table |
| Orchestration.Program.SaveIfAbsent | src/program.py:48-51 | an absent file then holds the dump of the held settings, with the write recorded; a present file is unchanged |
| Orchestration.Program.Launch | src/program.py:53-72 | started exactly when the gate opens; then services, thread and scheduler started in order |
| Orchestration.Program.Gate | src/program.py:53-59 | ready exactly when some waiting-loop poll validates; the warning exactly when the first check fails |
| Orchestration.Program.StartScheduler | src/program.py:65-70 | the scheduler holds the scheduled jobs and runs; thread started before scheduler |
| Orchestration.Program.StartServices | src/program.py:61-63 | one start per service, in order |
| Orchestration.Program.AwaitConfiguration | src/program.py:58-59 | the loop ends ready exactly when some later poll validates |
| Orchestration.Program.ScheduleFunctions | src/program.py:74-92 | the scheduler's jobs become the table registered over the old jobs |
| Orchestration.Program.Run | src/program.py:94-101 | `running` is set and "listening" is logged |
| Orchestration.Program.Stop | src/program.py:103-122 | `running` always cleared; uninitialised: no calls and no exception; else the events, calls and exception of `StopRun`, and the scheduler is shut down only when nothing raised |
| Orchestration.Program.FinishStop | src/program.py:115-122 | after the unloads: the events and exception of `ServicePhase`; the scheduler shutdown (when it runs) and the final line only when no service's `stop()` raised |
| Orchestration.Program.UnloadAll | src/program.py:110-113 | the events, unload calls and exception of `UnloadPhase` |
| Orchestration.Program.StopServices | src/program.py:115-117 | the events and exception of `ServicePhase` |

## Left out

- The Ollama SDK, `llm_axe` (chat wrapper, online agent, PDF reader) and the Discord client are external libraries. Their calls are trace events. What the list, ps, chat and search calls answer is a parameter, and so is whether a pull, load, unload or service `stop()` raises.
- Ollama.OllamaClient.ShowModel: the backend's `show` call is taken to return its details; a `show` that raises is not modelled.
- Ollama.OllamaClient.WebSearch: the agent's search is taken to return an answer; a search that raises is not modelled.
- A set-up failure that leaves `self.client` or `self.online_agent` unassigned makes the later methods that read them raise `AttributeError`. For `list_models`, `pull_model`, `load_model` and `unload_model` that is the failing case of their answer parameter (`ListFailed`, `Raises`); which attribute was missing is not recorded.
- `generate`, `create_model`, `copy_model`, `delete_model` and `generate_embeddings` only forward to the SDK.
- `OllamaClient.validate` reads `self.session`, which is never assigned. It always fails and nothing calls it.
- `ModelInfo.__hash__` is never used by the list-based membership test.
- Ollama.CreateModelInfo: the float size in GB rounded to two decimals is an abstract `roundGB` parameter, because floating point is out of scope.
- `OllamaOptions`, `temperature` and `set_temperature_command` are floating-point settings.
- The JSON parser, pydantic validation and `model_dump_json` are the `Toolkit` parameters. `Json` numbers are integers.
- Manager.LoadWithRejectedUrl: only an `api_url` given as text is followed into the validator. A non-text value makes `startswith` raise `AttributeError`; that path is not modelled.
- Manager.SettingsManager.constructor: creating the data directory is filesystem I/O and not modelled.
- Orchestration.Program.Start: its `os.makedirs(DATA_DIR, exist_ok=True)` is filesystem I/O and not modelled.
- Threads, `time.sleep` and APScheduler's timing are out of scope:
  - Orchestration.Program.Run: the loop that sleeps while `running` holds is not modelled.
  - Orchestration.Program.AwaitConfiguration: the waiting loop is driven by a finite sequence of `validate()` answers. Running out of them means still waiting.
  - APScheduler's misfire handling and `max_instances` enforcement belong to the library.
- Orchestration.Program.constructor: the creation of the Discord service and its blocking `client.run` are not modelled. The service table stays as the code leaves it: unassigned, or empty.
- Orchestration.Program.Start: takes what `get_version` returned rather than the text of pyproject.toml. Reading the file is I/O, and `Version.GetVersion` covers the search.
- Discord.DiscordService.OnMessage: requires a client. With none, the source raises `AttributeError` when calling `chat`; that path is not modelled.
- Discord.DiscordService.Ask: requires a client, for the same reason.
- Discord.DiscordService.ChatCommand: requires a client, for the same reason.
- Discord.DiscordService.PsCommand: requires a client, for the same reason.
- Discord.DiscordService.WebSearchCommand: requires a client, for the same reason.
- Discord.DiscordService.SetModelCommand: requires a client, for the same reason.
- Discord.DiscordService.SetModelCommand: the client's settings track the manager's through this command only. A later `load` would replace the manager's settings object and end the sharing; nothing in the modelled code calls `load` after start-up.
- Discord.ChatCommandReply: the answer of `chat` is always a truthy message object, so the apology branch is modelled but no handler reaches it.
- The asyncio clean-up in `DiscordService.stop`, `on_ready`/`on_error` and the logging calls are event-loop plumbing and log output.
- The bot's id is its decimal text, and mention detection (`mentioned_in`) is an input.
- src/utils/logger.py and src/main.py are not part of this model: they are logging set-up, a file sweep and process signal handling.
