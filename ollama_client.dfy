/** The model provisioner of src/ai/ollama_client.py. The Ollama backend is
    outside the model: every call the client makes to it is appended to a
    ghost `trace`, and what the backend answers is passed in as a parameter. */
module Ollama {
  import opened Results
  import opened Strings
  import opened SettingsModels

  /** The `details` part of one entry of the backend's model listing. */
  datatype RawDetails = RawDetails(parameterSize: string, quantizationLevel: string)

  /** One entry of the backend's model listing; `size` is in bytes. */
  datatype RawModel = RawModel(name: string, size: nat, modifiedAt: string, digest: string, details: RawDetails)

  /** `ModelInfo`. `sizeGB` is the rounded size in hundredths of a gigabyte;
      the rounding is floating point in the source and is passed in as
      `roundGB`. Two values are equal when all fields are, as for the pydantic
      model. */
  datatype ModelInfo = ModelInfo(
    name: string,
    parameterSize: string,
    quantizationLevel: string,
    sizeGB: nat,
    modifiedAt: string,
    digest: string)

  /** One entry of the backend's resident-model (`ps`) answer, each field as
      the text it is formatted with. */
  datatype RunningRecord = RunningRecord(
    name: string,
    model: string,
    size: string,
    digest: string,
    parentModel: Option<string>,
    format: string,
    family: string,
    families: seq<string>,
    parameterSize: string,
    quantizationLevel: string,
    expiresAt: string,
    sizeVram: string)

  /** What the backend answers to `list()`. */
  datatype ListAnswer = ListFailed(detail: string) | Listed(models: seq<RawModel>)

  /** What the backend answers to `ps()`. */
  datatype PsAnswer = PsFailed(detail: string) | PsListed(models: seq<RunningRecord>)

  /** How the SDK set-up in the constructor's `try` went, by the step that
      raised: none; the chat wrapper itself, so `llm_axe` is never assigned;
      the `ollama.Client`, so `self.client` is never assigned; reading the
      wrapper's `_ollama`, which the listing reads again; or the search agent
      or the PDF reader, after `self.client` is assigned. */
  datatype SdkSetup = SetupOk | WrapperFailed | ClientFailed | HandleMissing | AgentFailed

  /** The steps of the set-up up to the one that raised ran, so the client
      reaches the listing call. */
  predicate ReachesListing(setup: SdkSetup) {
    !setup.WrapperFailed? && !setup.HandleMissing?
  }

  /** `self.client` is assigned, so `list_running_models` makes its `ps` call. */
  predicate HasClient(setup: SdkSetup) {
    setup.SetupOk? || setup.AgentFailed?
  }

  /** The exception that escapes the constructor: `llm_axe` unassigned, the
      wrapper without `_ollama`, the listing call raising, the stale loop
      variable `model` unbound, or the bootstrap's pull or load raising. */
  datatype InitFailure =
    | NoChatWrapper
    | NoOllamaHandle
    | ListingFailed(detail: string)
    | StaleModelUnbound
    | PullFailed(detail: string)
    | LoadFailed(detail: string)

  datatype Tool = Tool(name: string)

  datatype Message = Message(role: string, content: string)

  /** The calls the client makes to the backend and to the search agent. */
  datatype BackendCall =
    | List
    | Ps
    | Show(name: string)
    | Pull(name: string)
    | Load(name: string)
    | Unload(name: string)
    | Chat(model: string, messages: seq<Message>, stream: bool)
    | AgentSearch(query: string)

  const NoModelsLoaded: string := "No models are currently loaded in memory."
  /** The text of the `AttributeError` for an unassigned `self.client`. */
  const ClientUnset: string := "'OllamaClient' object has no attribute 'client'"
  const PsErrorPrefix: string := "Error listing running models: "
  const NoResults: string := "No results found for user query."
  const FallbackModel: string := "llama3.2"
  const BlockSeparator: string := "\n\n"

  /** `_create_model_info`: the date part of `modified_at` is everything before
      the first `T`. */
  function CreateModelInfo(raw: RawModel, roundGB: nat -> nat): (info: ModelInfo)
    ensures info.name == raw.name && info.digest == raw.digest
    ensures info.parameterSize == raw.details.parameterSize
    ensures info.quantizationLevel == raw.details.quantizationLevel
    ensures info.sizeGB == roundGB(raw.size)
    ensures StartsWith(raw.modifiedAt, info.modifiedAt) && 'T' !in info.modifiedAt
    ensures |info.modifiedAt| < |raw.modifiedAt| ==> raw.modifiedAt[|info.modifiedAt|] == 'T'
  {
    ModelInfo(
      raw.name,
      raw.details.parameterSize,
      raw.details.quantizationLevel,
      roundGB(raw.size),
      BeforeFirst(raw.modifiedAt, 'T'),
      raw.digest)
  }

  /** The `ModelInfo` of every listed model, in listing order. */
  function Infos(raws: seq<RawModel>, roundGB: nat -> nat): (infos: seq<ModelInfo>)
    ensures |infos| == |raws|
  {
    seq(|raws|, k requires 0 <= k < |raws| => CreateModelInfo(raws[k], roundGB))
  }

  /** The index of the first occurrence of `x`. */
  function FirstIndex(s: seq<ModelInfo>, x: ModelInfo): (i: nat)
    requires x in s
    ensures i < |s| && s[i] == x && x !in s[..i]
  {
    if s[0] == x then 0 else 1 + FirstIndex(s[1..], x)
  }

  /** The list the constructor's loop builds: each element appended unless an
      equal one is already there. */
  function Deduplicated(s: seq<ModelInfo>): (r: seq<ModelInfo>)
    ensures forall x :: x in r <==> x in s
    ensures forall i, j :: 0 <= i < j < |r| ==> r[i] != r[j]
    decreases |s|
  {
    if s == [] then []
    else
      var d := Deduplicated(s[..|s| - 1]);
      assert s == s[..|s| - 1] + [s[|s| - 1]];
      if s[|s| - 1] in d then d else d + [s[|s| - 1]]
  }

  /** The first occurrence of an element of a prefix is found in the prefix. */
  lemma FirstIndexInPrefix(s: seq<ModelInfo>, n: nat, x: ModelInfo)
    requires n <= |s| && x in s[..n]
    ensures FirstIndex(s, x) == FirstIndex(s[..n], x)
  {
  }

  /** Extending the input at the end keeps the first indices of what was
      already there. */
  lemma FirstIndicesOfPrefix(s: seq<ModelInfo>, d: seq<ModelInfo>)
    requires |s| >= 1
    requires forall x :: x in d ==> x in s[..|s| - 1] && x in s
    requires FirstSeenOrdered(s[..|s| - 1], d)
    ensures forall i :: 0 <= i < |d| ==> FirstIndex(s, d[i]) == FirstIndex(s[..|s| - 1], d[i]) < |s| - 1
    ensures forall i, j :: 0 <= i < j < |d| ==> FirstIndex(s, d[i]) < FirstIndex(s, d[j])
  {
    forall i | 0 <= i < |d| ensures FirstIndex(s, d[i]) == FirstIndex(s[..|s| - 1], d[i]) < |s| - 1 {
      FirstIndexInPrefix(s, |s| - 1, d[i]);
    }
  }

  /** A last element not seen before has its first occurrence at the end. */
  lemma FirstIndexOfNewLast(s: seq<ModelInfo>)
    requires |s| >= 1 && s[|s| - 1] !in s[..|s| - 1]
    ensures FirstIndex(s, s[|s| - 1]) == |s| - 1
  {
  }

  /** `r` lists elements of `s` in the order of their first occurrence in `s`. */
  ghost predicate FirstSeenOrdered(s: seq<ModelInfo>, r: seq<ModelInfo>)
    requires forall x :: x in r ==> x in s
  {
    forall i, j :: 0 <= i < j < |r| ==> FirstIndex(s, r[i]) < FirstIndex(s, r[j])
  }

  /** The deduplicated list keeps first-seen order: its elements appear in the
      order of their first occurrence in the input. */
  lemma {:induction false} DeduplicatedKeepsFirstSeenOrder(s: seq<ModelInfo>)
    ensures FirstSeenOrdered(s, Deduplicated(s))
    decreases |s|
  {
    if s != [] {
      var n := |s| - 1;
      var d := Deduplicated(s[..n]);
      DeduplicatedKeepsFirstSeenOrder(s[..n]);
      FirstIndicesOfPrefix(s, d);
      if s[n] !in d {
        FirstIndexOfNewLast(s);
        var r := d + [s[n]];
        assert forall i :: 0 <= i < |d| ==> r[i] == d[i];
      }
    }
  }

  /** The lines of one resident model's block in `list_running_models`,
      each ended by a newline (hence the empty last part). */
  function BlockLines(m: RunningRecord): (lines: seq<string>)
    ensures |lines| == 13 && lines[0] == "Name: " + m.name
  {
    var parent := if m.parentModel.Some? then m.parentModel.value else "N/A";
    [ "Name: " + m.name,
      "Model: " + m.model,
      "Size: " + m.size + " bytes",
      "Digest: " + m.digest,
      "Parent Model: " + parent,
      "Format: " + m.format,
      "Family: " + m.family,
      "Families: " + Join(m.families, ", "),
      "Parameter Size: " + m.parameterSize,
      "Quantization Level: " + m.quantizationLevel,
      "Expires At: " + m.expiresAt,
      "Size VRAM: " + m.sizeVram + " bytes",
      "" ]
  }

  /** The text of one resident model in `list_running_models`. */
  function FormatBlock(m: RunningRecord): (text: string)
    ensures StartsWith(text, "Name: ")
  {
    var lines := BlockLines(m);
    JoinStartsWithFirst(lines, "\n");
    assert lines[0][..6] == "Name: ";
    Join(lines, "\n")
  }

  /** One formatted block per resident model, in order. */
  function Blocks(models: seq<RunningRecord>): (blocks: seq<string>)
    ensures |blocks| == |models|
  {
    seq(|models|, i requires 0 <= i < |models| => FormatBlock(models[i]))
  }

  /** What `list_running_models` returns for a `ps` answer. */
  function RunningModelsText(ps: PsAnswer): string {
    match ps
    case PsFailed(d) => PsErrorPrefix + d
    case PsListed(ms) => if ms == [] then NoModelsLoaded else Join(Blocks(ms), BlockSeparator)
  }

  /** `list_running_models` answers the empty text or the "nothing loaded"
      sentinel exactly when the backend reports no resident model; a failure
      gives a text that is neither. */
  lemma RunningTextIsSentinelIffNoneResident(ps: PsAnswer)
    ensures var t := RunningModelsText(ps);
      (t == "" || t == NoModelsLoaded) <==> ps == PsListed([])
    ensures ps.PsFailed? ==> StartsWith(RunningModelsText(ps), PsErrorPrefix)
  {
    var t := RunningModelsText(ps);
    match ps
    case PsFailed(d) =>
      PrefixedStartsWith(PsErrorPrefix, d);
      DiffersFrom(t, PsErrorPrefix, NoModelsLoaded, 0);
    case PsListed(ms) =>
      if ms != [] {
        BlocksTextStartsWithName(ms);
        DiffersFrom(t, "Name: ", NoModelsLoaded, 1);
      }
  }

  lemma BlocksTextStartsWithName(ms: seq<RunningRecord>)
    requires ms != []
    ensures StartsWith(Join(Blocks(ms), BlockSeparator), "Name: ")
  {
    var blocks := Blocks(ms);
    JoinStartsWithFirst(blocks, BlockSeparator);
    assert StartsWith(blocks[0], "Name: ");
    var t := Join(blocks, BlockSeparator);
    assert t[..|blocks[0]|] == blocks[0];
    assert t[..6] == blocks[0][..6];
  }

  /** The formatting loop of `list_running_models`. */
  method FormatRunning(models: seq<RunningRecord>) returns (text: string)
    ensures text == Join(Blocks(models), BlockSeparator)
  {
    var formatted: seq<string> := [];
    for i := 0 to |models|
      invariant |formatted| == i
      invariant forall k :: 0 <= k < i ==> formatted[k] == FormatBlock(models[k])
    {
      formatted := formatted + [FormatBlock(models[i])];
    }
    assert formatted == Blocks(models);
    text := Join(formatted, BlockSeparator);
  }

  /** The state the constructor leaves: the registry lists, the backend calls
      made, and the exception that escaped, if any. */
  datatype Registry = Registry(
    available: seq<ModelInfo>,
    running: seq<ModelInfo>,
    calls: seq<BackendCall>,
    failure: Option<InitFailure>)

  /** What `list_running_models` meets in the constructor: the backend's `ps`
      answer, or, with `self.client` unassigned, the attribute error it
      raises before any call. */
  function Probed(setup: SdkSetup, ps: PsAnswer): PsAnswer {
    if HasClient(setup) then ps else PsFailed(ClientUnset)
  }

  /** The calls `list_running_models` makes in the constructor. */
  function ProbeCalls(setup: SdkSetup): seq<BackendCall> {
    if HasClient(setup) then [Ps] else []
  }

  /** The constructor as a function of what the SDK and the backend answer;
      `pull` and `load` are how the bootstrap's pull and load calls end.
      As in the source, the running entry is built from the last listed model
      (the leftover loop variable), not from the `ps` answer. */
  function Bootstrapped(setup: SdkSetup, listing: ListAnswer, ps: PsAnswer, pull: Ack, load: Ack, roundGB: nat -> nat): Registry {
    if setup.WrapperFailed? then Registry([], [], [], Some(NoChatWrapper))
    else if setup.HandleMissing? then Registry([], [], [], Some(NoOllamaHandle))
    else if listing.ListFailed? then Registry([], [], [List], Some(ListingFailed(listing.detail)))
    else
      var raws := listing.models;
      Provisioned(Deduplicated(Infos(raws, roundGB)), raws, RunningModelsText(Probed(setup, ps)), [List] + ProbeCalls(setup), pull, load, roundGB)
  }

  /** The failure of a bootstrap load that ends as `load` says. */
  function LoadFailure(load: Ack): Option<InitFailure> {
    if load.Raises? then Some(LoadFailed(load.detail)) else None
  }

  /** The constructor after the listing loop: `text` is what
      `list_running_models` answered and `calls` the calls made so far. A pull
      that raises ends the constructor before the load. */
  function Provisioned(available: seq<ModelInfo>, raws: seq<RawModel>, text: string, calls: seq<BackendCall>, pull: Ack, load: Ack, roundGB: nat -> nat): Registry {
    if text != "" && text != NoModelsLoaded then
      if raws == [] then Registry(available, [], calls, Some(StaleModelUnbound))
      else Registry(available, [CreateModelInfo(raws[|raws| - 1], roundGB)], calls, None)
    else if available != [] then Registry(available, [], calls + [Load(available[0].name)], LoadFailure(load))
    else if pull.Raises? then Registry(available, [], calls + [Pull(FallbackModel)], Some(PullFailed(pull.detail)))
    else Registry(available, [], calls + [Pull(FallbackModel), Load(FallbackModel)], LoadFailure(load))
  }

  /** The registry holds one entry per distinct listed `ModelInfo`, with no
      repeats, in first-seen order. */
  lemma BootstrapRegistry(setup: SdkSetup, listing: ListAnswer, ps: PsAnswer, pull: Ack, load: Ack, roundGB: nat -> nat)
    requires ReachesListing(setup) && listing.Listed?
    ensures var reg := Bootstrapped(setup, listing, ps, pull, load, roundGB); var infos := Infos(listing.models, roundGB);
      && (forall x :: x in reg.available <==> x in infos)
      && (forall i, j :: 0 <= i < j < |reg.available| ==> reg.available[i] != reg.available[j])
      && FirstSeenOrdered(infos, reg.available)
  {
    var infos := Infos(listing.models, roundGB);
    ProvisionedKeepsAvailable(Deduplicated(infos), listing.models, RunningModelsText(Probed(setup, ps)), [List] + ProbeCalls(setup), pull, load, roundGB);
    DeduplicatedKeepsFirstSeenOrder(infos);
  }

  lemma ProvisionedKeepsAvailable(available: seq<ModelInfo>, raws: seq<RawModel>, text: string, calls: seq<BackendCall>, pull: Ack, load: Ack, roundGB: nat -> nat)
    ensures Provisioned(available, raws, text, calls, pull, load, roundGB).available == available
  {
  }

  /** With no resident model and a non-empty registry, bootstrap loads the
      first available model and pulls nothing; a load that raises escapes the
      constructor. */
  lemma BootstrapLoadsFirstAvailable(setup: SdkSetup, listing: ListAnswer, pull: Ack, load: Ack, roundGB: nat -> nat)
    requires HasClient(setup) && listing.Listed?
    requires Deduplicated(Infos(listing.models, roundGB)) != []
    ensures var reg := Bootstrapped(setup, listing, PsListed([]), pull, load, roundGB);
      && reg.calls == [List, Ps, Load(reg.available[0].name)]
      && reg.running == []
      && (reg.failure == None <==> load == Done)
      && (load.Raises? ==> reg.failure == Some(LoadFailed(load.detail)))
  {
    RunningTextIsSentinelIffNoneResident(PsListed([]));
  }

  /** With no resident model and nothing listed, bootstrap pulls the fallback
      model and then loads it; a pull that raises ends the constructor before
      the load, and a load that raises escapes it. */
  lemma BootstrapPullsFallback(setup: SdkSetup, pull: Ack, load: Ack, roundGB: nat -> nat)
    requires HasClient(setup)
    ensures var reg := Bootstrapped(setup, Listed([]), PsListed([]), pull, load, roundGB);
      && reg.available == [] && reg.running == []
      && (pull.Raises? ==> reg.calls == [List, Ps, Pull(FallbackModel)] && reg.failure == Some(PullFailed(pull.detail)))
      && (pull == Done ==> reg.calls == [List, Ps, Pull(FallbackModel), Load(FallbackModel)])
      && (pull == Done && load.Raises? ==> reg.failure == Some(LoadFailed(load.detail)))
      && (reg.failure == None <==> pull == Done && load == Done)
  {
    RunningTextIsSentinelIffNoneResident(PsListed([]));
  }

  /** At most one model is recorded as running, and a model loaded by the
      bootstrap itself is never recorded as running. */
  lemma BootstrapRunningAtMostOne(setup: SdkSetup, listing: ListAnswer, ps: PsAnswer, pull: Ack, load: Ack, roundGB: nat -> nat)
    ensures var reg := Bootstrapped(setup, listing, ps, pull, load, roundGB);
      && |reg.running| <= 1
      && ((exists n :: Load(n) in reg.calls) ==> reg.running == [])
      && (reg.running != [] ==> ps != PsListed([]) || setup.ClientFailed?)
  {
    RunningTextIsSentinelIffNoneResident(Probed(setup, ps));
  }

  /** When a model is resident, the entry recorded as running is built from the
      last listed model, whichever model the backend reports as resident. */
  lemma BootstrapRunningIsLastListed(setup: SdkSetup, raws: seq<RawModel>, resident: seq<RunningRecord>, pull: Ack, load: Ack, roundGB: nat -> nat)
    requires ReachesListing(setup) && raws != [] && resident != []
    ensures Bootstrapped(setup, Listed(raws), PsListed(resident), pull, load, roundGB).running == [CreateModelInfo(raws[|raws| - 1], roundGB)]
  {
    RunningTextIsSentinelIffNoneResident(Probed(setup, PsListed(resident)));
  }

  /** What each way the set-up can fail leaves. A failure at the wrapper or
      at its `_ollama` escapes before any backend call. With `self.client`
      unassigned, `list_running_models` fails before its `ps` call and its
      error text counts as a resident model: whatever the backend would
      answer, nothing is loaded or pulled, and the running entry is built from
      the last listed model, or the unbound loop variable escapes. */
  lemma BootstrapFollowsSetup(setup: SdkSetup, listing: ListAnswer, ps: PsAnswer, pull: Ack, load: Ack, roundGB: nat -> nat)
    ensures var reg := Bootstrapped(setup, listing, ps, pull, load, roundGB);
      && (setup.WrapperFailed? ==> reg.calls == [] && reg.failure == Some(NoChatWrapper))
      && (setup.HandleMissing? ==> reg.calls == [] && reg.failure == Some(NoOllamaHandle))
      && (ReachesListing(setup) ==> reg.calls[..1] == [List])
      && (ReachesListing(setup) && listing.Listed? ==> (Ps in reg.calls <==> HasClient(setup)))
      && (setup.ClientFailed? && listing.Listed? ==>
            && reg.calls == [List]
            && (listing.models == [] ==> reg.failure == Some(StaleModelUnbound))
            && (listing.models != [] ==> reg.failure == None && reg.running == [CreateModelInfo(listing.models[|listing.models| - 1], roundGB)]))
  {
    var reg := Bootstrapped(setup, listing, ps, pull, load, roundGB);
    if ReachesListing(setup) && listing.Listed? {
      RunningTextIsSentinelIffNoneResident(Probed(setup, ps));
      ProvisionedExtendsCalls(Deduplicated(Infos(listing.models, roundGB)), listing.models, RunningModelsText(Probed(setup, ps)), [List] + ProbeCalls(setup), pull, load, roundGB);
      var extra := reg.calls[1 + |ProbeCalls(setup)|..];
      assert reg.calls == [List] + ProbeCalls(setup) + extra;
      assert Ps !in extra;
    }
  }

  /** The bootstrap adds only load and pull calls to the calls made so far. */
  lemma ProvisionedExtendsCalls(available: seq<ModelInfo>, raws: seq<RawModel>, text: string, calls: seq<BackendCall>, pull: Ack, load: Ack, roundGB: nat -> nat)
    ensures var reg := Provisioned(available, raws, text, calls, pull, load, roundGB);
      && |calls| <= |reg.calls| && reg.calls[..|calls|] == calls
      && forall c :: c in reg.calls[|calls|..] ==> c.Load? || c.Pull?
  {
  }

  /** Whether `tools` is truthy: given and non-empty. */
  predicate HasTools(tools: Option<seq<Tool>>) {
    tools.Some? && tools.value != []
  }

  /** The `stream` flag `chat` sends to the backend when no tools are given:
      the caller's flag, or the configured default when the caller passed none. */
  function StreamSent(stream: Option<bool>, default: bool): bool {
    if stream.Some? then stream.value else default
  }

  /** What the backend does with a chat call: answer it (as a whole reply,
      or as chunks when streaming), or refuse it with a `ResponseError`. */
  datatype ChatBackend = Answers(reply: Message, chunks: seq<Message>) | Rejects(detail: string)

  /** What the SDK's chat call returns: the whole response, or, when asked to
      stream, a lazy stream that has not contacted the backend yet. Its
      `pending` answer (the chunks, or the refusal) comes only when the
      stream is read. */
  datatype Response = Single(message: Message) | Streamed(pending: ChatBackend)

  /** What `chat` returns: the whole response, or its `message`. */
  datatype ChatReturn = WholeResponse(response: Response) | MessageOf(message: Message)

  /** What `chat` raises: not initialised, the backend's `ResponseError`
      (re-raised), a `TypeError` from indexing a stream, or the `AttributeError`
      of reading `num_ctx`, a field the Ollama settings do not have. */
  datatype ChatError = NotInitialized | ResponseError(detail: string) | NotSubscriptable | MissingNumCtx

  /** The SDK's chat call with the `stream` flag `sent`: a streamed call
      returns the lazy stream and raises nothing yet; otherwise the backend
      answers or raises its `ResponseError` at once. */
  function SdkChat(sent: bool, backend: ChatBackend): Result<Response, string> {
    if sent then Ok(Streamed(backend))
    else match backend
      case Rejects(d) => Err(d)
      case Answers(reply, _) => Ok(Single(reply))
  }

  /** The result of `chat` once the SDK has been called with `sent`: its
      `ResponseError` re-raised, the whole response for a truthy caller's
      flag, else `response["message"]`, which fails on a stream. */
  function ChatOutcome(stream: Option<bool>, sent: bool, backend: ChatBackend): Result<ChatReturn, ChatError> {
    match SdkChat(sent, backend)
    case Err(d) => Err(ResponseError(d))
    case Ok(response) =>
      if stream == Some(true) then Ok(WholeResponse(response))
      else if response.Single? then Ok(MessageOf(response.message))
      else Err(NotSubscriptable)
  }

  /** The shape of the result follows the caller's flag, not the flag sent:
      the whole (streamed) response for a truthy flag, the message otherwise;
      when the caller passed no flag but the default made the backend stream,
      taking the message of the stream fails, whatever the backend would
      answer; and the backend's refusal is raised only by a call that does
      not stream. */
  lemma ChatReturnShape(stream: Option<bool>, default: bool, backend: ChatBackend)
    ensures var r := ChatOutcome(stream, StreamSent(stream, default), backend);
      && (stream == Some(true) <==> r.Ok? && r.value.WholeResponse?)
      && (r.Ok? && r.value.WholeResponse? ==> r.value.response == Streamed(backend))
      && (r.Ok? && r.value.MessageOf? ==> backend.Answers? && r.value.message == backend.reply)
      && (r == Err(NotSubscriptable) <==> stream.None? && default)
      && (r.Err? && r.error.ResponseError? <==> !StreamSent(stream, default) && backend.Rejects?)
  {
  }

  /** Python's truthiness of a search agent answer (`None` or text). */
  function SearchReply(answer: Option<string>): (text: string)
    ensures text != ""
    ensures answer.Some? && answer.value != "" ==> text == answer.value
    ensures answer.None? || answer.value == "" ==> text == NoResults
  {
    if answer.None? || answer.value == "" then NoResults else answer.value
  }

  /** The names in a listing, in order. */
  function ModelNames(models: seq<RawModel>): (names: seq<string>)
    ensures |names| == |models|
    ensures forall i :: 0 <= i < |models| ==> names[i] == models[i].name
  {
    seq(|models|, i requires 0 <= i < |models| => models[i].name)
  }

  /** The reply of `show_model`: the not-found sentinel, or the backend's details. */
  datatype ShowReply = NotFoundText(text: string) | ShowDetails(details: string)

  class OllamaClient {
    /** The Ollama section of the settings. It is the very object the settings
        manager holds, so an assignment through the manager changes it too. */
    var settings: OllamaModel
    var initialized: bool
    var availableModels: seq<ModelInfo>
    var runningModels: seq<ModelInfo>
    /** The exception that escaped the constructor, if any. */
    var initFailure: Option<InitFailure>
    /** Every call made to the backend, in order. */
    ghost var trace: seq<BackendCall>

    ghost function State(): Registry
      reads this
    {
      Registry(availableModels, runningModels, trace, initFailure)
    }

    /** `__init__`: SDK set-up, the model registry and the bootstrap policy. */
    constructor (settings: OllamaModel, setup: SdkSetup, listing: ListAnswer, ps: PsAnswer, pull: Ack, load: Ack, roundGB: nat -> nat)
      ensures this.settings == settings
      ensures initialized == setup.SetupOk?
      ensures State() == Bootstrapped(setup, listing, ps, pull, load, roundGB)
    {
      this.settings := settings;
      initialized := setup.SetupOk?;
      availableModels := [];
      runningModels := [];
      initFailure := None;
      trace := [];
      new;
      if setup.WrapperFailed? {
        initFailure := Some(NoChatWrapper);
        return;
      }
      if setup.HandleMissing? {
        initFailure := Some(NoOllamaHandle);
        return;
      }
      trace := trace + [List];
      if listing.ListFailed? {
        initFailure := Some(ListingFailed(listing.detail));
        return;
      }
      assert listing == Listed(listing.models);
      Survey(setup, listing.models, ps, pull, load, roundGB);
    }

    /** The constructor once the listing call has answered `raws`: register
        the listed models, ask which are resident, then bootstrap. */
    method Survey(setup: SdkSetup, raws: seq<RawModel>, ps: PsAnswer, pull: Ack, load: Ack, roundGB: nat -> nat)
      requires ReachesListing(setup) && trace == [List]
      requires availableModels == [] && runningModels == [] && initFailure == None
      modifies this`availableModels, this`runningModels, this`trace, this`initFailure
      ensures State() == Bootstrapped(setup, Listed(raws), ps, pull, load, roundGB)
    {
      RegisterAvailable(raws, roundGB);
      var text := ProbeRunning(setup, ps);
      Provision(raws, text, pull, load, roundGB);
    }

    /** The constructor's `list_running_models` call. With `self.client`
        unassigned the attribute error is caught inside it before any call. */
    method ProbeRunning(setup: SdkSetup, ps: PsAnswer) returns (text: string)
      modifies this`trace
      ensures trace == old(trace) + ProbeCalls(setup)
      ensures text == RunningModelsText(Probed(setup, ps))
    {
      if HasClient(setup) {
        text := ListRunningModels(ps);
      } else {
        text := PsErrorPrefix + ClientUnset;
      }
    }

    /** The listing loop of the constructor: append each model's `ModelInfo`
        unless an equal one is already registered. */
    method RegisterAvailable(raws: seq<RawModel>, roundGB: nat -> nat)
      requires availableModels == []
      modifies this`availableModels
      ensures availableModels == Deduplicated(Infos(raws, roundGB))
    {
      ghost var infos := Infos(raws, roundGB);
      var i := 0;
      while i < |raws|
        invariant 0 <= i <= |raws|
        invariant availableModels == Deduplicated(infos[..i])
      {
        var info := CreateModelInfo(raws[i], roundGB);
        assert infos[..i + 1][..i] == infos[..i];
        if info !in availableModels {
          availableModels := availableModels + [info];
        }
        i := i + 1;
      }
      assert infos[..|raws|] == infos;
    }

    /** The bootstrap branch of the constructor, after `list_running_models`
        answered `text`; `raws` is the listing, whose last entry the source's
        leftover loop variable still holds. */
    method Provision(raws: seq<RawModel>, text: string, pull: Ack, load: Ack, roundGB: nat -> nat)
      requires runningModels == [] && initFailure == None
      modifies this`runningModels, this`trace, this`initFailure
      ensures State() == Provisioned(availableModels, raws, text, old(trace), pull, load, roundGB)
    {
      if text != "" && text != NoModelsLoaded {
        if raws == [] {
          initFailure := Some(StaleModelUnbound);
          return;
        }
        var info := CreateModelInfo(raws[|raws| - 1], roundGB);
        if info !in runningModels {
          runningModels := runningModels + [info];
        }
      } else if availableModels != [] {
        var loaded := LoadModel(availableModels[0].name, load);
        if loaded.Raises? {
          initFailure := Some(LoadFailed(loaded.detail));
        }
      } else {
        var pulled := PullModel(FallbackModel, pull);
        if pulled.Raises? {
          initFailure := Some(PullFailed(pulled.detail));
          return;
        }
        var loaded := LoadModel(FallbackModel, load);
        if loaded.Raises? {
          initFailure := Some(LoadFailed(loaded.detail));
        }
      }
    }

    /** `chat`: refuses before any backend call when not initialised; with
        tools it fails while building the call's options, so the backend is
        never called; otherwise one chat call with the caller's or the default
        `stream` flag, carrying the caller's messages. An empty tool list
        counts as none. */
    method Chat(messages: seq<Message>, stream: Option<bool>, tools: Option<seq<Tool>>, backend: ChatBackend)
      returns (r: Result<ChatReturn, ChatError>)
      modifies this`trace
      ensures !initialized ==> r == Err(NotInitialized) && trace == old(trace)
      ensures initialized && HasTools(tools) ==> r == Err(MissingNumCtx) && trace == old(trace)
      ensures initialized && !HasTools(tools) ==>
        var sent := StreamSent(stream, settings.stream);
        && trace == old(trace) + [BackendCall.Chat(settings.model, messages, sent)]
        && r == ChatOutcome(stream, sent, backend)
    {
      if !initialized {
        return Err(NotInitialized);
      }
      if HasTools(tools) {
        return Err(MissingNumCtx);
      }
      var sent := if stream.Some? then stream.value else settings.stream;
      trace := trace + [BackendCall.Chat(settings.model, messages, sent)];
      var response: Response;
      if sent {
        // the SDK returns a lazy stream; the backend is read only when the
        // stream is iterated
        response := Streamed(backend);
      } else {
        match backend
        case Rejects(d) =>
          return Err(ResponseError(d));
        case Answers(reply, _) =>
          response := Single(reply);
      }
      if stream == Some(true) {
        r := Ok(WholeResponse(response));
      } else if response.Single? {
        r := Ok(MessageOf(response.message));
      } else {
        r := Err(NotSubscriptable);
      }
    }

    /** `list_models`: the names of the listed models; a backend error is re-raised. */
    method ListModels(listing: ListAnswer) returns (r: Result<seq<string>, string>)
      modifies this`trace
      ensures trace == old(trace) + [List]
      ensures listing.Listed? ==> r == Ok(ModelNames(listing.models))
      ensures listing.ListFailed? ==> r == Err(listing.detail)
    {
      trace := trace + [List];
      match listing
      case ListFailed(d) => r := Err(d);
      case Listed(ms) => r := Ok(ModelNames(ms));
    }

    /** `show_model`: the not-found sentinel, without asking the backend, for a
        name that is not listed. */
    method ShowModel(name: string, listing: ListAnswer, details: string) returns (r: Result<ShowReply, string>)
      modifies this`trace
      ensures listing.ListFailed? ==> r == Err(listing.detail) && trace == old(trace) + [List]
      ensures listing.Listed? && name !in ModelNames(listing.models) ==>
        r == Ok(NotFoundText("Model " + name + " not found")) && trace == old(trace) + [List]
      ensures listing.Listed? && name in ModelNames(listing.models) ==>
        r == Ok(ShowDetails(details)) && trace == old(trace) + [List, Show(name)]
    {
      var names := ListModels(listing);
      if names.Err? {
        return Err(names.error);
      }
      if name !in names.value {
        return Ok(NotFoundText("Model " + name + " not found"));
      }
      trace := trace + [Show(name)];
      r := Ok(ShowDetails(details));
    }

    /** `list_running_models`: never raises; a failure becomes an error text. */
    method ListRunningModels(ps: PsAnswer) returns (text: string)
      modifies this`trace
      ensures trace == old(trace) + [Ps]
      ensures text == RunningModelsText(ps)
    {
      trace := trace + [Ps];
      match ps
      case PsFailed(d) =>
        text := PsErrorPrefix + d;
      case PsListed(ms) =>
        if ms == [] {
          text := NoModelsLoaded;
        } else {
          text := FormatRunning(ms);
        }
    }

    /** `web_search`: a falsy agent answer becomes the no-results sentinel. */
    method WebSearch(query: string, answer: Option<string>) returns (text: string)
      modifies this`trace
      ensures trace == old(trace) + [AgentSearch(query)]
      ensures text == SearchReply(answer)
    {
      trace := trace + [AgentSearch(query)];
      if answer.None? || answer.value == "" {
        text := NoResults;
      } else {
        text := answer.value;
      }
    }

    /** `pull_model`: the backend's error is logged and re-raised, so the
        call ends as the backend's answer does. */
    method PullModel(name: string, answer: Ack) returns (outcome: Ack)
      modifies this`trace
      ensures trace == old(trace) + [Pull(name)]
      ensures outcome == answer
    {
      trace := trace + [Pull(name)];
      outcome := answer;
    }

    /** `load_model`: a generate call that makes the model resident; nothing
        catches what it raises. */
    method LoadModel(name: string, answer: Ack) returns (outcome: Ack)
      modifies this`trace
      ensures trace == old(trace) + [Load(name)]
      ensures outcome == answer
    {
      trace := trace + [Load(name)];
      outcome := answer;
    }

    /** `unload_model`: a generate call with `keep_alive=0`; nothing catches
        what it raises. */
    method UnloadModel(name: string, answer: Ack) returns (outcome: Ack)
      modifies this`trace
      ensures trace == old(trace) + [Unload(name)]
      ensures outcome == answer
    {
      trace := trace + [Unload(name)];
      outcome := answer;
    }
  }
}
