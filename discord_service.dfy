/** The Discord front end of src/services/discord.py: the token check that
    gates set-up, the mention handler, the slash commands and `stop`. The
    Discord client itself is not modelled: each handler receives what the
    client would have delivered (the message, whether it is the bot's own,
    whether it mentions the bot) and returns what it sends back. */
module Discord {
  import opened Results
  import opened Strings
  import opened SettingsModels
  import opened Manager
  import opened Ollama

  /** Discord's limit for a plain message; longer replies go in an embed. */
  const MaxPlainLength: nat := 2000
  const EmbedTitle: string := "Ragnar's response"
  const EmbedColor: nat := 0xF1C40F
  const Apology: string := "Sorry, I encountered an error processing your message."
  const AvailablePrefix: string := "Available models: "
  const UnablePrefix: string := "Unable to set model: "

  /** `validate`: the configuration is usable when the token is truthy. */
  predicate Validate(settings: DiscordModel) {
    settings.token != ""
  }

  /** The default configuration has an empty token, so the Discord service
      never starts on it; any non-empty token passes. */
  lemma DefaultConfigurationIsInvalid(token: string)
    ensures !Validate(DefaultAppSettings().discord)
    ensures Validate(DiscordModel(token, None)) <==> token != ""
  {
  }

  /** What a handler sends back: a plain message or an embed. */
  datatype Reply = PlainText(text: string) | Embed(title: string, description: string, color: nat)

  /** The text a reply shows. */
  function Shown(r: Reply): string {
    match r
    case PlainText(t) => t
    case Embed(_, d, _) => d
  }

  /** The length routing of `chat_command` and `web_search_command`. */
  function Route(text: string): (r: Reply)
    ensures Shown(r) == text
    ensures r.Embed? <==> |text| > MaxPlainLength
    ensures r.Embed? ==> r.title == EmbedTitle && r.color == EmbedColor
  {
    if |text| > MaxPlainLength then Embed(EmbedTitle, text, EmbedColor) else PlainText(text)
  }

  /** The mention of the bot as it appears in a message's raw content. */
  function MentionTag(botId: string): (tag: string)
    ensures tag == "<@" + botId + ">"
    ensures tag != "" && StartsWith(tag, "<@")
  {
    var rest := botId + ">";
    assert ("<@" + rest)[..2] == "<@";
    "<@" + rest
  }

  /** The prompt `on_message` sends: every mention of the bot removed, then
      surrounding whitespace trimmed. */
  function StrippedPrompt(content: string, botId: string): string {
    Strip(Replace(content, MentionTag(botId), ""))
  }

  /** A leading mention followed by text without mentions leaves only that
      text, trimmed. */
  lemma LeadingMentionRemoved(botId: string, text: string)
    requires !Contains(text, MentionTag(botId))
    ensures StrippedPrompt(MentionTag(botId) + text, botId) == Strip(text)
  {
    var tag := MentionTag(botId);
    ReplaceLeading(tag, text, "");
    ReplaceAbsent(text, tag, "");
    assert Replace(tag + text, tag, "") == text;
  }

  /** Content without a mention of the bot is only trimmed; in every case the
      prompt carries no surrounding whitespace. */
  lemma PromptIsTrimmed(content: string, botId: string)
    ensures !Contains(content, MentionTag(botId)) ==> StrippedPrompt(content, botId) == Strip(content)
    ensures Strip(StrippedPrompt(content, botId)) == StrippedPrompt(content, botId)
  {
    if !Contains(content, MentionTag(botId)) {
      ReplaceAbsent(content, MentionTag(botId), "");
    }
    StripIdempotent(Replace(content, MentionTag(botId), ""));
  }

  /** What `on_message` asks `chat`, if anything: nothing for the bot's own
      messages or for messages that do not mention it. */
  function MentionPrompt(fromBot: bool, mentionsBot: bool, content: string, botId: string): (prompt: Option<string>)
    ensures prompt.Some? <==> !fromBot && mentionsBot
    ensures prompt.Some? ==> prompt.value == StrippedPrompt(content, botId)
    ensures prompt.Some? ==> Strip(prompt.value) == prompt.value
  {
    PromptIsTrimmed(content, botId);
    if fromBot || !mentionsBot then None else Some(StrippedPrompt(content, botId))
  }

  /** The chat call the handlers make for a prompt: the configured model, one
      user message carrying the prompt, and the configured `stream` flag. */
  function UserChat(settings: OllamaModel, prompt: string): BackendCall {
    BackendCall.Chat(settings.model, [Message("user", prompt)], settings.stream)
  }

  /** What the handlers get from `chat`, called as they call it (one user
      message, no stream flag, no tools): the backend's message, or the
      exception `chat` raises. With streaming on in the settings, indexing
      the lazy stream fails before the backend is ever read. */
  function PlainChat(initialized: bool, settings: OllamaModel, backend: ChatBackend): Result<Message, ChatError> {
    if !initialized then Err(NotInitialized)
    else if settings.stream then Err(NotSubscriptable)
    else match backend
      case Rejects(d) => Err(ResponseError(d))
      case Answers(reply, _) => Ok(reply)
  }

  /** `PlainChat` is what the client's `chat` returns for such a call: never
      the whole response; with streaming on in the settings, a failure whatever
      the backend would answer; with it off, the backend's reply or refusal. */
  lemma PlainChatAgrees(settings: OllamaModel, backend: ChatBackend)
    ensures var r := ChatOutcome(None, StreamSent(None, settings.stream), backend);
      match PlainChat(true, settings, backend)
      case Ok(m) => r == Ok(MessageOf(m))
      case Err(e) => r == Err(e)
    ensures settings.stream ==> PlainChat(true, settings, backend) == Err(NotSubscriptable)
    ensures !settings.stream ==> (PlainChat(true, settings, backend).Ok? <==> backend.Answers?)
  {
    ChatReturnShape(None, settings.stream, backend);
  }

  /** What `chat_command` sends once `chat` returned; `None` stands for a
      falsy response, which gets the apology. */
  function ChatCommandReply(response: Option<Message>): (r: Reply)
    ensures response.None? ==> r == PlainText(Apology)
    ensures response.Some? ==> Shown(r) == response.value.content
    ensures response.Some? ==> (r.Embed? <==> |response.value.content| > MaxPlainLength)
  {
    if response.None? then PlainText(Apology) else Route(response.value.content)
  }

  /** The reply of `set_model`: the confirmation, or the text of the caught
      exception. */
  datatype SetModelReply = ModelSet(model: string) | UnableToSetModel(cause: SetModelError)

  /** The exceptions `set_model` catches: a listing failure, the second
      response to an already deferred interaction, the manager's `settings`
      attribute never assigned, and the missing `reload` of the settings
      manager. */
  datatype SetModelError = ListingError(detail: string) | AlreadyResponded | SettingsUnset | NoReload

  /** The text sent for a `set_model` reply. */
  function SetModelText(r: SetModelReply): (text: string)
    ensures r.UnableToSetModel? ==> StartsWith(text, UnablePrefix)
  {
    match r
    case ModelSet(m) => "Model set to " + m
    case UnableToSetModel(cause) =>
      var detail := match cause
        case ListingError(d) => d
        case AlreadyResponded => "This interaction has already been responded to before"
        case SettingsUnset => "'SettingsManager' object has no attribute 'settings'"
        case NoReload => "'SettingsManager' object has no attribute 'reload'";
      assert (UnablePrefix + detail)[..|UnablePrefix|] == UnablePrefix;
      UnablePrefix + detail
  }

  /** `settings` with the Ollama model replaced, nothing else changed. */
  function WithModel(s: AppSettings, model: string): (t: AppSettings)
    ensures t.ollama.model == model
    ensures t.ollama == s.ollama.(model := model)
    ensures t.(ollama := s.ollama) == s
  {
    s.(ollama := s.ollama.(model := model))
  }

  /** The reply of `set_model` for a listing, a requested model and the
      settings the manager holds. */
  function SetModelResult(listing: ListAnswer, model: string, settings: Option<AppSettings>): SetModelReply {
    if listing.ListFailed? then UnableToSetModel(ListingError(listing.detail))
    else if model !in ModelNames(listing.models) then UnableToSetModel(AlreadyResponded)
    else if settings.None? then UnableToSetModel(SettingsUnset)
    else UnableToSetModel(NoReload)
  }

  /** `set_model` never confirms: whatever the listing, the requested model and
      the settings, the reply is an "Unable to set model" text; and a listed
      model with settings present is the one case that reaches the save. */
  lemma SetModelNeverConfirms(listing: ListAnswer, model: string, settings: Option<AppSettings>)
    ensures !SetModelResult(listing, model, settings).ModelSet?
    ensures StartsWith(SetModelText(SetModelResult(listing, model, settings)), UnablePrefix)
    ensures !StartsWith(SetModelText(SetModelResult(listing, model, settings)), "Model set to ")
    ensures SetModelResult(listing, model, settings) == UnableToSetModel(NoReload) <==>
      listing.Listed? && model in ModelNames(listing.models) && settings.Some?
  {
    var text := SetModelText(SetModelResult(listing, model, settings));
    assert text[0] == 'U';
  }

  /** The client's Ollama section is the one the manager holds. */
  ghost predicate Shared(client: OllamaClient, manager: SettingsManager)
    reads client, manager
  {
    manager.settings.Some? && manager.settings.value.ollama == client.settings
  }

  class DiscordService {
    /** The Ollama client, possibly none; the handlers need one. */
    const ollama: OllamaClient?
    /** The Discord section of the settings, read once at construction. */
    const settings: DiscordModel
    var initialized: bool
    /** Whether `setup()` ran: the client exists and the handlers are registered. */
    var clientBuilt: bool

    /** `__init__`: set up only when the configuration validates. */
    constructor (ollama: OllamaClient?, settings: DiscordModel)
      ensures this.ollama == ollama && this.settings == settings
      ensures initialized <==> Validate(settings)
      ensures clientBuilt <==> Validate(settings)
    {
      this.ollama := ollama;
      this.settings := settings;
      initialized := false;
      clientBuilt := false;
      new;
      if Validate(settings) {
        clientBuilt := true;
        initialized := true;
      }
    }

    /** `stop`: nothing to do when not initialised; otherwise the guard reads
        `self.running`, which nothing assigns, and raises `AttributeError`. */
    method Stop() returns (r: Result<(), string>)
      ensures r.Ok? <==> !initialized
      ensures r.Err? ==> r.error == "'DiscordService' object has no attribute 'running'"
    {
      if !initialized {
        return Ok(());
      }
      r := Err("'DiscordService' object has no attribute 'running'");
    }

    /** `on_message`: `None` when the message is ignored; otherwise `chat` is
        asked the stripped prompt and the reply is the answer's content. */
    method OnMessage(fromBot: bool, mentionsBot: bool, content: string, botId: string, backend: ChatBackend)
      returns (r: Option<Result<string, ChatError>>)
      requires clientBuilt && ollama != null
      modifies ollama`trace
      ensures r.None? <==> fromBot || !mentionsBot
      ensures r.None? || !ollama.initialized ==> ollama.trace == old(ollama.trace)
      ensures r.Some? && ollama.initialized ==>
        ollama.trace == old(ollama.trace) + [UserChat(ollama.settings, StrippedPrompt(content, botId))]
      ensures var m := PlainChat(ollama.initialized, ollama.settings, backend);
        && (r.Some? && m.Ok? ==> r.value == Ok(m.value.content))
        && (r.Some? && m.Err? ==> r.value == Err(m.error))
    {
      var prompt := MentionPrompt(fromBot, mentionsBot, content, botId);
      if prompt.None? {
        return None;
      }
      var answer := Ask(prompt.value, backend);
      match answer
      case Err(e) =>
        r := Some(Err(e));
      case Ok(m) =>
        r := Some(Ok(m.content));
    }

    /** One call of `chat` with a single user message, no stream flag and no
        tools, with the answer indexed for its message. */
    method Ask(prompt: string, backend: ChatBackend) returns (m: Result<Message, ChatError>)
      requires ollama != null
      modifies ollama`trace
      ensures m == PlainChat(ollama.initialized, ollama.settings, backend)
      ensures ollama.initialized ==> ollama.trace == old(ollama.trace) + [UserChat(ollama.settings, prompt)]
      ensures !ollama.initialized ==> ollama.trace == old(ollama.trace)
    {
      PlainChatAgrees(ollama.settings, backend);
      var answer := ollama.Chat([Message("user", prompt)], None, None, backend);
      match answer
      case Err(e) =>
        m := Err(e);
      case Ok(response) =>
        if response.MessageOf? {
          m := Ok(response.message);
        } else {
          assert false;
        }
    }

    /** `chat_command`: ask `chat`, then route the answer by length. */
    method ChatCommand(message: string, backend: ChatBackend) returns (r: Result<Reply, ChatError>)
      requires clientBuilt && ollama != null
      modifies ollama`trace
      ensures var m := PlainChat(ollama.initialized, ollama.settings, backend);
        && (m.Ok? ==> r == Ok(ChatCommandReply(Some(m.value))))
        && (m.Err? ==> r == Err(m.error))
      ensures ollama.initialized ==> ollama.trace == old(ollama.trace) + [UserChat(ollama.settings, message)]
      ensures !ollama.initialized ==> ollama.trace == old(ollama.trace)
    {
      var answer := Ask(message, backend);
      match answer
      case Err(e) =>
        r := Err(e);
      case Ok(m) =>
        r := Ok(ChatCommandReply(Some(m)));
    }

    /** `ps_command`: the listed model names, comma separated. */
    method PsCommand(listing: ListAnswer) returns (r: Result<string, string>)
      requires clientBuilt && ollama != null
      modifies ollama`trace
      ensures ollama.trace == old(ollama.trace) + [List]
      ensures listing.ListFailed? ==> r == Err(listing.detail)
      ensures listing.Listed? ==> r == Ok(AvailablePrefix + Join(ModelNames(listing.models), ", "))
    {
      var names := ollama.ListModels(listing);
      match names
      case Err(d) =>
        r := Err(d);
      case Ok(ns) =>
        r := Ok(AvailablePrefix + Join(ns, ", "));
    }

    /** `web_search_command`: search, then route the answer by length. */
    method WebSearchCommand(query: string, answer: Option<string>) returns (r: Reply)
      requires clientBuilt && ollama != null
      modifies ollama`trace
      ensures ollama.trace == old(ollama.trace) + [AgentSearch(query)]
      ensures Shown(r) == SearchReply(answer) && Shown(r) != ""
      ensures r.Embed? <==> |SearchReply(answer)| > MaxPlainLength
    {
      var text := ollama.WebSearch(query, answer);
      r := Route(text);
    }

    /** `set_model`: the interaction is deferred first, so the "not found"
        answer, sent as a second response, raises; a listed name is stored and
        saved, and then the call to the manager's missing `reload` raises.
        Every exception ends in the "Unable to set model" reply. The name is
        stored in the manager's Ollama section, which is the client's own, so
        every later `chat` asks for the new model. */
    method SetModelCommand(manager: SettingsManager, model: string, listing: ListAnswer) returns (reply: SetModelReply)
      requires clientBuilt && ollama != null
      modifies ollama`trace, ollama`settings, manager`settings, manager`file, manager`writes
      ensures ollama.trace == old(ollama.trace) + [List]
      ensures reply == SetModelResult(listing, model, old(manager.settings))
      ensures reply != UnableToSetModel(NoReload) ==>
        && manager.settings == old(manager.settings)
        && manager.file == old(manager.file)
        && manager.writes == old(manager.writes)
        && ollama.settings == old(ollama.settings)
      ensures reply == UnableToSetModel(NoReload) ==>
        && manager.settings == Some(WithModel(old(manager.settings).value, model))
        && manager.writes == old(manager.writes) + [manager.settings.value]
        && manager.file == Some(manager.kit.dump(manager.settings.value))
        && ollama.settings == old(ollama.settings).(model := model)
      ensures old(Shared(ollama, manager)) ==> Shared(ollama, manager)
    {
      var names := ollama.ListModels(listing);
      if names.Err? {
        return UnableToSetModel(ListingError(names.error));
      }
      if model !in names.value {
        return UnableToSetModel(AlreadyResponded);
      }
      if manager.settings.None? {
        return UnableToSetModel(SettingsUnset);
      }
      manager.settings := Some(WithModel(manager.settings.value, model));
      ollama.settings := ollama.settings.(model := model);
      manager.Save();
      reply := UnableToSetModel(NoReload);
    }
  }
}
