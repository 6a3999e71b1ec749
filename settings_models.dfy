/** The settings schema of src/settings/models.py: the sections of the
    application settings with their default values, and the `api_url`
    validator of the Ollama section. Floating-point fields (temperature and the
    generation options) are not part of this model. */
module SettingsModels {
  import opened Results
  import opened Strings

  /** The application's one exception type, `RagnarException`. */
  datatype RagnarException = RagnarException(message: string)

  /** The Ollama section (`OllamaModel`). */
  datatype OllamaModel = OllamaModel(apiUrl: string, model: string, maxTokens: int, stream: bool)

  /** The Discord section (`DiscordModel`); `botInviteUrl` may be `None`. */
  datatype DiscordModel = DiscordModel(token: string, botInviteUrl: Option<string>)

  /** The external tokens section (`ExternalTokens`). */
  datatype ExternalTokens = ExternalTokens(bflApiKey: string, huggingfaceToken: string)

  /** The whole settings document (`AppSettings`). */
  datatype AppSettings = AppSettings(
    version: string,
    debug: bool,
    log: bool,
    discord: DiscordModel,
    externalTokens: ExternalTokens,
    ollama: OllamaModel)

  const DefaultApiUrl: string := "http://localhost:11434"
  const DefaultModel: string := "llama3.2"

  function DefaultOllama(): OllamaModel {
    OllamaModel(DefaultApiUrl, DefaultModel, 32000, false)
  }

  function DefaultDiscord(): DiscordModel {
    DiscordModel("", Some(""))
  }

  function DefaultAppSettings(): AppSettings {
    AppSettings("0.1.0", true, true, DefaultDiscord(), ExternalTokens("", ""), DefaultOllama())
  }

  /** The top-level keys of a dumped `AppSettings`, the only keys the settings
      manager keeps. */
  const TopLevelKeys: set<string> := {"version", "debug", "log", "discord", "external_tokens", "ollama"}

  const HttpScheme: string := "http://"
  const RunningBanner: string := "Ollama is running"

  /** The prefixing step of `validate_api_url`: a URL not starting with
      `http://` gets it put in front (an `https://` URL included). */
  function NormalizeApiUrl(v: string): (r: string)
    ensures StartsWith(r, HttpScheme)
    ensures r == v || r == HttpScheme + v
    ensures r == v <==> StartsWith(v, HttpScheme)
  {
    if StartsWith(v, HttpScheme) then v else HttpScheme + v
  }

  /** Normalising a normalised URL changes nothing. */
  lemma NormalizeIdempotent(v: string)
    ensures NormalizeApiUrl(NormalizeApiUrl(v)) == NormalizeApiUrl(v)
  {
  }

  /** The check does not recognise `https://`: such a URL is prefixed too. */
  lemma HttpsIsPrefixed(rest: string)
    ensures NormalizeApiUrl("https://" + rest) == "http://https://" + rest
  {
    assert ("https://" + rest)[4] == 's';
  }

  /** The default URL is already normalised. */
  lemma DefaultApiUrlIsNormal()
    ensures NormalizeApiUrl(DefaultOllama().apiUrl) == DefaultOllama().apiUrl
  {
    assert DefaultApiUrl[..|HttpScheme|] == HttpScheme;
  }

  /** How the `GET` request of `validate_api_url` can raise. requests'
      `InvalidURL`, `MissingSchema`, `InvalidSchema` and `InvalidHeader` are
      `ValueError`s (`BadRequest`); its other exceptions, such as a refused
      connection or a timeout, are not (`Unreachable`). */
  datatype RequestException = BadRequest(detail: string) | Unreachable(detail: string)

  /** What `validate_api_url` raises: its own `RagnarException` when the
      answer lacks the banner, or the exception of the `GET` request itself,
      with its text, kept apart by whether it is a `ValueError`. */
  datatype UrlError = NotRunning | RequestFailed(detail: string) | BadUrl(detail: string)

  /** pydantic v2 turns a `ValueError` raised in a validator into a
      `ValidationError`; the validator's other exceptions pass through. */
  predicate PassesPydantic(e: UrlError) {
    !e.BadUrl?
  }

  /** The exception `validate_api_url` raises when the answer lacks the banner. */
  const NotRunningError: RagnarException := RagnarException("Ollama is not running")

  /** `validate_api_url`: normalise, then require the body that `GET url`
      answers to contain the banner. `ping` is the network, left abstract: the
      body, or the exception the request raises. */
  function ValidateApiUrl(v: string, ping: string -> Result<string, RequestException>): (r: Result<string, UrlError>)
    ensures r.Ok? <==> ping(NormalizeApiUrl(v)).Ok? && Contains(ping(NormalizeApiUrl(v)).value, RunningBanner)
    ensures r.Ok? ==> r.value == NormalizeApiUrl(v) && StartsWith(r.value, HttpScheme)
    ensures ping(NormalizeApiUrl(v)).Err? && ping(NormalizeApiUrl(v)).error.Unreachable? ==>
      r == Err(RequestFailed(ping(NormalizeApiUrl(v)).error.detail))
    ensures ping(NormalizeApiUrl(v)).Err? && ping(NormalizeApiUrl(v)).error.BadRequest? ==>
      r == Err(BadUrl(ping(NormalizeApiUrl(v)).error.detail))
    ensures ping(NormalizeApiUrl(v)).Ok? && r.Err? ==> r == Err(NotRunning)
    ensures r.Err? ==> (PassesPydantic(r.error) <==> !ping(NormalizeApiUrl(v)).Err? || ping(NormalizeApiUrl(v)).error.Unreachable?)
  {
    var url := NormalizeApiUrl(v);
    match ping(url)
    case Err(Unreachable(e)) => Err(RequestFailed(e))
    case Err(BadRequest(e)) => Err(BadUrl(e))
    case Ok(body) => if !Contains(body, RunningBanner) then Err(NotRunning) else Ok(url)
  }

  /** An empty `api_url` is requested as the bare scheme `http://`, a URL
      with no host, which requests refuses with `InvalidURL`, a `ValueError`. */
  lemma EmptyApiUrlIsBareScheme(ping: string -> Result<string, RequestException>, d: string)
    requires ping(HttpScheme) == Err(BadRequest(d))
    ensures NormalizeApiUrl("") == HttpScheme
    ensures ValidateApiUrl("", ping) == Err(BadUrl(d)) && !PassesPydantic(ValidateApiUrl("", ping).error)
  {
    assert HttpScheme + "" == HttpScheme;
  }
}
