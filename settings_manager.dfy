/** The settings manager of src/settings/manager.py: it keeps the validated
    settings, filters a settings dictionary down to the schema's top-level keys,
    and loads and saves data/settings.json. The file is its text (absent or
    present); JSON parsing, pydantic validation and serialisation are the
    libraries' business and are passed in as a `Toolkit`. */
module Manager {
  import opened Results
  import opened Strings
  import opened SettingsModels

  /** A decoded JSON value (numbers are integers here). */
  datatype Json =
    | JNull
    | JBool(b: bool)
    | JNumber(n: int)
    | JString(s: string)
    | JArray(items: seq<Json>)
    | JObject(fields: map<string, Json>)

  /** The exceptions of the `api_url` validator that pydantic lets through. */
  type Uncaught = e: UrlError | PassesPydantic(e) witness NotRunning

  /** What pydantic's `model_validate` makes of a dictionary: the settings, a
      `ValidationError` with its message, or an exception raised by the
      `api_url` validator that is not a `ValueError`, which pydantic lets
      through unchanged. */
  datatype Validation = Valid(settings: AppSettings) | Invalid(detail: string) | Escapes(error: Uncaught)

  /** What the manager asks of the libraries it uses. */
  datatype Toolkit = Toolkit(
    validate: map<string, Json> -> Validation,                   // AppSettings.model_validate
    parse: string -> Result<Json, string>,                        // json.loads; Err carries the message
    dump: AppSettings -> string,                                  // model_dump_json(indent=4)
    missingDetail: string)                                        // the message of the FileNotFoundError

  /** pydantic's complaint when the file holds JSON that is not an object. */
  const NotAnObject: string := "Input should be a valid dictionary or instance of AppSettings"

  /** What goes wrong in `load`: the three failures it catches, and the
      exception of the `api_url` validator, which none of its handlers catches. */
  datatype LoadFailure =
    | ValidationFailed(detail: string)
    | DecodeFailed(detail: string)
    | FileMissing(detail: string)
    | ValidatorRaised(error: Uncaught)

  datatype FailureKind = ValidationKind | DecodeKind | MissingKind

  function KindOf(f: LoadFailure): FailureKind
    requires !f.ValidatorRaised?
  {
    match f
    case ValidationFailed(_) => ValidationKind
    case DecodeFailed(_) => DecodeKind
    case FileMissing(_) => MissingKind
  }

  function PrefixOf(k: FailureKind): string {
    match k
    case ValidationKind => "Validation error: "
    case DecodeKind => "JSON decode error: "
    case MissingKind => "File not found: "
  }

  /** The `RagnarException` that `load` raises for a caught failure. */
  function Reraised(f: LoadFailure): (e: RagnarException)
    requires !f.ValidatorRaised?
    ensures StartsWith(e.message, PrefixOf(KindOf(f)))
    ensures e.message[|PrefixOf(KindOf(f))|..] == f.detail
  {
    var p := PrefixOf(KindOf(f));
    assert (p + f.detail)[..|p|] == p;
    RagnarException(p + f.detail)
  }

  /** Reading the kind of failure back from a message, by its prefix. */
  function KindOfMessage(m: string): Option<FailureKind> {
    if StartsWith(m, PrefixOf(ValidationKind)) then Some(ValidationKind)
    else if StartsWith(m, PrefixOf(DecodeKind)) then Some(DecodeKind)
    else if StartsWith(m, PrefixOf(MissingKind)) then Some(MissingKind)
    else None
  }

  /** The three prefixes keep the three failures apart: the kind and the detail
      of a failure can be read back from the re-raised message. */
  lemma ReraisedIsRecoverable(f: LoadFailure)
    requires !f.ValidatorRaised?
    ensures KindOfMessage(Reraised(f).message) == Some(KindOf(f))
    ensures Reraised(f).message[|PrefixOf(KindOf(f))|..] == f.detail
  {
    var m := Reraised(f).message;
    assert m[0] == PrefixOf(KindOf(f))[0];
  }

  /** The exception that escapes `load`: a `RagnarException`, or the error of
      the request the `api_url` validator makes. */
  datatype LoadError = Ragnar(e: RagnarException) | RequestError(detail: string)

  /** The exception `load` raises for a failure: a caught failure re-raised
      with its kind's prefix, the validator's exception as it was raised. */
  function Escaping(f: LoadFailure): LoadError {
    match f
    case ValidatorRaised(e) => if e.NotRunning? then Ragnar(NotRunningError) else RequestError(e.detail)
    case _ => Ragnar(Reraised(f))
  }

  /** The validator's exceptions carry none of the three prefixes, so they
      cannot be told apart from other exceptions by the caught kinds'
      messages; every caught failure escapes as its re-raised exception. */
  lemma ValidatorErrorIsUnprefixed(f: LoadFailure)
    ensures !f.ValidatorRaised? ==> Escaping(f) == Ragnar(Reraised(f)) && KindOfMessage(Escaping(f).e.message) == Some(KindOf(f))
    ensures f.ValidatorRaised? && Escaping(f).Ragnar? ==> KindOfMessage(Escaping(f).e.message) == None
    ensures f.ValidatorRaised? ==> (Escaping(f).RequestError? <==> f.error.RequestFailed?)
  {
    if f.ValidatorRaised? {
      if f.error.NotRunning? {
        assert Escaping(f) == Ragnar(NotRunningError);
        NotRunningIsUnprefixed();
      } else {
        assert Escaping(f) == RequestError(f.error.detail);
      }
    } else {
      assert Escaping(f) == Ragnar(Reraised(f));
      ReraisedIsRecoverable(f);
    }
  }

  /** "Ollama is not running" starts with none of the three prefixes. */
  lemma NotRunningIsUnprefixed()
    ensures KindOfMessage(NotRunningError.message) == None
  {
    assert NotRunningError.message[0] == 'O';
  }

  /** The dictionary comprehension of `clean_settings`: keep the entries whose
      key is valid, values untouched. */
  function Cleaned(d: map<string, Json>, valid: set<string>): (r: map<string, Json>)
    ensures r.Keys == d.Keys * valid
    ensures forall k :: k in r ==> r[k] == d[k]
  {
    map k | k in d && k in valid :: d[k]
  }

  /** Filtering twice is filtering once. */
  lemma CleanedIdempotent(d: map<string, Json>, valid: set<string>)
    ensures Cleaned(Cleaned(d, valid), valid) == Cleaned(d, valid)
    ensures Cleaned(d, valid).Keys <= valid
  {
  }

  /** A dictionary whose keys are all valid passes through unchanged. */
  lemma CleanedKeepsValidDictionary(d: map<string, Json>, valid: set<string>)
    requires d.Keys <= valid
    ensures Cleaned(d, valid) == d
  {
  }

  /** The outcome of one `load`: the settings afterwards, whether the file was
      written, and the failure, which escapes as `Escaping(failure)`. */
  datatype LoadStep = LoadStep(settings: Option<AppSettings>, saved: bool, failure: Option<LoadFailure>)

  /** Where `load` takes its dictionary from: the argument unless it is `None`
      or empty, else the file. */
  function LoadSource(file: Option<string>, arg: Option<map<string, Json>>, kit: Toolkit): Result<Json, LoadFailure> {
    if arg.Some? && arg.value != map[] then Ok(JObject(arg.value))
    else if file.None? then Err(FileMissing(kit.missingDetail))
    else match kit.parse(file.value)
      case Err(d) => Err(DecodeFailed(d))
      case Ok(j) => Ok(j)
  }

  /** The failure of a validation that did not succeed. */
  function ValidationFailure(v: Validation): LoadFailure
    requires !v.Valid?
  {
    if v.Invalid? then ValidationFailed(v.detail) else ValidatorRaised(v.error)
  }

  /** `load` as a function of the settings held before, the file and the argument. */
  function LoadResult(current: Option<AppSettings>, file: Option<string>, arg: Option<map<string, Json>>, kit: Toolkit): LoadStep {
    match LoadSource(file, arg, kit)
    case Err(f) => LoadStep(current, false, Some(f))
    case Ok(j) =>
      if !j.JObject? then LoadStep(current, false, Some(ValidationFailed(NotAnObject)))
      else
        var first := kit.validate(j.fields);
        if !first.Valid? then LoadStep(current, false, Some(ValidationFailure(first)))
        else
          var clean := kit.validate(Cleaned(j.fields, TopLevelKeys));
          if !clean.Valid? then LoadStep(Some(first.settings), false, Some(ValidationFailure(clean)))
          else LoadStep(Some(clean.settings), true, None)
  }

  /** A non-empty argument is used as it is: the file plays no part. */
  lemma LoadIgnoresFileGivenDictionary(current: Option<AppSettings>, f1: Option<string>, f2: Option<string>, d: map<string, Json>, kit: Toolkit)
    requires d != map[]
    ensures LoadResult(current, f1, Some(d), kit) == LoadResult(current, f2, Some(d), kit)
  {
  }

  /** The settings held after a successful load are the validation of the
      cleaned source dictionary. */
  ghost predicate LoadedFrom(file: Option<string>, arg: Option<map<string, Json>>, kit: Toolkit, held: Option<AppSettings>) {
    var src := LoadSource(file, arg, kit);
    && src.Ok? && src.value.JObject?
    && var v := kit.validate(Cleaned(src.value.fields, TopLevelKeys));
    && v.Valid? && held == Some(v.settings)
  }

  /** Which failure `load` reports, by cause, and that it saves exactly when
      nothing failed, in which case it holds the settings validated from the
      cleaned dictionary. */
  lemma LoadOutcomes(current: Option<AppSettings>, file: Option<string>, arg: Option<map<string, Json>>, kit: Toolkit)
    ensures var step := LoadResult(current, file, arg, kit); var fromFile := arg.None? || arg.value == map[];
      && (step.saved <==> step.failure.None?)
      && (step.failure.Some? && step.failure.value.FileMissing? <==> fromFile && file.None?)
      && (step.failure.Some? && step.failure.value.DecodeFailed? <==> fromFile && file.Some? && kit.parse(file.value).Err?)
      && (step.saved ==> LoadedFrom(file, arg, kit, step.settings))
  {
  }

  /** The `api_url` text the dictionary gives the Ollama section, if any. */
  function GivenApiUrl(d: map<string, Json>): Option<string> {
    if "ollama" in d && d["ollama"].JObject? && "api_url" in d["ollama"].fields && d["ollama"].fields["api_url"].JString?
    then Some(d["ollama"].fields["api_url"].s)
    else None
  }

  /** The toolkit runs `validate_api_url` on a given `api_url` text. What
      the validator raises comes out of validation unchanged, except a
      `ValueError` of the request, which becomes a validation error whose
      message quotes the request's. */
  ghost predicate ChecksApiUrl(kit: Toolkit, ping: string -> Result<string, RequestException>) {
    forall d: map<string, Json> ::
      GivenApiUrl(d).Some? && ValidateApiUrl(GivenApiUrl(d).value, ping).Err? ==>
        var e := ValidateApiUrl(GivenApiUrl(d).value, ping).error;
        if PassesPydantic(e) then kit.validate(d) == Escapes(e)
        else kit.validate(d).Invalid? && Contains(kit.validate(d).detail, e.detail)
  }

  /** A dictionary whose `api_url` the validator rejects makes `load` fail and
      keeps nothing new. A request that raises a `ValueError` (a malformed
      URL such as the bare `http://`) is reported as a validation error, with
      the "Validation error: " prefix. Any other exception of the validator
      escapes as it was raised, without any of the caught kinds' prefixes: an
      unreachable host as the request's error, a host without the banner as
      `RagnarException("Ollama is not running")`. */
  lemma LoadWithRejectedUrl(current: Option<AppSettings>, file: Option<string>, d: map<string, Json>, kit: Toolkit,
                            ping: string -> Result<string, RequestException>)
    requires d != map[] && ChecksApiUrl(kit, ping)
    requires GivenApiUrl(d).Some? && ValidateApiUrl(GivenApiUrl(d).value, ping).Err?
    ensures var step := LoadResult(current, file, Some(d), kit);
      var e := ValidateApiUrl(GivenApiUrl(d).value, ping).error;
      && step.settings == current && !step.saved && step.failure.Some?
      && (PassesPydantic(e) ==> step.failure == Some(ValidatorRaised(e)))
      && (e.RequestFailed? ==> Escaping(step.failure.value) == RequestError(e.detail))
      && (e.NotRunning? ==> Escaping(step.failure.value) == Ragnar(NotRunningError))
      && (PassesPydantic(e) && Escaping(step.failure.value).Ragnar? ==> KindOfMessage(Escaping(step.failure.value).e.message) == None)
      && (e.BadUrl? ==>
            && step.failure.value.ValidationFailed? && Contains(step.failure.value.detail, e.detail)
            && Escaping(step.failure.value) == Ragnar(RagnarException(PrefixOf(ValidationKind) + step.failure.value.detail))
            && KindOfMessage(Escaping(step.failure.value).e.message) == Some(ValidationKind))
  {
    var e := ValidateApiUrl(GivenApiUrl(d).value, ping).error;
    if PassesPydantic(e) {
      assert kit.validate(d) == Escapes(e);
      ValidatorErrorIsUnprefixed(ValidatorRaised(e));
    } else {
      var v := kit.validate(d);
      assert v.Invalid? && Contains(v.detail, e.detail);
      assert LoadResult(current, file, Some(d), kit) == LoadStep(current, false, Some(ValidationFailed(v.detail)));
      ReraisedIsRecoverable(ValidationFailed(v.detail));
    }
  }

  class SettingsManager {
    /** The validated settings; `None` while `self.settings` is unassigned. */
    var settings: Option<AppSettings>
    /** The text of data/settings.json, `None` when the file does not exist. */
    var file: Option<string>
    /** The exception that escaped the constructor, if any. */
    var initError: Option<LoadError>
    /** Every settings value written by `save`, in order. */
    ghost var writes: seq<AppSettings>
    const kit: Toolkit

    /** `__init__`: write the defaults when the file is absent, load it otherwise. */
    constructor (file: Option<string>, kit: Toolkit)
      ensures this.kit == kit
      ensures file.None? ==>
        && settings == Some(DefaultAppSettings())
        && writes == [DefaultAppSettings()]
        && this.file == Some(kit.dump(DefaultAppSettings()))
        && initError == None
      ensures file.Some? ==>
        var step := LoadResult(None, file, None, kit);
        && settings == step.settings
        && initError == (if step.failure.Some? then Some(Escaping(step.failure.value)) else None)
        && (step.saved ==> writes == [step.settings.value] && this.file == Some(kit.dump(step.settings.value)))
        && (!step.saved ==> writes == [] && this.file == file)
    {
      this.kit := kit;
      this.file := file;
      settings := None;
      initError := None;
      writes := [];
      new;
      if file.None? {
        settings := Some(DefaultAppSettings());
        Save();
      } else {
        var e := Load(None);
        initError := e;
      }
    }

    /** `clean_settings`: validate the filtered dictionary and hold the result. */
    method CleanSettings(d: map<string, Json>) returns (failure: Option<LoadFailure>)
      modifies this`settings
      ensures var v := kit.validate(Cleaned(d, TopLevelKeys));
        && (v.Valid? ==> settings == Some(v.settings) && failure == None)
        && (v.Invalid? ==> settings == old(settings) && failure == Some(ValidationFailed(v.detail)))
        && (v.Escapes? ==> settings == old(settings) && failure == Some(ValidatorRaised(v.error)))
    {
      match kit.validate(Cleaned(d, TopLevelKeys))
      case Valid(s) =>
        settings := Some(s);
        failure := None;
      case Invalid(msg) =>
        failure := Some(ValidationFailed(msg));
      case Escapes(e) =>
        failure := Some(ValidatorRaised(e));
    }

    /** `load`: read the dictionary (from the file when the argument is `None`
        or empty), validate it, clean it, save; a failure comes back as the
        exception that escapes. */
    method Load(arg: Option<map<string, Json>>) returns (error: Option<LoadError>)
      modifies this
      ensures var step := LoadResult(old(settings), old(file), arg, kit);
        && settings == step.settings
        && error == (if step.failure.Some? then Some(Escaping(step.failure.value)) else None)
        && (step.saved ==> writes == old(writes) + [step.settings.value] && file == Some(kit.dump(step.settings.value)))
        && (!step.saved ==> writes == old(writes) && file == old(file))
      ensures initError == old(initError)
    {
      var source: Json;
      if arg.None? || arg.value == map[] {
        if file.None? {
          return Some(Escaping(FileMissing(kit.missingDetail)));
        }
        match kit.parse(file.value)
        case Err(msg) =>
          return Some(Escaping(DecodeFailed(msg)));
        case Ok(j) =>
          source := j;
      } else {
        source := JObject(arg.value);
      }
      if !source.JObject? {
        return Some(Escaping(ValidationFailed(NotAnObject)));
      }
      var first := kit.validate(source.fields);
      if !first.Valid? {
        return Some(Escaping(ValidationFailure(first)));
      }
      settings := Some(first.settings);
      var failure := CleanSettings(source.fields);
      if failure.Some? {
        return Some(Escaping(failure.value));
      }
      Save();
      error := None;
    }

    /** `save`: write the held settings to the file. */
    method Save()
      requires settings.Some?
      modifies this`file, this`writes
      ensures file == Some(kit.dump(settings.value))
      ensures writes == old(writes) + [settings.value]
    {
      file := Some(kit.dump(settings.value));
      writes := writes + [settings.value];
    }
  }
}
