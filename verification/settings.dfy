/**
 * The settings store of the full tool (`SettingsManager` in main.py) and the
 * validation its settings dialog applies before saving. The settings file is
 * abstracted to what reading it produced; writing it is a boolean outcome.
 */
module Settings {
  import opened PyValue
  import PyText

  const DefaultSystemPrompt: string :=
    "You are an advanced AI assistant specializing in analyzing text extracted from images. "
    + "Provide clear, accurate, and detailed answers based on the given text content. "
    + "Focus on understanding the context and providing helpful responses in English "
    + "with perfect grammar and contextual accuracy."

  /** The built-in defaults, one entry per setting the tool knows. */
  const DefaultSettings: map<string, Value> := map[
    "ai_provider" := VStr("openai"),
    "openai_model" := VStr("gpt-4o-mini"),
    "ollama_url" := VStr("http://localhost:11434"),
    "ollama_model" := VStr("gemma3:12b"),
    "max_tokens" := VInt(1000),
    "temperature" := VReal(0.1),
    "system_prompt" := VStr(DefaultSystemPrompt),
    "ocr_method" := VStr("pytesseract"),
    "send_text_only" := VBool(true),
    "ocr_language" := VStr("eng"),
    "window_transparency" := VReal(0.9)
  ]

  /** What looking for and reading `settings.json` produced. */
  datatype SettingsFile =
    | Missing                                 // the file does not exist
    | Parsed(contents: map<string, Value>)    // a JSON object was read
    | Unreadable                              // opening or parsing raised

  /** `load_settings`: the defaults, overridden by every key the file has. */
  function Load(file: SettingsFile): (s: map<string, Value>)
    ensures file.Parsed? ==> s.Keys == DefaultSettings.Keys + file.contents.Keys
    ensures !file.Parsed? ==> s == DefaultSettings
    ensures forall k :: k in DefaultSettings ==> k in s
    ensures file.Parsed? ==> forall k :: k in file.contents ==> s[k] == file.contents[k]
    ensures forall k :: k in DefaultSettings && !(file.Parsed? && k in file.contents) ==>
      s[k] == DefaultSettings[k]
  {
    match file
    case Parsed(contents) => DefaultSettings + contents
    case _ => DefaultSettings
  }

  /** `settings.get(key, default_settings.get(key))`: the stored value, else
      the default, else None. */
  function Lookup(settings: map<string, Value>, key: string): (v: Value)
    ensures key in settings ==> v == settings[key]
    ensures key !in settings && key in DefaultSettings ==> v == DefaultSettings[key]
    ensures key !in settings && key !in DefaultSettings ==> v == VNull
  {
    if key in settings then settings[key]
    else if key in DefaultSettings then DefaultSettings[key]
    else VNull
  }

  /** After loading, a lookup gives the file's value where the file has one
      and the default otherwise. */
  lemma LookupAfterLoad(file: SettingsFile, key: string)
    ensures Lookup(Load(file), key) ==
      if file.Parsed? && key in file.contents then file.contents[key]
      else if key in DefaultSettings then DefaultSettings[key]
      else VNull
  {
  }

  /** Setting one key changes what a lookup of that key gives and nothing
      else. */
  lemma LookupAfterSet(settings: map<string, Value>, key: string, value: Value, other: string)
    ensures Lookup(settings[key := value], key) == value
    ensures other != key ==> Lookup(settings[key := value], other) == Lookup(settings, other)
  {
  }

  class SettingsManager {
    var settings: map<string, Value>

    /** Every default key is always present. */
    ghost predicate Valid()
      reads this
    {
      DefaultSettings.Keys <= settings.Keys
    }

    /** `__init__`, which loads the settings file. */
    constructor (file: SettingsFile)
      ensures Valid()
      ensures settings == Load(file)
    {
      settings := Load(file);
    }

    /** `get`. */
    function Get(key: string): (v: Value)
      reads this
      ensures key in settings ==> v == settings[key]
      ensures key !in settings ==> v == Lookup(map[], key)
      ensures Valid() && key in DefaultSettings ==> v == settings[key]
    {
      Lookup(settings, key)
    }

    /** `set`: overwrite one key. */
    method Set(key: string, value: Value)
      modifies this
      ensures settings == old(settings)[key := value]
      ensures old(Valid()) ==> Valid()
    {
      settings := settings[key := value];
    }
  }

  /** What the settings dialog holds when "Save" is pressed. `maxTokens` and
      `temperature` are the values of the dialog's IntVar and DoubleVar, None
      when the entry holds text that `get()` cannot convert. */
  datatype Form = Form(
    provider: string,
    openaiModel: string,
    ollamaUrl: string,
    ollamaModel: string,
    maxTokens: Option<int>,
    temperature: Option<real>,
    systemPrompt: string,
    sendTextOnly: bool,
    ocrMethod: string,
    ocrLanguage: string,
    transparency: real)

  /** Why the dialog refuses to save. */
  datatype SaveError = NoApiKey | NoOpenAIModel | NoOllamaUrl | NoOllamaModel

  /** The checks of `SettingsWindow.save_settings`, in their order; `apiKey` is
      the value of OPENAI_API_KEY, "" when it is unset or empty. Any provider
      other than "openai" is treated as Ollama. */
  function Validate(form: Form, apiKey: string): Option<SaveError>
  {
    if form.provider == "openai" then
      if apiKey == "" then Some(NoApiKey)
      else if form.openaiModel == "" then Some(NoOpenAIModel)
      else None
    else
      if PyText.Strip(form.ollamaUrl) == "" then Some(NoOllamaUrl)
      else if form.ollamaModel == "" then Some(NoOllamaModel)
      else None
  }

  /** The dialog saves exactly when the chosen provider is usable: for OpenAI
      a key and a model, for Ollama a URL with something besides whitespace
      and a model. */
  lemma ValidateAccepts(form: Form, apiKey: string)
    ensures Validate(form, apiKey) == None <==>
      if form.provider == "openai" then apiKey != "" && form.openaiModel != ""
      else !PyText.AllSpace(form.ollamaUrl) && form.ollamaModel != ""
  {
    PyText.StripEmpty(form.ollamaUrl);
  }

  /** The Ollama fields are never checked when OpenAI is chosen, and the
      OpenAI key and model never when Ollama is. */
  lemma ValidateIgnoresOtherProvider(form: Form, apiKey: string, url: string, model: string, key2: string, model2: string)
    ensures form.provider == "openai" ==>
      Validate(form.(ollamaUrl := url, ollamaModel := model), apiKey) == Validate(form, apiKey)
    ensures form.provider != "openai" ==>
      Validate(form.(openaiModel := model2), key2) == Validate(form, apiKey)
  {
  }

  /** The eleven settings the dialog writes: exactly the settings the tool
      has defaults for. */
  function FormSettings(form: Form): (m: map<string, Value>)
    requires form.maxTokens.Some? && form.temperature.Some?
    ensures m.Keys == DefaultSettings.Keys
  {
    map[
      "ai_provider" := VStr(form.provider),
      "openai_model" := VStr(form.openaiModel),
      "ollama_url" := VStr(PyText.Strip(form.ollamaUrl)),
      "ollama_model" := VStr(form.ollamaModel),
      "max_tokens" := VInt(form.maxTokens.value),
      "temperature" := VReal(form.temperature.value),
      "system_prompt" := VStr(form.systemPrompt),
      "send_text_only" := VBool(form.sendTextOnly),
      "ocr_method" := VStr(form.ocrMethod),
      "ocr_language" := VStr(form.ocrLanguage),
      "window_transparency" := VReal(form.transparency)
    ]
  }

  /** The outcome of pressing "Save". */
  datatype SaveOutcome =
    | Refused(reason: SaveError)   // a validation message was shown, nothing changed
    | ReadFailed                   // a field's get() raised part-way through the updates
    | WriteFailed                  // the settings were updated but the file write failed
    | Saved                        // updated and written

  /** `SettingsWindow.save_settings`. `writeOk` is whether writing
      settings.json succeeds. The updates are made one by one, so a max-tokens
      entry that does not parse leaves the first four settings already
      changed. */
  method SaveSettings(mgr: SettingsManager, form: Form, apiKey: string, writeOk: bool)
    returns (outcome: SaveOutcome)
    modifies mgr
    ensures Validate(form, apiKey).Some? ==>
      outcome == Refused(Validate(form, apiKey).value) && mgr.settings == old(mgr.settings)
    ensures Validate(form, apiKey).None? && form.maxTokens.None? ==>
      outcome == ReadFailed &&
      mgr.settings == old(mgr.settings)["ai_provider" := VStr(form.provider)]
                                       ["openai_model" := VStr(form.openaiModel)]
                                       ["ollama_url" := VStr(PyText.Strip(form.ollamaUrl))]
                                       ["ollama_model" := VStr(form.ollamaModel)]
    ensures Validate(form, apiKey).None? && form.maxTokens.Some? && form.temperature.None? ==>
      outcome == ReadFailed &&
      mgr.settings == old(mgr.settings)["ai_provider" := VStr(form.provider)]
                                       ["openai_model" := VStr(form.openaiModel)]
                                       ["ollama_url" := VStr(PyText.Strip(form.ollamaUrl))]
                                       ["ollama_model" := VStr(form.ollamaModel)]
                                       ["max_tokens" := VInt(form.maxTokens.value)]
    ensures Validate(form, apiKey).None? && form.maxTokens.Some? && form.temperature.Some? ==>
      outcome == (if writeOk then Saved else WriteFailed) &&
      mgr.settings == old(mgr.settings) + FormSettings(form)
    ensures old(mgr.Valid()) ==> mgr.Valid()
  {
    var refusal := Validate(form, apiKey);
    if refusal.Some? {
      return Refused(refusal.value);
    }
    mgr.Set("ai_provider", VStr(form.provider));
    mgr.Set("openai_model", VStr(form.openaiModel));
    mgr.Set("ollama_url", VStr(PyText.Strip(form.ollamaUrl)));
    mgr.Set("ollama_model", VStr(form.ollamaModel));
    if form.maxTokens.None? {
      return ReadFailed;
    }
    mgr.Set("max_tokens", VInt(form.maxTokens.value));
    if form.temperature.None? {
      return ReadFailed;
    }
    mgr.Set("temperature", VReal(form.temperature.value));
    mgr.Set("system_prompt", VStr(form.systemPrompt));
    mgr.Set("send_text_only", VBool(form.sendTextOnly));
    mgr.Set("ocr_method", VStr(form.ocrMethod));
    mgr.Set("ocr_language", VStr(form.ocrLanguage));
    mgr.Set("window_transparency", VReal(form.transparency));
    SetsMakeUnion(old(mgr.settings), form);
    outcome := if writeOk then Saved else WriteFailed;
  }

  /** The eleven `set` calls of a save, one after the other, amount to
      overlaying the dialog's settings. */
  lemma SetsMakeUnion(s: map<string, Value>, form: Form)
    requires form.maxTokens.Some? && form.temperature.Some?
    ensures s["ai_provider" := VStr(form.provider)]
             ["openai_model" := VStr(form.openaiModel)]
             ["ollama_url" := VStr(PyText.Strip(form.ollamaUrl))]
             ["ollama_model" := VStr(form.ollamaModel)]
             ["max_tokens" := VInt(form.maxTokens.value)]
             ["temperature" := VReal(form.temperature.value)]
             ["system_prompt" := VStr(form.systemPrompt)]
             ["send_text_only" := VBool(form.sendTextOnly)]
             ["ocr_method" := VStr(form.ocrMethod)]
             ["ocr_language" := VStr(form.ocrLanguage)]
             ["window_transparency" := VReal(form.transparency)]
      == s + FormSettings(form)
  {
    var m := map[];
    var cur := s;
    assert cur == s + m;
    cur, m := SetOverlaid(s, cur, m, "ai_provider", VStr(form.provider));
    cur, m := SetOverlaid(s, cur, m, "openai_model", VStr(form.openaiModel));
    cur, m := SetOverlaid(s, cur, m, "ollama_url", VStr(PyText.Strip(form.ollamaUrl)));
    cur, m := SetOverlaid(s, cur, m, "ollama_model", VStr(form.ollamaModel));
    cur, m := SetOverlaid(s, cur, m, "max_tokens", VInt(form.maxTokens.value));
    cur, m := SetOverlaid(s, cur, m, "temperature", VReal(form.temperature.value));
    cur, m := SetOverlaid(s, cur, m, "system_prompt", VStr(form.systemPrompt));
    cur, m := SetOverlaid(s, cur, m, "send_text_only", VBool(form.sendTextOnly));
    cur, m := SetOverlaid(s, cur, m, "ocr_method", VStr(form.ocrMethod));
    cur, m := SetOverlaid(s, cur, m, "ocr_language", VStr(form.ocrLanguage));
    cur, m := SetOverlaid(s, cur, m, "window_transparency", VReal(form.transparency));
    assert m == FormSettings(form);
  }

  /** One `set` on a map that is `s` overlaid with `m` gives `s` overlaid
      with `m` updated the same way. */
  lemma SetOverlaid(s: map<string, Value>, cur: map<string, Value>, m: map<string, Value>, key: string, value: Value)
    returns (cur': map<string, Value>, m': map<string, Value>)
    requires cur == s + m
    ensures cur' == cur[key := value] && m' == m[key := value]
    ensures cur' == s + m'
  {
    cur', m' := cur[key := value], m[key := value];
  }
}
