/**
 * Sending the extracted text to an AI provider and showing the answer
 * (`send_to_ai`, `send_to_openai_api`, `send_to_ollama`, `display_answer` in
 * main.py), and the model discovery of the settings dialog
 * (`refresh_ollama_models`). The network is a parameter: a function from
 * the request to what the server or the client library gave back.
 */
module Dispatch {
  import opened PyValue
  import PyText
  import Settings

  // ---------------------------------------------------------------- requests

  const PromptPrefix: string := "Please answer the question and keep short:"

  /** The JSON body `send_to_ollama` posts to `/api/generate`. */
  datatype OllamaPayload = OllamaPayload(
    model: Value,
    system: Value,
    prompt: string,
    stream: bool,
    temperature: Value,
    numPredict: Value)

  /** The body for the current settings; `textOnly` is the truthiness of
      `send_text_only`, which only chooses the prompt's separator. */
  function OllamaBody(settings: map<string, Value>, text: string, textOnly: bool): (p: OllamaPayload)
    ensures p.model == Settings.Lookup(settings, "ollama_model")
    ensures p.system == Settings.Lookup(settings, "system_prompt")
    ensures !p.stream
    ensures p.temperature == Settings.Lookup(settings, "temperature")
    ensures p.numPredict == Settings.Lookup(settings, "max_tokens")
    ensures PromptPrefix <= p.prompt && |text| <= |p.prompt| && p.prompt[|p.prompt| - |text|..] == text
  {
    var sep := if textOnly then "\n\n" else " ";
    var p := OllamaPayload(
      Settings.Lookup(settings, "ollama_model"),
      Settings.Lookup(settings, "system_prompt"),
      PromptPrefix + sep + text,
      false,
      Settings.Lookup(settings, "temperature"),
      Settings.Lookup(settings, "max_tokens"));
    assert p.prompt[..|PromptPrefix|] == PromptPrefix;
    p
  }

  /** The two branches of `send_to_ollama` build the same request except for
      the blank line after the prefix: in particular the image is never
      attached, whatever `send_text_only` says. */
  lemma OllamaBranchesDifferOnlyInSeparator(settings: map<string, Value>, text: string)
    ensures OllamaBody(settings, text, true) == OllamaBody(settings, text, false).(prompt := PromptPrefix + "\n\n" + text)
    ensures OllamaBody(settings, text, false).prompt == PromptPrefix + " " + text
  {
  }

  /** The chat request of `send_to_openai_api`. */
  datatype ChatRequest = ChatRequest(
    model: Value,
    systemText: Value,
    userText: string,
    maxTokens: Value,
    temperature: Value)

  function ChatBody(settings: map<string, Value>, text: string): (r: ChatRequest)
    ensures r.model == Settings.Lookup(settings, "openai_model")
    ensures r.systemText == Settings.Lookup(settings, "system_prompt")
    ensures r.maxTokens == Settings.Lookup(settings, "max_tokens")
    ensures r.temperature == Settings.Lookup(settings, "temperature")
  {
    ChatRequest(
      Settings.Lookup(settings, "openai_model"),
      Settings.Lookup(settings, "system_prompt"),
      PromptPrefix + " " + text,
      Settings.Lookup(settings, "max_tokens"),
      Settings.Lookup(settings, "temperature"))
  }

  /** The OpenAI user message and the Ollama prompt outside text-only mode
      are the same string; both providers get the same system prompt and
      generation limits. */
  lemma ProvidersAskTheSame(settings: map<string, Value>, text: string)
    ensures ChatBody(settings, text).userText == OllamaBody(settings, text, false).prompt
    ensures ChatBody(settings, text).systemText == OllamaBody(settings, text, true).system
    ensures ChatBody(settings, text).maxTokens == OllamaBody(settings, text, true).numPredict
  {
  }

  // ---------------------------------------------------------------- replies

  /** An HTTP response: status, the body parsed as JSON (None if it is not
      JSON) and the raw body text. */
  datatype HttpReply = HttpReply(status: int, json: Option<Value>, body: string)

  const NoResponse: string := "No response from Ollama"

  /** What one run of `send_to_ai` ends with. */
  datatype AiOutcome =
    | Display(answer: Value)                      // handed to display_answer
    | ClientMissing                               // OpenAI chosen but no client
    | OllamaRejected(status: int, body: string)   // a non-200 reply, logged
    | MalformedReply                              // a 200 reply that is not a JSON object
    | RequestFailed(message: string)              // the client call or the POST raised

  /** What `send_to_ollama` does with the server's reply: a 200 reply whose
      JSON object lacks "response" still yields an answer, the fixed
      sentence; a 200 reply that is not a JSON object makes the code raise. */
  function OllamaReply(reply: HttpReply): (o: AiOutcome)
    ensures reply.status != 200 <==> o.OllamaRejected?
    ensures o.OllamaRejected? ==> o == OllamaRejected(reply.status, reply.body)
    ensures reply.status == 200 && reply.json.Some? && reply.json.value.VDict? ==>
      o == Display(if "response" in reply.json.value.entries then reply.json.value.entries["response"]
                   else VStr(NoResponse))
    ensures o == MalformedReply <==> reply.status == 200 && !(reply.json.Some? && reply.json.value.VDict?)
  {
    if reply.status != 200 then OllamaRejected(reply.status, reply.body)
    else if reply.json.None? then MalformedReply
    else match reply.json.value
      case VDict(entries) => Display(if "response" in entries then entries["response"] else VStr(NoResponse))
      case _ => MalformedReply
  }

  /** `send_to_ai`, run after a capture has set the extracted `text`. OpenAI
      is used when the provider setting is exactly "openai", Ollama
      otherwise. `clientReady` is whether the global client exists, `create`
      is the chat call and `post` the HTTP POST, each returning or raising. */
  function SendToAi(settings: map<string, Value>, text: string, clientReady: bool,
                    create: ChatRequest -> Call<string>,
                    post: (string, OllamaPayload) -> Call<HttpReply>): AiOutcome
  {
    if Settings.Lookup(settings, "ai_provider") == VStr("openai") then
      if !clientReady then ClientMissing
      else match create(ChatBody(settings, text))
        case Returned(answer) => Display(VStr(answer))
        case Raised(msg) => RequestFailed(msg)
    else
      match post(OllamaEndpoint(settings), OllamaBody(settings, text, Truthy(Settings.Lookup(settings, "send_text_only"))))
      case Returned(reply) => OllamaReply(reply)
      case Raised(msg) => RequestFailed(msg)
  }

  /** `f"{url}/api/generate"` for the stored URL. */
  function OllamaEndpoint(settings: map<string, Value>): (url: string)
    ensures |url| >= 13 && url[|url| - 13..] == "/api/generate"
    ensures url[..|url| - 13] == Show(Settings.Lookup(settings, "ollama_url"))
  {
    Show(Settings.Lookup(settings, "ollama_url")) + "/api/generate"
  }

  /** Which provider is asked, with which request, and how an unreachable
      server is told apart from one that refuses. */
  lemma SendToAiRouting(settings: map<string, Value>, text: string, clientReady: bool,
                        create: ChatRequest -> Call<string>,
                        post: (string, OllamaPayload) -> Call<HttpReply>)
    ensures var o := SendToAi(settings, text, clientReady, create, post);
      var provider := Settings.Lookup(settings, "ai_provider");
      var body := OllamaBody(settings, text, Truthy(Settings.Lookup(settings, "send_text_only")));
      && (provider == VStr("openai") && !clientReady ==> o == ClientMissing)
      && (provider == VStr("openai") && clientReady && create(ChatBody(settings, text)).Returned? ==>
            o == Display(VStr(create(ChatBody(settings, text)).value)))
      && (provider == VStr("openai") && clientReady && create(ChatBody(settings, text)).Raised? ==>
            o == RequestFailed(create(ChatBody(settings, text)).message))
      && (provider != VStr("openai") && post(OllamaEndpoint(settings), body).Raised? ==>
            o == RequestFailed(post(OllamaEndpoint(settings), body).message))
      && (provider != VStr("openai") && post(OllamaEndpoint(settings), body).Returned? ==>
            o == OllamaReply(post(OllamaEndpoint(settings), body).value))
      && (o.ClientMissing? ==> provider == VStr("openai"))
      && (o.OllamaRejected? || o.MalformedReply? ==> provider != VStr("openai"))
  {
  }

  // ---------------------------------------------------------------- display

  /** `len(answer.split())`: the number of maximal whitespace-free runs. */
  function WordCount(answer: string): (n: nat)
    ensures n == PyText.RunEnds(answer)
  {
    PyText.SplitCountsRuns(answer);
    |PyText.Split(answer)|
  }

  function AnswerReady(words: nat): string
  {
    "\U{2705} Answer ready (" + NatToString(words) + " words) - Copied to clipboard!"
  }

  /** The status line `display_answer` sets: the word count for a string
      answer; any other value makes `split` raise and an error is shown. */
  function DisplayStatus(answer: Value): (status: string)
    ensures answer.VStr? ==> status == AnswerReady(PyText.RunEnds(answer.s))
    ensures !answer.VStr? ==> status == "\U{274C} Error displaying answer"
  {
    match answer
    case VStr(s) => AnswerReady(WordCount(s))
    case _ => "\U{274C} Error displaying answer"
  }

  /** A one-word answer "4" is reported as one word. */
  lemma OneWordAnswer()
    ensures WordCount("4") == 1
  {
    assert PyText.EndsRun("4", 0);
    assert "4"[1..] == [];
  }

  lemma OneWordStatus()
    ensures DisplayStatus(VStr("4")) == AnswerReady(1)
  {
    OneWordAnswer();
  }

  // ---------------------------------------------------------------- models

  const VisionKeywords: seq<string> := ["llava", "bakllava", "moondream", "minicpm-v", "vision"]

  /** `any(keyword in m.lower() for keyword in vision_keywords)`. */
  predicate IsVisionModel(name: string)
  {
    exists k :: 0 <= k < |VisionKeywords| && PyText.Contains(PyText.Lower(name), VisionKeywords[k])
  }

  /** The keyword test does not depend on the case of the model's name. */
  lemma VisionMatchIgnoresCase(name: string)
    ensures IsVisionModel(PyText.UpperAscii(name)) <==> IsVisionModel(name)
  {
    PyText.LowerIgnoresCase(name);
  }

  /** The vision models among `names`, in their order. */
  function VisionModels(names: seq<string>): seq<string>
    decreases |names|
  {
    if names == [] then []
    else if IsVisionModel(names[|names| - 1]) then VisionModels(names[..|names| - 1]) + [names[|names| - 1]]
    else VisionModels(names[..|names| - 1])
  }

  /** Exactly the vision models pass the filter. */
  lemma {:induction false} VisionModelsMembers(names: seq<string>, m: string)
    ensures m in VisionModels(names) <==> m in names && IsVisionModel(m)
    decreases |names|
  {
    if names != [] {
      var init := names[..|names| - 1];
      VisionModelsMembers(init, m);
      assert names == init + [names[|names| - 1]];
    }
  }

  /** The filter keeps the order of the list it is given. */
  lemma {:induction false} VisionModelsAppend(a: seq<string>, b: seq<string>)
    ensures VisionModels(a + b) == VisionModels(a) + VisionModels(b)
    decreases |b|
  {
    if b == [] {
      assert a + b == a;
    } else {
      var init := b[..|b| - 1];
      assert (a + b)[..|a + b| - 1] == a + init;
      assert (a + b)[|a + b| - 1] == b[|b| - 1];
      VisionModelsAppend(a, init);
    }
  }

  /** The filter comes back empty exactly when no name is a vision model. */
  lemma VisionModelsEmpty(names: seq<string>)
    ensures VisionModels(names) == [] <==> forall i :: 0 <= i < |names| ==> !IsVisionModel(names[i])
  {
    if VisionModels(names) != [] {
      VisionModelsMembers(names, VisionModels(names)[0]);
    }
    forall i | 0 <= i < |names| && IsVisionModel(names[i])
      ensures VisionModels(names) != []
    {
      VisionModelsMembers(names, names[i]);
    }
  }

  /** The choices the model box is given: the vision models if there are any,
      otherwise the first ten names (fewer if there are fewer). */
  function ShownModels(names: seq<string>): (shown: seq<string>)
    ensures (exists i :: 0 <= i < |names| && IsVisionModel(names[i])) ==>
      shown == VisionModels(names) && shown != []
    ensures (forall i :: 0 <= i < |names| ==> !IsVisionModel(names[i])) ==>
      shown == names[..Min(10, |names|)]
    ensures forall m :: m in shown ==> m in names
  {
    VisionModelsEmpty(names);
    var vision := VisionModels(names);
    if vision != [] then
      assert forall m :: m in vision ==> m in names by {
        forall m | m in vision ensures m in names { VisionModelsMembers(names, m); }
      }
      vision
    else
      assert forall m :: m in names[..Min(10, |names|)] ==> m in names;
      names[..Min(10, |names|)]
  }

  /** What the tags endpoint gave back: a connection failure, or a status and
      the `name` of each entry of the reply's "models" list. */
  datatype TagsReply = Unreachable(message: string) | Tags(status: int, names: seq<string>)

  /** The outcome of "Refresh models". */
  datatype RefreshOutcome =
    | NeedUrl                                                   // the URL field is blank
    | FetchFailed(status: int)
    | CannotConnect(message: string)
    | Listed(choices: seq<string>, found: nat, preview: seq<string>)

  /** `refresh_ollama_models`; `fetch` is the GET request. */
  function RefreshModels(urlField: string, fetch: string -> TagsReply): (o: RefreshOutcome)
    ensures PyText.AllSpace(urlField) <==> o == NeedUrl
    ensures var reply := fetch(PyText.Strip(urlField) + "/api/tags");
      && (o.CannotConnect? <==> !PyText.AllSpace(urlField) && reply.Unreachable?)
      && (o.CannotConnect? ==> o.message == reply.message)
      && (o.FetchFailed? <==> !PyText.AllSpace(urlField) && reply.Tags? && reply.status != 200)
      && (o.FetchFailed? ==> o.status == reply.status)
      && (o.Listed? <==> !PyText.AllSpace(urlField) && reply.Tags? && reply.status == 200)
    ensures o.Listed? ==>
      var names := fetch(PyText.Strip(urlField) + "/api/tags").names;
      && o.choices == ShownModels(names)
      && o.preview == o.choices[..Min(5, |o.choices|)]
      && ((exists i :: 0 <= i < |names| && IsVisionModel(names[i])) ==> o.found == |VisionModels(names)|)
      && ((forall i :: 0 <= i < |names| ==> !IsVisionModel(names[i])) ==> o.found == |names|)
  {
    PyText.StripEmpty(urlField);
    var url := PyText.Strip(urlField);
    if url == "" then NeedUrl
    else match fetch(url + "/api/tags")
      case Unreachable(msg) => CannotConnect(msg)
      case Tags(status, names) =>
        if status != 200 then FetchFailed(status)
        else
          Listing(names)
  }

  /** What a successful tags reply listing `names` shows: the choices, the
      count in the message and the names it previews. */
  function Listing(names: seq<string>): (o: RefreshOutcome)
    ensures o.Listed?
    ensures o.choices == ShownModels(names)
    ensures o.preview == o.choices[..Min(5, |o.choices|)]
    ensures (exists i :: 0 <= i < |names| && IsVisionModel(names[i])) ==> o.found == |VisionModels(names)|
    ensures (forall i :: 0 <= i < |names| ==> !IsVisionModel(names[i])) ==> o.found == |names|
  {
    var vision := VisionModels(names);
    var shown := ShownModels(names);
    VisionModelsEmpty(names);
    if vision != [] then Listed(shown, |vision|, shown[..Min(5, |shown|)])
    else
      assert names[..Min(5, |names|)] == shown[..Min(5, |shown|)];
      Listed(shown, |names|, names[..Min(5, |names|)])
  }
}
