/**
 * The language-model service: which prompt type is current, the list of prompt types offered,
 * and how `processText` turns a transcript and its options into a chat-completion request.
 * The request itself is not sent here; its reply is a parameter.
 */
module OpenAI {
  import opened Wrappers
  import opened JsString
  import Config

  /** The system message's text: the one given in the options, or a prompt type's instructions. */
  datatype SystemText = Given(text: string) | Configured(instructions: Config.Instructions)
  {
    function Text(): string {
      match this
      case Given(t) => t
      case Configured(i) => i.Text()
    }
  }

  /**
   * The chat-completion request `processText` sends. Its `messages` are the system message
   * (`system.Text()`) followed by the transcript as the user's message.
   */
  datatype ChatRequest = ChatRequest(
    model: string,
    system: SystemText,
    userText: string,
    temperature: real,
    maxTokens: nat)

  /** The second argument of `processText`; `None` is a property that is `undefined`. */
  datatype ProcessOptions = ProcessOptions(
    promptType: Option<string>,
    model: Option<string>,
    systemPrompt: Option<string>,
    temperature: Option<real>,
    maxTokens: Option<nat>)

  /** `processText(text)` called without options. */
  const NoOptions: ProcessOptions := ProcessOptions(None, None, None, None, None)

  /** The error `processText` throws for a prompt type that is not configured. */
  function InvalidPromptType(p: string): string {
    "Invalid prompt type: " + p
  }

  /** The prompt type a request uses: the option when it is a non-empty string, else the current one. */
  function EffectivePromptType(current: string, options: ProcessOptions): (p: string)
    ensures options.promptType.Some? && options.promptType.value != "" ==> p == options.promptType.value
    ensures options.promptType.None? || options.promptType.value == "" ==> p == current
  {
    if options.promptType.Some? && options.promptType.value != "" then options.promptType.value else current
  }

  /**
   * The parameter resolution of `processText`: destructuring defaults apply only to
   * properties that are `undefined`, and the temperature and token-budget defaults fall back
   * to the global settings when the prompt type's own value is missing or zero.
   */
  function ResolveRequest(current: string, text: string, options: ProcessOptions): (r: Result<ChatRequest>)
    ensures r.Err? <==> !Config.IsPromptType(EffectivePromptType(current, options))
    ensures r.Err? ==> r.error == InvalidPromptType(EffectivePromptType(current, options))
    ensures r.Ok? ==> r.value.userText == text
  {
    var promptType := EffectivePromptType(current, options);
    if promptType !in Config.PromptTypes then Err(InvalidPromptType(promptType))
    else
      var pc := Config.PromptTypes[promptType];
      var system := if options.systemPrompt.Some? then Given(options.systemPrompt.value) else Configured(pc.systemPrompt);
      var model := if options.model.Some? then options.model.value else Config.Model;
      var temperature :=
        if options.temperature.Some? then options.temperature.value
        else if pc.temperature != 0.0 then pc.temperature else Config.Temperature;
      var maxTokens :=
        if options.maxTokens.Some? then options.maxTokens.value
        else if pc.maxTokens.Some? && pc.maxTokens.value != 0 then pc.maxTokens.value else Config.MaxTokens;
      Ok(ChatRequest(model, system, text, temperature, maxTokens))
  }

  /** Without a token-budget option, grammar requests get 500 tokens and every other type 256. */
  lemma TokenBudget(current: string, text: string, options: ProcessOptions)
    requires options.maxTokens.None?
    requires Config.IsPromptType(EffectivePromptType(current, options))
    ensures ResolveRequest(current, text, options).Ok?
    ensures ResolveRequest(current, text, options).value.maxTokens ==
      if EffectivePromptType(current, options) == "grammar" then 500 else 256
  {
    Config.OnlyGrammarHasMaxTokens();
  }

  /** An option that is present always wins over the configured value, even when it is falsy. */
  lemma OptionsOverride(current: string, text: string, options: ProcessOptions)
    requires ResolveRequest(current, text, options).Ok?
    ensures var q := ResolveRequest(current, text, options).value;
      && (options.model.Some? ==> q.model == options.model.value)
      && (options.systemPrompt.Some? ==> q.system == Given(options.systemPrompt.value))
      && (options.temperature.Some? ==> q.temperature == options.temperature.value)
      && (options.maxTokens.Some? ==> q.maxTokens == options.maxTokens.value)
  {
  }

  /** A request without options uses the current type's instructions and temperature and the global model. */
  lemma DefaultRequest(current: string, text: string)
    requires Config.IsPromptType(current)
    ensures var r := ResolveRequest(current, text, NoOptions);
      && r.Ok?
      && r.value.model == Config.Model
      && r.value.system == Configured(Config.PromptTypes[current].systemPrompt)
      && r.value.temperature == Config.PromptTypes[current].temperature
  {
  }

  /** An empty prompt-type option is ignored in favour of the current type. */
  lemma EmptyPromptTypeOptionIgnored(current: string, text: string, options: ProcessOptions)
    requires options.promptType == Some("")
    ensures ResolveRequest(current, text, options) ==
      ResolveRequest(current, text, options.(promptType := None))
  {
  }

  /** One entry of `getAvailablePromptTypes()`. */
  datatype PromptTypeInfo = PromptTypeInfo(id: string, name: string)

  /** `keys.map(key => ({id: key, name: promptTypes[key].name}))`. */
  function Describe(keys: seq<string>): (r: seq<PromptTypeInfo>)
    requires forall k :: k in keys ==> k in Config.PromptTypes
    ensures |r| == |keys|
    ensures forall i :: 0 <= i < |r| ==> r[i] == PromptTypeInfo(keys[i], Config.PromptTypes[keys[i]].name)
  {
    if keys == [] then [] else [PromptTypeInfo(keys[0], Config.PromptTypes[keys[0]].name)] + Describe(keys[1..])
  }

  /**
   * The names `promptTypes[p]` also finds on an object literal: the properties it inherits
   * from `Object.prototype` (section 20.1.3 of ECMA-262, and the accessors of its Annex B.2.2).
   */
  const InheritedNames: seq<string> := [
    "constructor", "hasOwnProperty", "isPrototypeOf", "propertyIsEnumerable",
    "toLocaleString", "toString", "valueOf", "__proto__",
    "__defineGetter__", "__defineSetter__", "__lookupGetter__", "__lookupSetter__"
  ]

  /** Whether `promptTypes[p]` is truthy as the code is written: an own key or an inherited name. */
  predicate LookupIsTruthyAsWritten(p: string) {
    Config.IsPromptType(p) || p in InheritedNames
  }

  /** As written, `setPromptType("toString")` is accepted although "toString" is no prompt type. */
  lemma InheritedNameAcceptedAsWritten()
    ensures LookupIsTruthyAsWritten("toString") && !Config.IsPromptType("toString")
  {
    assert InheritedNames[5] == "toString";
  }

  class OpenAIService {
    const apiKey: string
    var currentPromptType: string

    /** The current prompt type is one of the configured ones. */
    ghost predicate Valid()
      reads this
    {
      Config.IsPromptType(currentPromptType)
    }

    /** `new OpenAIService(apiKey)` once the key check has passed. */
    constructor (apiKey: string)
      requires apiKey != ""
      ensures this.apiKey == apiKey && currentPromptType == Config.DefaultPromptType
      ensures Valid()
    {
      this.apiKey := apiKey;
      currentPromptType := Config.DefaultPromptType;
      new;
      Config.DefaultIsPromptType();
    }

    /** `getCurrentPromptConfig()`: `None` is `undefined`, which a valid service never returns. */
    function GetCurrentPromptConfig(): (r: Option<Config.PromptConfig>)
      reads this
      ensures Valid() ==> r == Some(Config.PromptTypes[currentPromptType])
      ensures !Valid() ==> r.None?
    {
      if currentPromptType in Config.PromptTypes then Some(Config.PromptTypes[currentPromptType]) else None
    }

    /**
     * `setPromptType(p)`: accepted exactly for a configured prompt type, which becomes
     * current; otherwise nothing changes. (The code also accepts inherited property names;
     * see `LookupIsTruthyAsWritten`.)
     */
    method SetPromptType(promptType: string) returns (ok: bool)
      modifies this`currentPromptType
      ensures ok <==> Config.IsPromptType(promptType)
      ensures currentPromptType == if ok then promptType else old(currentPromptType)
      ensures old(Valid()) ==> Valid()
    {
      if promptType in Config.PromptTypes {
        currentPromptType := promptType;
        ok := true;
      } else {
        ok := false;
      }
    }

    /** `getAvailablePromptTypes()`: one entry per configured prompt type, in key order. */
    function GetAvailablePromptTypes(): (r: seq<PromptTypeInfo>)
      ensures |r| == |Config.PromptKeys|
      ensures forall i :: 0 <= i < |r| ==> r[i].id == Config.PromptKeys[i]
      ensures forall p :: Config.IsPromptType(p) <==> exists i :: 0 <= i < |r| && r[i].id == p
      ensures forall i :: 0 <= i < |r| ==> r[i].id in Config.PromptTypes && r[i].name == Config.PromptTypes[r[i].id].name
    {
      Config.PromptKeysAreTheTable();
      var r := Describe(Config.PromptKeys);
      assert forall p :: p in Config.PromptKeys ==> exists i :: 0 <= i < |r| && r[i].id == p;
      r
    }

    /**
     * `processText(text, options)`, with the completion's outcome as a parameter: an unknown
     * prompt type fails before any request is sent; otherwise the resolved request is sent and
     * the reply's content comes back trimmed, or its error is passed on.
     */
    function ProcessText(text: string, options: ProcessOptions, reply: Result<string>): (x: Exchange)
      reads this
      ensures x.sent.None? <==> !Config.IsPromptType(EffectivePromptType(currentPromptType, options))
      ensures x.sent.None? ==> x.result == Err(InvalidPromptType(EffectivePromptType(currentPromptType, options)))
      ensures x.sent.Some? ==> x.sent.value.userText == text
      ensures x.sent.Some? ==> ResolveRequest(currentPromptType, text, options) == Ok(x.sent.value)
      ensures x.sent.Some? && reply.Err? ==> x.result == reply
      ensures x.sent.Some? && reply.Ok? ==> x.result == Ok(Trim(reply.value))
      ensures x.sent.Some? && reply.Ok? ==>
        x.result.Ok? && Trimmed(x.result.value)
        && (x.result.value == "" <==> IsBlank(reply.value))
    {
      match ResolveRequest(currentPromptType, text, options)
      case Err(e) => Exchange(None, Err(e))
      case Ok(request) =>
        Exchange(Some(request), if reply.Ok? then Ok(Trim(reply.value)) else reply)
    }
  }

  /** What `processText` sent, if anything, and what it returned or threw. */
  datatype Exchange = Exchange(sent: Option<ChatRequest>, result: Result<string>)

  /** `new OpenAIService(apiKey)`: a missing or empty key throws. */
  method Create(apiKey: Option<string>) returns (r: Result<OpenAIService>)
    ensures r.Err? <==> apiKey.None? || apiKey.value == ""
    ensures r.Err? ==> r.error == "OpenAI API key is required"
    ensures r.Ok? ==>
      fresh(r.value) && r.value.Valid() && r.value.apiKey == apiKey.value
      && r.value.currentPromptType == Config.DefaultPromptType
  {
    if apiKey.None? || apiKey.value == "" {
      return Err("OpenAI API key is required");
    }
    var service := new OpenAIService(apiKey.value);
    return Ok(service);
  }

  /** A valid service resolves a request without options. */
  lemma ValidServiceResolves(s: OpenAIService, text: string)
    requires s.Valid()
    ensures s.ProcessText(text, NoOptions, Ok("")).sent.Some?
  {
  }
}
