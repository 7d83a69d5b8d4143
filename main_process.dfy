/**
 * The main process: the start-up key checks and the IPC handlers. The `stop-recording` handler
 * answers with a canned transcription for the current prompt type, has it processed by the
 * language model and has a part of the reply spoken, reporting each step to the page; every
 * message it sends is appended to a trace.
 */
module MainProcess {
  import opened Wrappers
  import opened JsString
  import Config
  import OpenAI
  import Deepgram
  import UiControl

  // ---------------------------------------------------------------- canned transcription

  /** The transcription used for a prompt type that has no canned one of its own. */
  const FallbackTranscription: string := "What are your thoughts on this project?"

  /** The simulated transcription `stop-recording` uses for a prompt type. */
  function CannedTranscription(promptType: string): string {
    if promptType == "email" then "I need to write an email to my team about the project delay."
    else if promptType == "bulletPoints" then
      "I'm thinking about improving our customer service process by implementing a new ticketing system, training our staff better, and maybe creating some kind of reward system for good service."
    else if promptType == "grammar" then
      "The company have been struggling with they're sales targets and the team dont know how to fix this problem because customers is not interested in our products anymore."
    else FallbackTranscription
  }

  /** Every prompt type but the configured ones gets the fallback transcription. */
  lemma CannedFallback(promptType: string)
    requires !Config.IsPromptType(promptType)
    ensures CannedTranscription(promptType) == FallbackTranscription
  {
  }

  // ---------------------------------------------------------------- the text to speak

  /**
   * The text `stop-recording` has spoken: when both tags occur, in whichever order, the trimmed
   * `substring` between the end of the first start tag and the first end tag; otherwise the
   * whole reply.
   */
  function MainSpeechText(m: string): string {
    if Contains(m, UiControl.StartTag) && Contains(m, UiControl.EndTag)
    then Trim(Substring(m, IndexOf(m, UiControl.StartTag) + 7, IndexOf(m, UiControl.EndTag)))
    else m
  }

  /** For a reply with its tags in order, the main process speaks exactly what the page displays. */
  lemma MainSpeaksDisplayedText(m: string)
    requires UiControl.TagsInOrder(m)
    ensures MainSpeechText(m) == UiControl.AssistantDisplayText(m)
  {
  }

  /** A reply lacking either tag is spoken whole by both pipelines and displayed whole. */
  lemma UntaggedReplyAgrees(m: string)
    requires !Contains(m, UiControl.StartTag) || !Contains(m, UiControl.EndTag)
    ensures MainSpeechText(m) == m
    ensures UiControl.SpeechText(m) == Some(m) && UiControl.AssistantDisplayText(m) == m
  {
  }

  /** The first start tag and the first end tag of a reply never start at the same index. */
  lemma TagsStartApart(m: string)
    requires Contains(m, UiControl.StartTag) && Contains(m, UiControl.EndTag)
    ensures IndexOf(m, UiControl.StartTag) != IndexOf(m, UiControl.EndTag)
  {
    var s, e := IndexOf(m, UiControl.StartTag), IndexOf(m, UiControl.EndTag);
    assert m[s + 1] == UiControl.StartTag[1] == 's';
    assert m[e + 1] == UiControl.EndTag[1] == 'e';
  }

  /** With the first end tag before the first start tag, `substring` swaps its arguments. */
  lemma ReversedTagsSwap(m: string)
    requires Contains(m, UiControl.StartTag) && Contains(m, UiControl.EndTag)
    requires !UiControl.TagsInOrder(m)
    ensures IndexOf(m, UiControl.EndTag) < IndexOf(m, UiControl.StartTag)
    ensures IndexOf(m, UiControl.StartTag) + 7 <= |m|
    ensures MainSpeechText(m) == Trim(m[IndexOf(m, UiControl.EndTag)..IndexOf(m, UiControl.StartTag) + 7])
  {
    var s, e := IndexOf(m, UiControl.StartTag), IndexOf(m, UiControl.EndTag);
    TagsStartApart(m);
    assert Substring(m, s + 7, e) == m[e..s + 7];
  }

  /** Both tags open with `<` and close with `>`. */
  lemma TagDelimiters()
    ensures |UiControl.StartTag| == 7 && UiControl.StartTag[0] == '<' && UiControl.StartTag[6] == '>'
    ensures |UiControl.EndTag| == 5 && UiControl.EndTag[0] == '<' && UiControl.EndTag[4] == '>'
  {
  }

  /**
   * The stretch from an occurrence of `close` through a later occurrence of `open` starts
   * with `close` and, as both ends are visible characters, is left alone by `trim`.
   */
  lemma TaggedStretch(m: string, open: string, close: string, e: int, s: int, n: int)
    requires n == |open| && OccursAt(m, close, e) && OccursAt(m, open, s) && e < s
    requires 0 < |close| <= n
    requires '!' <= close[0] <= '~' && '!' <= open[n - 1] <= '~'
    ensures Trim(m[e..s + n]) == m[e..s + n]
    ensures StartsWith(m[e..s + n], close)
  {
    var t := m[e..s + n];
    assert t[0] == m[e] == close[0];
    assert t[|t| - 1] == m[s + n - 1] == open[n - 1];
    UiControl.TrimmedLiteral(t);
    assert t[..|close|] == m[e..e + |close|];
  }

  /**
   * When the first end tag comes before the first start tag, the main process speaks the
   * stretch from the end tag through the start tag, both tags included.
   */
  lemma ReversedTagsAreSpoken(m: string)
    requires Contains(m, UiControl.StartTag) && Contains(m, UiControl.EndTag)
    requires !UiControl.TagsInOrder(m)
    ensures IndexOf(m, UiControl.EndTag) < IndexOf(m, UiControl.StartTag)
    ensures MainSpeechText(m) == m[IndexOf(m, UiControl.EndTag)..IndexOf(m, UiControl.StartTag) + 7]
    ensures StartsWith(MainSpeechText(m), UiControl.EndTag)
  {
    var s, e := IndexOf(m, UiControl.StartTag), IndexOf(m, UiControl.EndTag);
    ReversedTagsSwap(m);
    TagDelimiters();
    TaggedStretch(m, UiControl.StartTag, UiControl.EndTag, e, s, 7);
  }

  /**
   * The two pipelines speak different parts of one reply: for `<start>Hi<end>Bye` the main
   * process speaks "Hi" and the page's controller "ye".
   */
  lemma PipelinesSpeakDifferentParts()
    ensures MainSpeechText("<start>Hi<end>Bye") == "Hi"
    ensures UiControl.SpeechText("<start>Hi<end>Bye") == Some("ye")
  {
    var m := "<start>Hi<end>Bye";
    assert m == "" + UiControl.StartTag + "Hi" + UiControl.EndTag + "Bye";
    UiControl.NotContainedAfterFirst("", UiControl.StartTag, 0);
    UiControl.NotContainedAfterFirst("<start>Hi", UiControl.EndTag, 1);
    UiControl.DisplayOfTaggedReply("", "Hi", "Bye");
    UiControl.TrimmedLiteral("Hi");
    UiControl.TagIndices("", "Hi", "Bye");
    MainSpeaksDisplayedText(m);
    UiControl.FirstCharacterAfterEndTagIsDropped();
  }

  // ---------------------------------------------------------------- IPC messages

  /** The text of an `error` message. */
  datatype ErrorReport =
    | AiFailed(message: string)
    | SpeechFailed(message: string)
    | PromptTypeRejected(promptType: string)
  {
    function Text(): string {
      match this
      case AiFailed(m) => "Failed to process with AI: " + m
      case SpeechFailed(m) => "Failed to generate audio response: " + m
      case PromptTypeRejected(p) => "Failed to set prompt type: " + p
    }
  }

  /** A message sent to the page, by channel. */
  datatype IpcMessage =
    | RecordingStarted
    | Transcription(text: string)
    | AiResponse(text: string)
    | AudioResponse(audio: seq<bv8>)
    | Error(report: ErrorReport)
    | PromptConfigUpdate

  /** The message reporting the outcome of speech synthesis. */
  function SpeechMessage(audio: Result<seq<bv8>>): (msg: IpcMessage)
    ensures audio.Ok? <==> msg.AudioResponse?
    ensures audio.Ok? ==> msg.audio == audio.value
    ensures audio.Err? ==> msg == Error(SpeechFailed(audio.error))
  {
    if audio.Ok? then AudioResponse(audio.value) else Error(SpeechFailed(audio.error))
  }

  /** Why start-up quit. */
  datatype MissingKey = OpenAIKeyMissing | DeepgramKeyMissing

  /** The outcome of start-up: quit, or running with handlers installed. */
  datatype Startup = Quit(missing: MissingKey) | Running(app: MainApp)

  /** A key as read from the environment is usable when present and non-empty. */
  predicate HasKey(key: Option<string>) {
    key.Some? && key.value != ""
  }

  /**
   * Start-up once the app is ready: a missing OpenAI key, then a missing Deepgram key, quits
   * before any window or handler exists; otherwise both services are constructed, which can
   * no longer fail, and the handlers are installed.
   */
  method Launch(openaiKey: Option<string>, deepgramKey: Option<string>) returns (r: Startup)
    ensures !HasKey(openaiKey) ==> r == Quit(OpenAIKeyMissing)
    ensures HasKey(openaiKey) && !HasKey(deepgramKey) ==> r == Quit(DeepgramKeyMissing)
    ensures HasKey(openaiKey) && HasKey(deepgramKey) ==>
      r.Running? && fresh(r.app) && r.app.Valid() && r.app.sent == []
      && r.app.openai.apiKey == openaiKey.value && r.app.deepgram.apiKey == deepgramKey.value
      && r.app.openai.currentPromptType == Config.DefaultPromptType
  {
    if !HasKey(openaiKey) {
      return Quit(OpenAIKeyMissing);
    }
    if !HasKey(deepgramKey) {
      return Quit(DeepgramKeyMissing);
    }
    var openai := OpenAI.Create(openaiKey);
    var deepgram := Deepgram.NewService(deepgramKey);
    assert openai.Ok? && deepgram.Ok?;
    var app := new MainApp(openai.value, deepgram.value);
    return Running(app);
  }

  class MainApp {
    const openai: OpenAI.OpenAIService
    const deepgram: Deepgram.DeepgramService
    /** Every message sent to the page, in order. */
    var sent: seq<IpcMessage>
    /** Every chat-completion request made, in order. */
    var aiRequests: seq<OpenAI.ChatRequest>
    /**
     * The text of every speech-synthesis request made, in order; the request for a text is
     * `Deepgram.SpeechRequest(deepgram, text)`.
     */
    var spoken: seq<string>

    ghost predicate Valid()
      reads this, openai
    {
      openai.Valid()
    }

    constructor (openai: OpenAI.OpenAIService, deepgram: Deepgram.DeepgramService)
      requires openai.Valid()
      ensures this.openai == openai && this.deepgram == deepgram
      ensures sent == [] && aiRequests == [] && spoken == []
      ensures Valid()
    {
      this.openai := openai;
      this.deepgram := deepgram;
      sent, aiRequests, spoken := [], [], [];
    }

    /** `did-finish-load` and `get-prompt-config`: the prompt configuration is sent to the page. */
    method SendPromptConfig()
      modifies this`sent
      ensures sent == old(sent) + [PromptConfigUpdate]
    {
      sent := sent + [PromptConfigUpdate];
    }

    /** `start-recording`: the page is told recording has started. */
    method OnStartRecording()
      modifies this`sent
      ensures sent == old(sent) + [RecordingStarted]
    {
      sent := sent + [RecordingStarted];
    }

    /**
     * `set-prompt-type`: a configured prompt type becomes current and nothing is sent; any
     * other is reported as an error and changes nothing.
     */
    method OnSetPromptType(promptType: string)
      modifies this`sent, openai`currentPromptType
      ensures Config.IsPromptType(promptType) ==>
        openai.currentPromptType == promptType && sent == old(sent)
      ensures !Config.IsPromptType(promptType) ==>
        openai.currentPromptType == old(openai.currentPromptType)
        && sent == old(sent) + [Error(PromptTypeRejected(promptType))]
      ensures old(Valid()) ==> Valid()
    {
      var ok := openai.SetPromptType(promptType);
      if !ok {
        sent := sent + [Error(PromptTypeRejected(promptType))];
      }
    }

    /**
     * `stop-recording`, given the outcome of the completion request and of the synthesis
     * `fetch`: the transcription is always sent first; a failed completion is reported as an
     * error and nothing is spoken; otherwise the trimmed reply is sent, the text chosen by
     * `MainSpeechText` is synthesized, and the audio or the synthesis error follows.
     */
    method OnStopRecording(aiReply: Result<string>, ttsResponse: Result<Deepgram.HttpResponse>)
      requires Valid()
      modifies this`sent, this`aiRequests, this`spoken
      ensures Valid()
      ensures var t := CannedTranscription(openai.currentPromptType);
        var x := openai.ProcessText(t, OpenAI.NoOptions, aiReply);
        && x.sent.Some? && aiRequests == old(aiRequests) + [x.sent.value]
        && (x.result.Err? ==>
              sent == old(sent) + [Transcription(t)] + [Error(AiFailed(x.result.error))]
              && spoken == old(spoken))
        && (x.result.Ok? ==>
              sent == old(sent) + [Transcription(t)]
                      + [AiResponse(x.result.value), SpeechMessage(Deepgram.TextToSpeech(ttsResponse))]
              && spoken == old(spoken) + [MainSpeechText(x.result.value)])
    {
      var transcription := CannedTranscription(openai.currentPromptType);
      sent := sent + [Transcription(transcription)];
      Respond(transcription, aiReply, ttsResponse);
    }

    /** `stop-recording` after the transcription was sent: the completion request and what follows it. */
    method Respond(t: string, aiReply: Result<string>, ttsResponse: Result<Deepgram.HttpResponse>)
      requires Valid()
      modifies this`sent, this`aiRequests, this`spoken
      ensures Valid()
      ensures var x := openai.ProcessText(t, OpenAI.NoOptions, aiReply);
        && x.sent.Some? && aiRequests == old(aiRequests) + [x.sent.value]
        && (x.result.Err? ==>
              sent == old(sent) + [Error(AiFailed(x.result.error))]
              && spoken == old(spoken))
        && (x.result.Ok? ==>
              sent == old(sent) + [AiResponse(x.result.value), SpeechMessage(Deepgram.TextToSpeech(ttsResponse))]
              && spoken == old(spoken) + [MainSpeechText(x.result.value)])
    {
      var x := openai.ProcessText(t, OpenAI.NoOptions, aiReply);
      aiRequests := aiRequests + [x.sent.value];
      match x.result
      case Err(e) =>
        sent := sent + [Error(AiFailed(e))];
      case Ok(reply) =>
        sent := sent + [AiResponse(reply)];
        Speak(reply, ttsResponse);
    }

    /** The synthesis step of `stop-recording` for a reply already sent to the page. */
    method Speak(reply: string, ttsResponse: Result<Deepgram.HttpResponse>)
      modifies this`sent, this`spoken
      ensures spoken == old(spoken) + [MainSpeechText(reply)]
      ensures sent == old(sent) + [SpeechMessage(Deepgram.TextToSpeech(ttsResponse))]
    {
      spoken := spoken + [MainSpeechText(reply)];
      sent := sent + [SpeechMessage(Deepgram.TextToSpeech(ttsResponse))];
    }
  }
}
