/**
 * The renderer-side controller of one record/respond cycle: it starts the microphone and the
 * transcription socket, feeds recognition events to the transcript accumulator, and on stop
 * sends the transcript to the language model, shows the reply and has a part of it spoken.
 * Every external effect (microphone, socket events, completion, speech synthesis, playback)
 * is a parameter standing for its outcome.
 */
module UiControl {
  import opened Wrappers
  import opened JsString
  import opened Transcripts
  import opened UiState
  import Config

  // ---------------------------------------------------------------- reply tags

  const StartTag: string := "<start>"
  const EndTag: string := "<end>"

  lemma TagsAreBorderFree()
    ensures !HasBorder(StartTag) && !HasBorder(EndTag)
  {
    assert forall k :: 0 < k < |StartTag| ==> StartTag[..k][0] != StartTag[|StartTag| - k..][0];
    assert forall k :: 0 < k < |EndTag| ==> EndTag[..k][0] != EndTag[|EndTag| - k..][0];
  }

  /** The test both call sites make: both tags occur and the first end tag follows the first start tag. */
  predicate TagsInOrder(m: string) {
    var si := IndexOf(m, StartTag);
    var ei := IndexOf(m, EndTag);
    si != -1 && ei != -1 && ei > si
  }

  /** The text `displayAssistantMessage` shows for a reply. */
  function AssistantDisplayText(m: string): string {
    if TagsInOrder(m) then Trim(Substring(m, IndexOf(m, StartTag) + 7, IndexOf(m, EndTag))) else m
  }

  /**
   * The text `convertToSpeech` sends to speech synthesis, `None` when it speaks nothing: for
   * a tagged reply, the trimmed rest starting six characters after the end tag's index;
   * otherwise the whole reply.
   */
  function SpeechText(m: string): Option<string> {
    if TagsInOrder(m) then
      var rest := Trim(SubstringFrom(m, IndexOf(m, EndTag) + 6));
      if rest != "" then Some(rest) else None
    else Some(m)
  }

  /** In a reply `pre <start> mid <end> post` with no earlier tags, the tags are found where they stand. */
  lemma TagIndices(pre: string, mid: string, post: string)
    requires !Contains(pre, StartTag) && !Contains(pre + StartTag + mid, EndTag)
    ensures IndexOf(pre + StartTag + mid + EndTag + post, StartTag) == |pre|
    ensures IndexOf(pre + StartTag + mid + EndTag + post, EndTag) == |pre| + 7 + |mid|
    ensures TagsInOrder(pre + StartTag + mid + EndTag + post)
  {
    TagsAreBorderFree();
    var m := pre + StartTag + mid + EndTag + post;
    assert m == pre + StartTag + (mid + EndTag + post);
    IndexOfAfterPrefix(pre, StartTag, mid + EndTag + post);
    assert m == (pre + StartTag + mid) + EndTag + post;
    IndexOfAfterPrefix(pre + StartTag + mid, EndTag, post);
  }

  /** A reply with its tags in order is displayed as the trimmed text strictly between them. */
  lemma DisplayOfTaggedReply(pre: string, mid: string, post: string)
    requires !Contains(pre, StartTag) && !Contains(pre + StartTag + mid, EndTag)
    ensures AssistantDisplayText(pre + StartTag + mid + EndTag + post) == Trim(mid)
  {
    var m := pre + StartTag + mid + EndTag + post;
    TagIndices(pre, mid, post);
    assert m[|pre| + 7..|pre| + 7 + |mid|] == mid;
  }

  /** A reply lacking either tag is displayed verbatim. */
  lemma DisplayOfUntaggedReply(m: string)
    requires !Contains(m, StartTag) || !Contains(m, EndTag)
    ensures AssistantDisplayText(m) == m
  {
  }

  /**
   * For a reply with its tags in order, speech skips the character right after the end tag
   * and speaks the trimmed remainder, or nothing when that is blank.
   */
  lemma SpeechOfTaggedReply(pre: string, mid: string, c: char, post: string)
    requires !Contains(pre, StartTag) && !Contains(pre + StartTag + mid, EndTag)
    ensures SpeechText(pre + StartTag + mid + EndTag + [c] + post) ==
      if IsBlank(post) then None else Some(Trim(post))
  {
    var m := pre + StartTag + mid + EndTag + [c] + post;
    assert m == pre + StartTag + mid + EndTag + ([c] + post);
    TagIndices(pre, mid, [c] + post);
    assert m[|pre| + 7 + |mid| + 6..] == post;
  }

  /** When the end tag closes the reply, nothing is spoken. */
  lemma NoSpeechWhenReplyEndsWithTag(pre: string, mid: string)
    requires !Contains(pre, StartTag) && !Contains(pre + StartTag + mid, EndTag)
    ensures SpeechText(pre + StartTag + mid + EndTag) == None
  {
    var m := pre + StartTag + mid + EndTag;
    assert m == pre + StartTag + mid + EndTag + [];
    TagIndices(pre, mid, []);
    assert SubstringFrom(m, |m| + 1) == "";
  }

  /** A reply lacking either tag is spoken whole, even when it is blank. */
  lemma SpeechOfUntaggedReply(m: string)
    requires !Contains(m, StartTag) || !Contains(m, EndTag)
    ensures SpeechText(m) == Some(m)
  {
  }

  // ---------------------------------------------------------------- the controller

  /** `WebSocket.readyState` values. */
  const Connecting: nat := 0
  const Open: nat := 1
  const Closing: nat := 2
  const Closed: nat := 3

  /** The wait for a final transcript in `stopRecording`, written there as a literal. */
  const StopWaitMs: nat := 1000

  /** The literal wait agrees with the configured `finalTranscriptWaitTime`. */
  lemma StopWaitIsConfigured()
    ensures StopWaitMs == Config.FinalTranscriptWaitTime
  {
  }

  /** One buffer of 16-bit PCM audio as sent on the socket. */
  type AudioFrame = seq<bv8>

  /** How playback of the synthesized audio ends. */
  datatype Playback = PlayedToEnd | PlaybackFailed

  /** The status `playAudioResponse`'s rejection leads to. */
  const PlaybackErrorStatus: Status := TextToSpeechError("Error playing synthesized speech")

  class UIController {
    const uiState: UIStateManager
    const transcriptManager: TranscriptManager
    /** The page's `#transcript` element, written by the accumulator and by the controller. */
    const transcriptElement: TranscriptElement
    /** `this.socket.readyState`, `None` while there is no socket. */
    var socket: Option<nat>
    /** `audioProcessor.isRecording`. */
    var audioRecording: bool
    /** Whether `audioManager` holds a microphone stream. */
    var micStream: bool
    /** Whether the audio player is shown. */
    var playerVisible: bool
    /** The texts passed to `openaiService.processText`, in order. */
    var aiRequests: seq<string>
    /** The texts passed to `deepgramService.textToSpeech`, in order. */
    var ttsRequests: seq<string>
    /** The audio frames passed to `socket.send`, in order. */
    var sentFrames: seq<AudioFrame>
    /** Total time spent waiting for a final transcript, in milliseconds. */
    var waitedMs: nat

    ghost predicate Valid()
      reads this, transcriptManager
    {
      && transcriptManager.Valid()
      && transcriptManager.transcriptElement == transcriptElement
      && (socket.Some? ==> socket.value <= Closed)
    }

    /**
     * `new UIController(...)` followed by `init()`, on a page described as for
     * `UIStateManager`: the controls are set to their initial state and the accumulator is
     * attached to the (emptied) transcript element.
     */
    constructor (statusElement: bool, statusContainer: bool, existingIndicators: nat)
      ensures Valid() && fresh(uiState) && fresh(transcriptManager) && fresh(transcriptElement)
      ensures !uiState.startDisabled && uiState.stopDisabled && !uiState.recordingActive
      ensures !uiState.processingActive && uiState.Shows(ReadyToRecord, None)
      ensures transcriptManager.State() == Empty && transcriptElement.children == []
      ensures socket == None && !audioRecording && !micStream
      ensures aiRequests == [] && ttsRequests == [] && sentFrames == []
      ensures !playerVisible && waitedMs == 0
    {
      uiState := new UIStateManager(statusElement, statusContainer, existingIndicators);
      var tm := new TranscriptManager();
      transcriptManager := tm;
      var element := new TranscriptElement();
      transcriptElement := element;
      socket := None;
      audioRecording, micStream, playerVisible := false, false, false;
      aiRequests, ttsRequests, sentFrames := [], [], [];
      waitedMs := 0;
      new;
      tm.Initialize(element);
      SetInitialState();
    }

    /** `setInitialState()`: start enabled, stop disabled, no indicator, "Ready to record", empty transcript. */
    method SetInitialState()
      requires transcriptManager.transcriptElement == transcriptElement
      modifies uiState`status, uiState`startDisabled, uiState`stopDisabled, uiState`recordingActive,
               uiState`processingActive, transcriptManager, transcriptElement
      ensures transcriptManager.Valid() && transcriptManager.transcriptElement == transcriptElement
      ensures !uiState.startDisabled && uiState.stopDisabled && !uiState.recordingActive
      ensures !uiState.processingActive && uiState.Shows(ReadyToRecord, old(uiState.status))
      ensures transcriptManager.State() == Empty && transcriptElement.children == []
    {
      uiState.SetRecordingState(false);
      uiState.SetProcessingState(false);
      uiState.UpdateStatus(ReadyToRecord);
      transcriptManager.Reset();
    }

    /**
     * `startRecording()`: resets the transcript (clearing the element, earlier messages
     * included), hides the player, and when the microphone is granted opens a new socket in
     * the connecting state. There is no guard against a recording already in progress.
     */
    method StartRecording(mic: Outcome)
      requires Valid()
      modifies this`socket, this`micStream, this`playerVisible, uiState`status, transcriptManager,
               transcriptElement
      ensures Valid()
      ensures transcriptManager.State() == Empty && transcriptManager.events == []
      ensures transcriptElement.children == [] && !playerVisible
      ensures mic.Pass? ==>
        socket == Some(Connecting) && micStream
        && uiState.Shows(RequestingMicrophone, old(uiState.status))
      ensures mic.Fail? ==>
        socket == old(socket) && micStream == old(micStream)
        && uiState.Shows(StartError(mic.error), old(uiState.status))
      ensures audioRecording == old(audioRecording)
      ensures aiRequests == old(aiRequests) && ttsRequests == old(ttsRequests) && sentFrames == old(sentFrames)
      ensures uiState.startDisabled == old(uiState.startDisabled) && uiState.stopDisabled == old(uiState.stopDisabled)
      ensures uiState.processingActive == old(uiState.processingActive)
      ensures uiState.recordingActive == old(uiState.recordingActive) && waitedMs == old(waitedMs)
    {
      uiState.UpdateStatus(RequestingMicrophone);
      transcriptManager.Reset();
      playerVisible := false;
      if mic.Fail? {
        uiState.UpdateStatus(StartError(mic.error));
        return;
      }
      micStream := true;
      socket := Some(Connecting);
    }

    /** The socket's `onopen`: announce the connection, show recording, start sending audio. */
    method OnOpen()
      requires Valid() && socket == Some(Connecting)
      modifies this`socket, this`audioRecording,
               uiState`status, uiState`startDisabled, uiState`stopDisabled, uiState`recordingActive
      ensures Valid() && socket == Some(Open) && audioRecording
      ensures uiState.startDisabled && !uiState.stopDisabled && uiState.recordingActive
      ensures uiState.Shows(ConnectedToDeepgram, old(uiState.status))
      ensures uiState.processingActive == old(uiState.processingActive)
      ensures aiRequests == old(aiRequests) && ttsRequests == old(ttsRequests) && sentFrames == old(sentFrames)
      ensures micStream == old(micStream) && playerVisible == old(playerVisible)
    {
      socket := Some(Open);
      uiState.UpdateStatus(ConnectedToDeepgram);
      uiState.SetRecordingState(true);
      audioRecording := true;
    }

    /**
     * One captured audio buffer: the processor hands it on only while recording, and the
     * callback sends it only while the socket is open; otherwise it is dropped.
     */
    method OnAudioFrame(frame: AudioFrame)
      modifies this`sentFrames
      ensures sentFrames == old(sentFrames) + (if audioRecording && socket == Some(Open) then [frame] else [])
    {
      if audioRecording && socket == Some(Open) {
        sentFrames := sentFrames + [frame];
      }
    }

    /** The socket's `onmessage`: the parsed event goes to the accumulator. */
    method OnMessage(e: RecognitionEvent)
      requires Valid() && socket == Some(Open)
      modifies transcriptManager, transcriptElement
      ensures Valid()
      ensures transcriptManager.events == old(transcriptManager.events) + [e]
      ensures transcriptManager.State() == Step(old(transcriptManager.State()), e)
    {
      var _ := transcriptManager.ProcessTranscript(e);
    }

    /** The socket's `onerror`. */
    method OnError()
      modifies uiState`status
      ensures uiState.Shows(ErrorConnecting, old(uiState.status))
    {
      uiState.UpdateStatus(ErrorConnecting);
    }

    /**
     * What `convertToSpeech(text)` leaves behind, given the earlier requests, status and
     * player: the processing indicator is off; a tagged reply with a blank remainder is not
     * sent and says so; otherwise the speech text is sent, and the status reports the
     * synthesis error, the playback error, or that the audio played.
     */
    ghost predicate SpeechDone(speech: Option<string>, tts: Outcome, play: Playback,
                               priorTts: seq<string>, priorStatus: Option<Status>, priorPlayer: bool)
      reads this, uiState
    {
      && !uiState.processingActive
      && ttsRequests == priorTts + (if speech.Some? then [speech.value] else [])
      && (speech.None? ==>
            uiState.Shows(NothingToSpeak, priorStatus) && playerVisible == priorPlayer)
      && (speech.Some? && tts.Fail? ==>
            uiState.Shows(TextToSpeechError(tts.error), priorStatus) && playerVisible == priorPlayer)
      && (speech.Some? && tts.Pass? ==>
            playerVisible
            && uiState.Shows(if play == PlayedToEnd then AudioReady else PlaybackErrorStatus, priorStatus))
    }

    /** `convertToSpeech(text)`, with the synthesis and playback outcomes as parameters. */
    method ConvertToSpeech(text: string, tts: Outcome, play: Playback)
      modifies this`ttsRequests, this`playerVisible, uiState`processingActive, uiState`status
      ensures SpeechDone(SpeechText(text), tts, play, old(ttsRequests), old(uiState.status), old(playerVisible))
    {
      uiState.SetProcessingState(true);
      uiState.UpdateStatus(ConvertingToSpeech);
      var textToSpeak := SpeechText(text);
      Speak(textToSpeak, tts, play);
    }

    /** The part of `convertToSpeech` after the text to speak is chosen. */
    method Speak(textToSpeak: Option<string>, tts: Outcome, play: Playback)
      modifies this`ttsRequests, this`playerVisible, uiState`processingActive, uiState`status
      ensures SpeechDone(textToSpeak, tts, play, old(ttsRequests), old(uiState.status), old(playerVisible))
    {
      if textToSpeak.None? {
        uiState.UpdateStatus(NothingToSpeak);
        uiState.SetProcessingState(false);
        uiState.SetProcessingState(false);  // the `finally` block runs after the early return
        return;
      }
      ttsRequests := ttsRequests + [textToSpeak.value];
      if tts.Fail? {
        uiState.UpdateStatus(TextToSpeechError(tts.error));
      } else {
        playerVisible := true;
        if play == PlayedToEnd {
          uiState.UpdateStatus(AudioReady);
        } else {
          uiState.UpdateStatus(PlaybackErrorStatus);
        }
      }
      uiState.SetProcessingState(false);
    }

    /**
     * What `processWithAI(transcript)` leaves behind, given the earlier requests, messages,
     * status and player: the transcript was sent and shown as the user's message; on success
     * the reply is shown as it is displayed and `convertToSpeech` has run on it; on failure
     * the error is reported and nothing is spoken. The processing indicator ends off.
     */
    ghost predicate Responded(transcript: string, ai: Result<string>, tts: Outcome, play: Playback,
                              priorAi: seq<string>, priorChildren: seq<Node>, priorTts: seq<string>,
                              priorStatus: Option<Status>, priorPlayer: bool)
      reads this, uiState, transcriptElement
    {
      && aiRequests == priorAi + [transcript]
      && transcriptElement.children == priorChildren + [Message(User, transcript)]
           + (if ai.Ok? then [Message(Assistant, AssistantDisplayText(ai.value))] else [])
      && !uiState.processingActive
      && (ai.Err? ==>
            uiState.Shows(AiProcessingError(ai.error), priorStatus)
            && ttsRequests == priorTts && playerVisible == priorPlayer)
      && (ai.Ok? ==> SpeechDone(SpeechText(ai.value), tts, play, priorTts, priorStatus, priorPlayer))
    }

    /** `processWithAI(transcript)`, with the completion outcome as a parameter. */
    method ProcessWithAI(transcript: string, ai: Result<string>, tts: Outcome, play: Playback)
      modifies this`aiRequests, this`ttsRequests, this`playerVisible, uiState`processingActive, uiState`status,
               transcriptElement
      ensures Responded(transcript, ai, tts, play, old(aiRequests), old(transcriptElement.children),
                        old(ttsRequests), old(uiState.status), old(playerVisible))
    {
      uiState.SetProcessingState(true);
      uiState.UpdateStatus(ProcessingWithAI);
      transcriptElement.children := transcriptElement.children + [Message(User, transcript)];
      aiRequests := aiRequests + [transcript];
      if ai.Err? {
        uiState.UpdateStatus(AiProcessingError(ai.error));
        uiState.SetProcessingState(false);
        return;
      }
      transcriptElement.children := transcriptElement.children + [Message(Assistant, AssistantDisplayText(ai.value))];
      ConvertToSpeech(ai.value, tts, play);
    }

    /**
     * `stopRecording()`: takes the transcript snapshot, stops the audio, shows the idle
     * buttons, closes an open socket, waits when no final transcript has arrived, then
     * processes the snapshot if it carries speech or reports that none was detected.
     */
    method StopRecording(ai: Result<string>, tts: Outcome, play: Playback)
      requires Valid()
      modifies this`audioRecording, this`micStream, this`socket, this`waitedMs, this`aiRequests,
               this`ttsRequests, this`playerVisible, transcriptElement,
               uiState`status, uiState`startDisabled, uiState`stopDisabled, uiState`recordingActive, uiState`processingActive
      ensures Valid()
      ensures !audioRecording && !micStream
      ensures !uiState.startDisabled && uiState.stopDisabled && !uiState.recordingActive
      ensures socket == if old(socket) == Some(Open) then Some(Closing) else old(socket)
      ensures waitedMs == old(waitedMs) + if old(transcriptManager.finalTranscriptReceived) then 0 else StopWaitMs
      ensures transcriptManager.State() == old(transcriptManager.State())
      ensures sentFrames == old(sentFrames)
      ensures IsBlank(old(transcriptManager.completeTranscript)) ==>
        && uiState.Shows(NoSpeechDetected, old(uiState.status))
        && aiRequests == old(aiRequests) && ttsRequests == old(ttsRequests)
        && transcriptElement.children == old(transcriptElement.children)
        && uiState.processingActive == old(uiState.processingActive) && playerVisible == old(playerVisible)
      ensures !IsBlank(old(transcriptManager.completeTranscript)) ==>
        Responded(old(transcriptManager.completeTranscript), ai, tts, play, old(aiRequests),
                  old(transcriptElement.children), old(ttsRequests), old(uiState.status), old(playerVisible))
    {
      var transcript := transcriptManager.GetCompleteTranscript();
      audioRecording := false;
      micStream := false;
      uiState.SetRecordingState(false);
      socket := if socket == Some(Open) then Some(Closing) else socket;  // close() only when open
      FinishStop(transcript, ai, tts, play);
    }

    /**
     * The second half of `stopRecording()`, once audio has stopped: wait if no final
     * transcript has arrived, then process the snapshot `transcript` taken before stopping if
     * it carries speech, or report that none was detected.
     */
    method FinishStop(transcript: string, ai: Result<string>, tts: Outcome, play: Playback)
      requires transcriptManager.Valid()
      modifies this`waitedMs, this`aiRequests, this`ttsRequests, this`playerVisible,
               uiState`status, uiState`processingActive, transcriptElement
      ensures waitedMs == old(waitedMs) + if transcriptManager.finalTranscriptReceived then 0 else StopWaitMs
      ensures IsBlank(transcript) ==>
        && uiState.Shows(NoSpeechDetected, old(uiState.status))
        && aiRequests == old(aiRequests) && ttsRequests == old(ttsRequests)
        && transcriptElement.children == old(transcriptElement.children)
        && uiState.processingActive == old(uiState.processingActive) && playerVisible == old(playerVisible)
      ensures !IsBlank(transcript) ==>
        Responded(transcript, ai, tts, play, old(aiRequests),
                  old(transcriptElement.children), old(ttsRequests), old(uiState.status), old(playerVisible))
    {
      if !transcriptManager.HasFinalTranscript() {
        uiState.UpdateStatus(WaitingForFinal);
        waitedMs := waitedMs + StopWaitMs;
      }
      if !IsBlank(transcript) {
        ProcessWithAI(transcript, ai, tts, play);
      } else {
        uiState.UpdateStatus(NoSpeechDetected);
      }
    }

    /**
     * The socket's `onclose`: announce the disconnection and, if audio is still being
     * captured, run the stop path.
     */
    method OnClose(ai: Result<string>, tts: Outcome, play: Playback)
      requires Valid() && socket.Some?
      modifies this`audioRecording, this`micStream, this`socket, this`waitedMs, this`aiRequests,
               this`ttsRequests, this`playerVisible, transcriptElement,
               uiState`status, uiState`startDisabled, uiState`stopDisabled, uiState`recordingActive, uiState`processingActive
      ensures Valid() && socket == Some(Closed) && !audioRecording
      ensures transcriptManager.State() == old(transcriptManager.State()) && sentFrames == old(sentFrames)
      ensures !old(audioRecording) ==>
        && uiState.Shows(DisconnectedFromDeepgram, old(uiState.status))
        && micStream == old(micStream) && waitedMs == old(waitedMs) && playerVisible == old(playerVisible)
        && aiRequests == old(aiRequests) && ttsRequests == old(ttsRequests)
        && transcriptElement.children == old(transcriptElement.children)
        && uiState.startDisabled == old(uiState.startDisabled) && uiState.stopDisabled == old(uiState.stopDisabled)
        && uiState.recordingActive == old(uiState.recordingActive)
        && uiState.processingActive == old(uiState.processingActive)
      ensures old(audioRecording) ==>
        && !micStream
        && !uiState.startDisabled && uiState.stopDisabled && !uiState.recordingActive
        && waitedMs == old(waitedMs) + (if old(transcriptManager.finalTranscriptReceived) then 0 else StopWaitMs)
      ensures old(audioRecording) && IsBlank(old(transcriptManager.completeTranscript)) ==>
        && uiState.Shows(NoSpeechDetected, old(uiState.status))
        && aiRequests == old(aiRequests) && ttsRequests == old(ttsRequests)
        && transcriptElement.children == old(transcriptElement.children)
        && uiState.processingActive == old(uiState.processingActive) && playerVisible == old(playerVisible)
      ensures old(audioRecording) && !IsBlank(old(transcriptManager.completeTranscript)) ==>
        Responded(old(transcriptManager.completeTranscript), ai, tts, play, old(aiRequests),
                  old(transcriptElement.children), old(ttsRequests), old(uiState.status), old(playerVisible))
    {
      socket := Some(Closed);
      uiState.UpdateStatus(DisconnectedFromDeepgram);
      if audioRecording {
        StopRecording(ai, tts, play);
      }
    }

    /**
     * The wait in `stopRecording` happens exactly when the snapshot it already took is
     * blank, so waiting can never give it anything to send.
     */
    lemma WaitNeverYieldsSpeech()
      requires Valid()
      ensures !transcriptManager.HasFinalTranscript() <==> IsBlank(transcriptManager.GetCompleteTranscript())
    {
      var segs := transcriptManager.transcriptSegments;
      transcriptManager.SegmentsHaveSpeech();
      if segs != [] {
        JoinNotBlank(segs);
      }
    }
  }

  /** Joined parts whose first part carries speech carry speech. */
  lemma JoinNotBlank(parts: seq<string>)
    requires parts != [] && !IsBlank(parts[0])
    ensures !IsBlank(Join(parts, " "))
  {
    var j := Join(parts, " ");
    var i :| 0 <= i < |parts[0]| && !IsWhitespace(parts[0][i]);
    if |parts| > 1 {
      assert j == parts[0] + (" " + Join(parts[1..], " "));
    }
    assert j[i] == parts[0][i];
  }

  // ---------------------------------------------------------------- scenarios

  /** The reply `<start>Hi there<end> talk soon` is displayed as "Hi there"... */
  lemma TaggedReplyDisplay()
    ensures AssistantDisplayText("<start>Hi there<end> talk soon") == "Hi there"
  {
    assert "<start>Hi there<end> talk soon" == "" + StartTag + "Hi there" + EndTag + " talk soon";
    NotContainedAfterFirst("", StartTag, 0);
    NotContainedAfterFirst("<start>Hi there", EndTag, 1);
    DisplayOfTaggedReply("", "Hi there", " talk soon");
    TrimmedLiteral("Hi there");
  }

  /** ...but what is spoken is the remark after the end tag, "talk soon". */
  lemma TaggedReplySpeech()
    ensures SpeechText("<start>Hi there<end> talk soon") == Some("talk soon")
  {
    assert "<start>Hi there<end> talk soon" == "" + StartTag + "Hi there" + EndTag + [' '] + "talk soon";
    NotContainedAfterFirst("", StartTag, 0);
    NotContainedAfterFirst("<start>Hi there", EndTag, 1);
    SpeechOfTaggedReply("", "Hi there", ' ', "talk soon");
    TrimmedLiteral("talk soon");
    VisibleAsciiNotWhitespace('t');
  }

  /** The character right after the end tag is never spoken: `<start>Hi<end>Bye` speaks "ye". */
  lemma FirstCharacterAfterEndTagIsDropped()
    ensures SpeechText("<start>Hi<end>Bye") == Some("ye")
  {
    assert "<start>Hi<end>Bye" == "" + StartTag + "Hi" + EndTag + ['B'] + "ye";
    NotContainedAfterFirst("", StartTag, 0);
    NotContainedAfterFirst("<start>Hi", EndTag, 1);
    SpeechOfTaggedReply("", "Hi", 'B', "ye");
    TrimmedLiteral("ye");
    VisibleAsciiNotWhitespace('y');
  }

  /** A text whose only candidate position for `pat` is 0, where it differs, does not contain `pat`. */
  lemma NotContainedAfterFirst(s: string, pat: string, k: nat)
    requires |pat| > 0 && forall i :: 0 < i < |s| ==> s[i] != pat[0]
    requires k < |pat| && (k < |s| ==> s[k] != pat[k])
    ensures !Contains(s, pat)
  {
  }

  lemma TrimmedLiteral(s: string)
    requires |s| > 0 && '!' <= s[0] <= '~' && '!' <= s[|s| - 1] <= '~'
    ensures Trim(s) == s
  {
    VisibleAsciiNotWhitespace(s[0]);
    VisibleAsciiNotWhitespace(s[|s| - 1]);
    TrimOfTrimmed(s);
  }
}
