/**
 * The page script: the recording and processing flags behind the start and stop buttons, the
 * prompt-type buttons and their labels, the status line, and what each message from the main
 * process does to the page. Requests to the main process are appended to a trace; the audio
 * element's playback callbacks are not modelled, only the source it is given.
 */
module Renderer {
  import opened Wrappers
  import opened JsString
  import Config
  import Transcripts

  // ---------------------------------------------------------------- prompt names

  /** The name `getPromptName` gives a prompt type it does not know. */
  const UnknownMode: string := "Unknown Mode"

  /** `getPromptName(p)`: the display name of a prompt type. */
  function PromptName(p: string): string {
    if p == "email" then "Email Writing"
    else if p == "bulletPoints" then "Bullet Points"
    else if p == "grammar" then "Grammar Fix"
    else UnknownMode
  }

  /** The page knows a name for exactly the configured prompt types. */
  lemma PromptNameKnown(p: string)
    ensures PromptName(p) != UnknownMode <==> Config.IsPromptType(p)
  {
  }

  /** The name the page shows for a prompt type is that type's configured button label. */
  lemma PromptNameIsButtonLabel(p: string)
    requires Config.IsPromptType(p)
    ensures PromptName(p) == Config.PromptTypes[p].buttonLabel
  {
  }

  // ---------------------------------------------------------------- audio URL

  const FileScheme: string := "file://"
  const WindowsFileScheme: string := "file:///"

  /** `navigator.platform.indexOf('Win') > -1`. */
  predicate OnWindows(platform: string) {
    IndexOf(platform, "Win") > -1
  }

  /**
   * The source `playAudioResponse` gives the audio element: on Windows, a `file://` URL that
   * does not already start with `file:///` has its scheme replaced by `file:///`.
   */
  function NormalizeFileUrl(url: string, platform: string): string {
    if StartsWith(url, FileScheme) && !StartsWith(url, WindowsFileScheme) && OnWindows(platform)
    then ReplaceFirst(url, FileScheme, WindowsFileScheme)
    else url
  }

  /** Replacing the leading `file://` adds one slash after it and keeps the rest of the URL. */
  lemma NormalizeAddsSlash(url: string, platform: string)
    requires StartsWith(url, FileScheme) && !StartsWith(url, WindowsFileScheme) && OnWindows(platform)
    ensures NormalizeFileUrl(url, platform) == WindowsFileScheme + url[|FileScheme|..]
  {
    StartsWithIndexOf(url, FileScheme);
    assert NormalizeFileUrl(url, platform) == ReplaceFirst(url, FileScheme, WindowsFileScheme);
    assert url[..0] + WindowsFileScheme == WindowsFileScheme;
  }

  /** Every URL but a Windows `file://` URL with two slashes is left as it is. */
  lemma NormalizeKeepsOthers(url: string, platform: string)
    requires !(StartsWith(url, FileScheme) && !StartsWith(url, WindowsFileScheme) && OnWindows(platform))
    ensures NormalizeFileUrl(url, platform) == url
  {
  }

  /** On Windows every `file://` URL comes out starting with `file:///`. */
  lemma NormalizedFileUrlHasThreeSlashes(url: string, platform: string)
    requires StartsWith(url, FileScheme) && OnWindows(platform)
    ensures StartsWith(NormalizeFileUrl(url, platform), WindowsFileScheme)
  {
    if !StartsWith(url, WindowsFileScheme) {
      NormalizeAddsSlash(url, platform);
      var r := NormalizeFileUrl(url, platform);
      assert r[..|WindowsFileScheme|] == WindowsFileScheme;
    }
  }

  /** Normalizing twice is normalizing once. */
  lemma NormalizeIdempotent(url: string, platform: string)
    ensures NormalizeFileUrl(NormalizeFileUrl(url, platform), platform) == NormalizeFileUrl(url, platform)
  {
    if StartsWith(url, FileScheme) && !StartsWith(url, WindowsFileScheme) && OnWindows(platform) {
      NormalizedFileUrlHasThreeSlashes(url, platform);
    }
  }

  // ---------------------------------------------------------------- prompt buttons

  /** A `.prompt-btn` element: its `data-prompt-type`, its `active` class and its text. */
  datatype PromptButton = PromptButton(promptType: string, active: bool, text: string)

  /** The buttons after `setPromptType(p)`: exactly those of type `p` are active. */
  function MarkActive(buttons: seq<PromptButton>, p: string): (r: seq<PromptButton>)
    ensures |r| == |buttons|
    ensures forall i :: 0 <= i < |r| ==> (r[i].active <==> buttons[i].promptType == p)
    ensures forall i :: 0 <= i < |r| ==> r[i].promptType == buttons[i].promptType && r[i].text == buttons[i].text
  {
    seq(|buttons|, i requires 0 <= i < |buttons| => buttons[i].(active := buttons[i].promptType == p))
  }

  /** Marking the same type again changes nothing; marking only depends on the last type. */
  lemma MarkActiveTwice(buttons: seq<PromptButton>, p: string, q: string)
    ensures MarkActive(MarkActive(buttons, p), q) == MarkActive(buttons, q)
  {
  }

  /** With the button types distinct, marking a type some button has leaves exactly that one active. */
  lemma OneButtonActive(buttons: seq<PromptButton>, p: string, j: int)
    requires forall i, k :: 0 <= i < k < |buttons| ==> buttons[i].promptType != buttons[k].promptType
    requires 0 <= j < |buttons| && buttons[j].promptType == p
    ensures forall i :: 0 <= i < |buttons| ==> (MarkActive(buttons, p)[i].active <==> i == j)
  {
  }

  /**
   * The `promptTypes` of a configuration object as `updateButtonLabels` reads it: for each
   * key, the entry's `buttonLabel`, `None` when the entry has none.
   */
  type LabelTable = map<string, Option<string>>

  /** The label a button shows after `updateButtonLabels`: a truthy `buttonLabel`, else its text. */
  function NewLabel(b: PromptButton, labels: LabelTable): string {
    if b.promptType in labels && labels[b.promptType].Some? && labels[b.promptType].value != ""
    then labels[b.promptType].value
    else b.text
  }

  /** The buttons after `updateButtonLabels` with a table of labels. */
  function Relabel(buttons: seq<PromptButton>, labels: LabelTable): (r: seq<PromptButton>)
    ensures |r| == |buttons|
    ensures forall i :: 0 <= i < |r| ==> r[i] == buttons[i].(text := NewLabel(buttons[i], labels))
  {
    seq(|buttons|, i requires 0 <= i < |buttons| => buttons[i].(text := NewLabel(buttons[i], labels)))
  }

  /** Relabelling with the same table twice is relabelling once. */
  lemma RelabelIdempotent(buttons: seq<PromptButton>, labels: LabelTable)
    ensures Relabel(Relabel(buttons, labels), labels) == Relabel(buttons, labels)
  {
  }

  /** The label table of the configuration the main process sends. */
  function ConfiguredLabels(): (t: LabelTable)
    ensures forall k :: k in t <==> Config.IsPromptType(k)
  {
    map k | k in Config.PromptTypes :: Some(Config.PromptTypes[k].buttonLabel)
  }

  /**
   * With the configuration from the main process, a button of a configured type is labelled
   * with the name the page gives that type; any other button keeps its text.
   */
  lemma ConfiguredLabelsAreNames(b: PromptButton)
    ensures Config.IsPromptType(b.promptType) ==> NewLabel(b, ConfiguredLabels()) == PromptName(b.promptType)
    ensures !Config.IsPromptType(b.promptType) ==> NewLabel(b, ConfiguredLabels()) == b.text
  {
    if Config.IsPromptType(b.promptType) {
      Config.PromptTypesComplete();
      PromptNameIsButtonLabel(b.promptType);
    }
  }

  // ---------------------------------------------------------------- the page

  /** The messages the page script writes to the status line; `Text` is each one's wording. */
  datatype PageStatus =
    | RecordingNow
    | ProcessingNow
    | ReadyToRecord
    | ModeSwitched(name: string)
    | ErrorFromMain(message: string)
  {
    function Text(): string {
      match this
      case RecordingNow => "Recording..."
      case ProcessingNow => "Processing..."
      case ReadyToRecord => "Ready to record"
      case ModeSwitched(n) => "Mode switched to: " + n
      case ErrorFromMain(m) => "Error: " + m
    }
  }

  /** An entry of the page's transcript, from the user or the assistant. */
  datatype TranscriptEntry = TranscriptEntry(role: Transcripts.Role, text: string)

  /** A request the page sends through the bridge to the main process. */
  datatype MainRequest =
    | StartRecordingRequest
    | StopRecordingRequest
    | SetPromptTypeRequest(promptType: string)
    | PromptConfigRequest

  /**
   * The configuration object a `prompt-config-update` carries: `None` for a falsy object, and
   * its `promptTypes`, `None` when falsy.
   */
  datatype ReceivedConfig = ReceivedConfig(promptTypes: Option<LabelTable>)

  class Page {
    /** Whether `window.electronAPI` exists. */
    const bridge: bool
    /** `navigator.platform`. */
    const platform: string
    /** Whether the page has a `.status-container` element. */
    const statusContainer: bool
    /** The `.prompt-btn` elements, in document order. */
    const promptButtons: array<PromptButton>

    var isRecording: bool
    var isProcessing: bool
    var currentPromptType: string
    /** `localStorage`'s `currentPromptType` item. */
    var savedPromptType: Option<string>
    var startDisabled: bool
    var stopDisabled: bool
    /** The `recording-active` class of the recording indicator. */
    var recordingActive: bool
    /** The `.processing-indicator` element, if the page has one, and its `processing-active` class. */
    var processingIndicator: Option<bool>
    /** Every message written to the status line, in order. */
    var statusLog: seq<PageStatus>
    var transcript: seq<TranscriptEntry>
    /** The audio element's `src`, once set. */
    var audioSrc: Option<string>
    /** Every request sent to the main process, in order. */
    var requests: seq<MainRequest>

    /** The message the status line shows, `None` while it shows the page's own text. */
    function Status(): Option<PageStatus>
      reads this
    {
      if statusLog == [] then None else Some(statusLog[|statusLog| - 1])
    }

    /** The start and stop buttons and the recording indicator agree with `isRecording`. */
    ghost predicate RecordingControls()
      reads this
    {
      startDisabled == isRecording && stopDisabled == !isRecording && recordingActive == isRecording
    }

    /** The page as loaded, before `DOMContentLoaded`. */
    constructor (bridge: bool, platform: string, statusContainer: bool, buttons: array<PromptButton>,
                 saved: Option<string>, startDisabled: bool, stopDisabled: bool, indicator: Option<bool>)
      ensures this.bridge == bridge && this.platform == platform && promptButtons == buttons
      ensures this.statusContainer == statusContainer
      ensures !isRecording && !isProcessing && currentPromptType == Config.DefaultPromptType
      ensures savedPromptType == saved && processingIndicator == indicator
      ensures this.startDisabled == startDisabled && this.stopDisabled == stopDisabled && !recordingActive
      ensures statusLog == [] && transcript == [] && audioSrc == None && requests == []
    {
      this.bridge := bridge;
      this.platform := platform;
      this.statusContainer := statusContainer;
      promptButtons := buttons;
      isRecording, isProcessing := false, false;
      currentPromptType := "email";
      savedPromptType := saved;
      this.startDisabled, this.stopDisabled, recordingActive := startDisabled, stopDisabled, false;
      processingIndicator := indicator;
      statusLog, transcript, audioSrc, requests := [], [], None, [];
    }

    /** `updateStatus(message)`. */
    method UpdateStatus(message: PageStatus)
      modifies this`statusLog
      ensures statusLog == old(statusLog) + [message]
      ensures Status() == Some(message)
    {
      statusLog := statusLog + [message];
    }

    /**
     * `setPromptType(p)`: exactly the buttons of type `p` become active, `p` becomes current
     * and is saved without any check, the mode switch is shown and the main process is told.
     */
    method SetPromptType(p: string)
      modifies promptButtons, this`currentPromptType, this`savedPromptType, this`statusLog, this`requests
      ensures promptButtons[..] == MarkActive(old(promptButtons[..]), p)
      ensures currentPromptType == p && savedPromptType == Some(p)
      ensures statusLog == old(statusLog) + [ModeSwitched(PromptName(p))]
      ensures requests == old(requests) + if bridge then [SetPromptTypeRequest(p)] else []
    {
      var i := 0;
      while i < promptButtons.Length
        modifies promptButtons
        invariant 0 <= i <= promptButtons.Length
        invariant forall k :: 0 <= k < i ==>
          promptButtons[k] == old(promptButtons[k]).(active := old(promptButtons[k]).promptType == p)
        invariant forall k :: i <= k < promptButtons.Length ==> promptButtons[k] == old(promptButtons[k])
      {
        var b := promptButtons[i];
        promptButtons[i] := b.(active := b.promptType == p);
        i := i + 1;
      }
      currentPromptType := p;
      savedPromptType := Some(p);
      UpdateStatus(ModeSwitched(PromptName(p)));
      if bridge {
        requests := requests + [SetPromptTypeRequest(p)];
      }
    }

    /**
     * `DOMContentLoaded`: a truthy saved prompt type is selected again, then the prompt
     * configuration is requested.
     */
    method Initialize()
      modifies promptButtons, this`currentPromptType, this`savedPromptType, this`statusLog, this`requests
      ensures var saved := old(savedPromptType);
        if saved.Some? && saved.value != "" then
          && promptButtons[..] == MarkActive(old(promptButtons[..]), saved.value)
          && currentPromptType == saved.value && savedPromptType == saved
          && statusLog == old(statusLog) + [ModeSwitched(PromptName(saved.value))]
          && requests == old(requests) + (if bridge then [SetPromptTypeRequest(saved.value), PromptConfigRequest] else [])
        else
          && promptButtons[..] == old(promptButtons[..])
          && currentPromptType == old(currentPromptType) && savedPromptType == saved
          && statusLog == old(statusLog)
          && requests == old(requests) + (if bridge then [PromptConfigRequest] else [])
    {
      var saved := savedPromptType;
      if saved.Some? && saved.value != "" {
        SetPromptType(saved.value);
      }
      if bridge {
        requests := requests + [PromptConfigRequest];
      }
    }

    /**
     * `updateButtonLabels(config)`: nothing changes without a configuration or its
     * `promptTypes`; otherwise every button with a truthy `buttonLabel` shows it.
     */
    method UpdateButtonLabels(config: Option<ReceivedConfig>)
      modifies promptButtons
      ensures config.None? || config.value.promptTypes.None? ==> promptButtons[..] == old(promptButtons[..])
      ensures config.Some? && config.value.promptTypes.Some? ==>
        promptButtons[..] == Relabel(old(promptButtons[..]), config.value.promptTypes.value)
    {
      if config.None? || config.value.promptTypes.None? {
        return;
      }
      var labels := config.value.promptTypes.value;
      var i := 0;
      while i < promptButtons.Length
        invariant 0 <= i <= promptButtons.Length
        invariant forall k :: 0 <= k < i ==>
          promptButtons[k] == old(promptButtons[k]).(text := NewLabel(old(promptButtons[k]), labels))
        invariant forall k :: i <= k < promptButtons.Length ==> promptButtons[k] == old(promptButtons[k])
      {
        var b := promptButtons[i];
        if b.promptType in labels && labels[b.promptType].Some? && labels[b.promptType].value != "" {
          promptButtons[i] := b.(text := labels[b.promptType].value);
        }
        i := i + 1;
      }
    }

    /** `startRecording()`: nothing while recording; otherwise recording starts and the main process is told. */
    method StartRecording()
      modifies this`isRecording, this`startDisabled, this`stopDisabled, this`recordingActive, this`statusLog, this`requests
      ensures old(isRecording) ==>
        isRecording && startDisabled == old(startDisabled) && stopDisabled == old(stopDisabled)
        && recordingActive == old(recordingActive) && statusLog == old(statusLog) && requests == old(requests)
      ensures !old(isRecording) ==>
        isRecording && RecordingControls()
        && statusLog == old(statusLog) + [RecordingNow]
        && requests == old(requests) + if bridge then [StartRecordingRequest] else []
    {
      if isRecording {
        return;
      }
      isRecording := true;
      startDisabled, stopDisabled := true, false;
      recordingActive := true;
      UpdateStatus(RecordingNow);
      if bridge {
        requests := requests + [StartRecordingRequest];
      }
    }

    /**
     * `stopRecording()`: nothing unless recording; otherwise recording stops, processing is
     * shown and the main process is told, unless showing processing threw.
     */
    method StopRecording()
      modifies this`isRecording, this`isProcessing, this`startDisabled, this`stopDisabled, this`recordingActive,
        this`processingIndicator, this`statusLog, this`requests
      ensures !old(isRecording) ==>
        !isRecording && isProcessing == old(isProcessing) && startDisabled == old(startDisabled)
        && stopDisabled == old(stopDisabled) && recordingActive == old(recordingActive)
        && processingIndicator == old(processingIndicator) && statusLog == old(statusLog)
        && requests == old(requests)
      ensures old(isRecording) ==>
        !isRecording && RecordingControls() && isProcessing
        && statusLog == old(statusLog) + [ProcessingNow]
        && var thrown := old(processingIndicator).None? && !statusContainer;
           && processingIndicator == (if thrown then None else Some(true))
           && requests == old(requests) + if bridge && !thrown then [StopRecordingRequest] else []
    {
      if !isRecording {
        return;
      }
      isRecording := false;
      startDisabled, stopDisabled := false, true;
      recordingActive := false;
      var thrown := ShowProcessingIndicator();
      if bridge && !thrown {
        requests := requests + [StopRecordingRequest];
      }
    }

    /**
     * `showProcessingIndicator()`: a missing indicator is created in the status container and
     * then made active. Without an indicator and without a container, appending to the missing
     * container throws a `TypeError` (`thrown`) after the flag and the status were set.
     */
    method ShowProcessingIndicator() returns (thrown: bool)
      modifies this`isProcessing, this`processingIndicator, this`statusLog
      ensures thrown <==> old(processingIndicator).None? && !statusContainer
      ensures isProcessing && statusLog == old(statusLog) + [ProcessingNow]
      ensures processingIndicator == if thrown then None else Some(true)
    {
      isProcessing := true;
      UpdateStatus(ProcessingNow);
      if processingIndicator.None? && !statusContainer {
        return true;
      }
      processingIndicator := Some(true);
      return false;
    }

    /** `hideProcessingIndicator()`: an existing indicator is made inactive; none is created. */
    method HideProcessingIndicator()
      modifies this`isProcessing, this`processingIndicator, this`statusLog
      ensures !isProcessing && Status() == Some(ReadyToRecord)
      ensures statusLog == old(statusLog) + [ReadyToRecord]
      ensures processingIndicator == if old(processingIndicator).Some? then Some(false) else None
    {
      isProcessing := false;
      UpdateStatus(ReadyToRecord);
      if processingIndicator.Some? {
        processingIndicator := Some(false);
      }
    }

    /** The `transcription` message: the text is added as the user's. */
    method OnTranscription(text: string)
      modifies this`transcript
      ensures transcript == old(transcript) + [TranscriptEntry(Transcripts.User, text)]
    {
      transcript := transcript + [TranscriptEntry(Transcripts.User, text)];
    }

    /** The `ai-response` message: the reply is added as the assistant's and processing ends. */
    method OnAiResponse(text: string)
      modifies this`transcript, this`isProcessing, this`processingIndicator, this`statusLog
      ensures transcript == old(transcript) + [TranscriptEntry(Transcripts.Assistant, text)]
      ensures !isProcessing && Status() == Some(ReadyToRecord)
      ensures statusLog == old(statusLog) + [ReadyToRecord]
      ensures processingIndicator == if old(processingIndicator).Some? then Some(false) else None
    {
      transcript := transcript + [TranscriptEntry(Transcripts.Assistant, text)];
      HideProcessingIndicator();
    }

    /** The `audio-response` message: the audio element gets the normalized URL and processing ends. */
    method OnAudioResponse(audioUrl: string)
      modifies this`audioSrc, this`isProcessing, this`processingIndicator, this`statusLog
      ensures audioSrc == Some(NormalizeFileUrl(audioUrl, platform))
      ensures !isProcessing && Status() == Some(ReadyToRecord)
      ensures statusLog == old(statusLog) + [ReadyToRecord]
      ensures processingIndicator == if old(processingIndicator).Some? then Some(false) else None
    {
      audioSrc := Some(NormalizeFileUrl(audioUrl, platform));
      HideProcessingIndicator();
    }

    /** The `prompt-config-update` message: the button labels are updated. */
    method OnPromptConfigUpdate(config: Option<ReceivedConfig>)
      modifies promptButtons
      ensures config.None? || config.value.promptTypes.None? ==> promptButtons[..] == old(promptButtons[..])
      ensures config.Some? && config.value.promptTypes.Some? ==>
        promptButtons[..] == Relabel(old(promptButtons[..]), config.value.promptTypes.value)
    {
      UpdateButtonLabels(config);
    }

    /**
     * The `error` message: the error is shown, and at once replaced by "Ready to record" as
     * processing ends.
     */
    method OnError(error: string)
      modifies this`isProcessing, this`processingIndicator, this`statusLog
      ensures statusLog == old(statusLog) + [ErrorFromMain(error), ReadyToRecord]
      ensures !isProcessing && Status() == Some(ReadyToRecord)
      ensures processingIndicator == if old(processingIndicator).Some? then Some(false) else None
    {
      UpdateStatus(ErrorFromMain(error));
      HideProcessingIndicator();
    }
  }
}
