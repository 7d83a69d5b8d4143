/**
 * The controller's view of the page: the enabled state of the start and stop buttons, the
 * recording and processing indicators, and the status line.
 */
module UiState {
  import opened Wrappers

  /** The messages the controller writes to the status line; `Text` gives each one's exact wording. */
  datatype Status =
    | ReadyToRecord
    | RequestingMicrophone
    | ConnectedToDeepgram
    | DisconnectedFromDeepgram
    | ErrorConnecting
    | WaitingForFinal
    | NoSpeechDetected
    | ProcessingWithAI
    | ConvertingToSpeech
    | NothingToSpeak
    | AudioReady
    | StartError(message: string)
    | AiProcessingError(message: string)
    | TextToSpeechError(message: string)
  {
    function Text(): string {
      match this
      case ReadyToRecord => "Ready to record"
      case RequestingMicrophone => "Requesting microphone access..."
      case ConnectedToDeepgram => "Connected to Deepgram"
      case DisconnectedFromDeepgram => "Disconnected from Deepgram"
      case ErrorConnecting => "Error connecting to Deepgram"
      case WaitingForFinal => "Waiting for final transcript..."
      case NoSpeechDetected => "Recording stopped (no speech detected)"
      case ProcessingWithAI => "Processing transcript with AI..."
      case ConvertingToSpeech => "Converting to speech..."
      case NothingToSpeak => "No text to speak outside of tags"
      case AudioReady => "Audio ready to play"
      case StartError(m) => "Error: " + m
      case AiProcessingError(m) => "AI processing error: " + m
      case TextToSpeechError(m) => "Text-to-speech error: " + m
    }
  }

  class UIStateManager {
    /** `startBtn.disabled` and `stopBtn.disabled`. */
    var startDisabled: bool
    var stopDisabled: bool
    /** The `recording-active` class of the recording indicator. */
    var recordingActive: bool
    /** The `processing-active` class of the processing indicator. */
    var processingActive: bool
    /**
     * Whether the page has a status element, and the message it shows (`None` while it still
     * shows the page's own text).
     */
    const hasStatusElement: bool
    var status: Option<Status>
    /** Whether the page has a `.status-container` to attach a new processing indicator to. */
    const hasStatusContainer: bool
    /** The number of elements with id `processingIndicator` in the page. */
    var indicatorsInPage: nat
    /** The number of processing indicator elements this object created. */
    var indicatorsCreated: nat

    /**
     * `new UIStateManager()` followed by `initializeElements()`, on a page described by
     * whether it has a status element and a status container and how many processing
     * indicators it already holds. The buttons and the recording indicator are taken to exist.
     */
    constructor (statusElement: bool, statusContainer: bool, existingIndicators: nat)
      ensures hasStatusElement == statusElement && hasStatusContainer == statusContainer
      ensures status == None && !processingActive && !recordingActive
      ensures indicatorsInPage == (if existingIndicators == 0 && statusContainer then 1 else existingIndicators)
      ensures indicatorsCreated == (if existingIndicators == 0 then 1 else 0)
    {
      hasStatusElement := statusElement;
      hasStatusContainer := statusContainer;
      status := None;
      startDisabled, stopDisabled := false, false;
      recordingActive, processingActive := false, false;
      indicatorsInPage := existingIndicators;
      indicatorsCreated := 0;
      new;
      CreateProcessingIndicator();
    }

    /**
     * `createProcessingIndicator()`: an indicator already in the page is reused; otherwise a
     * new one is created and attached to the status container when there is one.
     */
    method CreateProcessingIndicator()
      modifies this`indicatorsInPage, this`indicatorsCreated, this`processingActive
      ensures old(indicatorsInPage) > 0 ==>
        indicatorsInPage == old(indicatorsInPage) && indicatorsCreated == old(indicatorsCreated)
        && processingActive == old(processingActive)
      ensures old(indicatorsInPage) == 0 ==>
        indicatorsCreated == old(indicatorsCreated) + 1 && !processingActive
        && indicatorsInPage == (if hasStatusContainer then 1 else 0)
    {
      if indicatorsInPage == 0 {
        indicatorsCreated := indicatorsCreated + 1;
        processingActive := false;
        if hasStatusContainer {
          indicatorsInPage := indicatorsInPage + 1;
        }
      }
    }

    /** `setRecordingState(b)`: exactly one of the two buttons is enabled, and the indicator follows `b`. */
    method SetRecordingState(isRecording: bool)
      modifies this`startDisabled, this`stopDisabled, this`recordingActive
      ensures startDisabled == isRecording && stopDisabled == !isRecording
      ensures startDisabled != stopDisabled
      ensures recordingActive == isRecording
    {
      startDisabled := isRecording;
      stopDisabled := !isRecording;
      recordingActive := isRecording;
    }

    /** `setProcessingState(b)`: only the processing indicator changes. */
    method SetProcessingState(isProcessing: bool)
      modifies this`processingActive
      ensures processingActive == isProcessing
    {
      processingActive := isProcessing;
    }

    /** The status line shows `msg` if the page has one, and is otherwise still `prior`. */
    ghost predicate Shows(msg: Status, prior: Option<Status>)
      reads this
    {
      status == if hasStatusElement then Some(msg) else prior
    }

    /** `updateStatus(m)`: writes `m` when the status element exists, and does nothing otherwise. */
    method UpdateStatus(message: Status)
      modifies this`status
      ensures Shows(message, old(status))
    {
      if hasStatusElement {
        status := Some(message);
      }
    }
  }
}
