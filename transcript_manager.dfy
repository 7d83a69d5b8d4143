/**
 * The transcript accumulator: it is fed the recognition events of one recording session,
 * keeps the finalized segments in arrival order plus the latest tentative text, and
 * renders the live transcript into the page's transcript element.
 */
module Transcripts {
  import opened Wrappers
  import opened JsString

  /**
   * A parsed recognition message: the text of its first alternative (`None` when the message
   * carries none) and whether its `is_final` field is exactly `true`.
   */
  datatype RecognitionEvent = RecognitionEvent(transcript: Option<string>, isFinal: bool)

  /** `data.channel?.alternatives[0]?.transcript || ''`. */
  function EventText(e: RecognitionEvent): string {
    if e.transcript.Some? then e.transcript.value else ""
  }

  /** `transcript && transcript.trim()` is truthy: the event carries speech. */
  predicate HasSpeech(e: RecognitionEvent) {
    !IsBlank(EventText(e))
  }

  /** The accumulator's fields as one value. */
  datatype Accumulated = Accumulated(segments: seq<string>, current: string, finalReceived: bool)

  /** The state right after `reset()`. */
  const Empty: Accumulated := Accumulated([], "", false)

  /** What `processTranscript` does to the fields for one event. */
  function Step(a: Accumulated, e: RecognitionEvent): Accumulated {
    if !HasSpeech(e) then a
    else if e.isFinal then Accumulated(a.segments + [EventText(e)], EventText(e), true)
    else a.(current := EventText(e))
  }

  /** The fields after a sequence of events, in arrival order. */
  function Run(a: Accumulated, es: seq<RecognitionEvent>): Accumulated
    decreases |es|
  {
    if es == [] then a else Run(Step(a, es[0]), es[1..])
  }

  /** The texts of the final events that carry speech, in arrival order. */
  function FinalTexts(es: seq<RecognitionEvent>): seq<string>
    decreases |es|
  {
    if es == [] then []
    else (if HasSpeech(es[0]) && es[0].isFinal then [EventText(es[0])] else []) + FinalTexts(es[1..])
  }

  lemma {:induction false} FinalTextsAppend(xs: seq<RecognitionEvent>, ys: seq<RecognitionEvent>)
    ensures FinalTexts(xs + ys) == FinalTexts(xs) + FinalTexts(ys)
    decreases |xs|
  {
    if xs == [] {
      assert xs + ys == ys;
    } else {
      assert (xs + ys)[1..] == xs[1..] + ys;
      FinalTextsAppend(xs[1..], ys);
    }
  }

  /** Feeding one more event is one more step. */
  lemma {:induction false} RunSnoc(a: Accumulated, es: seq<RecognitionEvent>, e: RecognitionEvent)
    ensures Run(a, es + [e]) == Step(Run(a, es), e)
    decreases |es|
  {
    if es == [] {
      assert es + [e] == [e];
    } else {
      assert (es + [e])[1..] == es[1..] + [e];
      RunSnoc(Step(a, es[0]), es[1..], e);
    }
  }

  /** The segments grow by exactly the final texts that carry speech, in arrival order. */
  lemma {:induction false} RunSegments(a: Accumulated, es: seq<RecognitionEvent>)
    ensures Run(a, es).segments == a.segments + FinalTexts(es)
    decreases |es|
  {
    if es != [] {
      RunSegments(Step(a, es[0]), es[1..]);
    }
  }

  /**
   * The "final received" flag is monotone: it is set after a run exactly when it was set
   * before or the run contained a final event carrying speech.
   */
  lemma {:induction false} RunFinalFlag(a: Accumulated, es: seq<RecognitionEvent>)
    ensures Run(a, es).finalReceived == (a.finalReceived || FinalTexts(es) != [])
    decreases |es|
  {
    if es != [] {
      RunFinalFlag(Step(a, es[0]), es[1..]);
    }
  }

  /**
   * A tentative event, wherever it arrives, never reaches the segments (and so never the
   * transcript sent downstream).
   */
  lemma PartialNeverStored(pre: seq<RecognitionEvent>, e: RecognitionEvent, post: seq<RecognitionEvent>)
    requires !e.isFinal
    ensures Run(Empty, pre + [e] + post).segments == Run(Empty, pre + post).segments
  {
    RunSegments(Empty, pre + [e] + post);
    RunSegments(Empty, pre + post);
    FinalTextsAppend(pre + [e], post);
    FinalTextsAppend(pre, [e]);
    FinalTextsAppend(pre, post);
    assert FinalTexts([e]) == [] by {
      assert [e][1..] == [];
    }
  }

  lemma {:induction false} FinalTextsHaveSpeech(es: seq<RecognitionEvent>)
    ensures forall i :: 0 <= i < |FinalTexts(es)| ==> !IsBlank(FinalTexts(es)[i])
    decreases |es|
  {
    if es != [] {
      FinalTextsHaveSpeech(es[1..]);
    }
  }

  /** Three tentative events followed by one final event: only the final text is kept. */
  lemma PartialsThenFinal()
    ensures
      var es := [RecognitionEvent(Some("he"), false), RecognitionEvent(Some("hell"), false),
                 RecognitionEvent(Some("hello"), false), RecognitionEvent(Some("hello there"), true)];
      Join(Run(Empty, es).segments, " ") == "hello there"
  {
    var es := [RecognitionEvent(Some("he"), false), RecognitionEvent(Some("hell"), false),
               RecognitionEvent(Some("hello"), false), RecognitionEvent(Some("hello there"), true)];
    RunSegments(Empty, es);
    assert !IsBlank("hello there") by {
      VisibleAsciiNotWhitespace("hello there"[0]);
    }
    assert FinalTexts(es) == ["hello there"] by {
      assert es[1..][1..][1..][1..] == [];
    }
  }

  // ---------------------------------------------------------------- the display string

  /** `.filter(Boolean)` on strings: drops the empty ones. */
  function NonEmpty(xs: seq<string>): (r: seq<string>)
    ensures forall i :: 0 <= i < |r| ==> r[i] != ""
    decreases |xs|
  {
    if xs == [] then []
    else if xs[|xs| - 1] == "" then NonEmpty(xs[..|xs| - 1])
    else NonEmpty(xs[..|xs| - 1]) + [xs[|xs| - 1]]
  }

  lemma {:induction false} NonEmptyKeeps(xs: seq<string>)
    requires forall i :: 0 <= i < |xs| ==> xs[i] != ""
    ensures NonEmpty(xs) == xs
    decreases |xs|
  {
    if xs != [] {
      NonEmptyKeeps(xs[..|xs| - 1]);
      assert xs[..|xs| - 1] + [xs[|xs| - 1]] == xs;
    }
  }

  /**
   * The text `updateDisplay` writes: the segments, then the tentative text unless a final
   * event has arrived, with empty entries dropped, joined by single spaces.
   */
  function DisplayString(a: Accumulated): string {
    Join(NonEmpty(a.segments + [if a.finalReceived then "" else a.current]), " ")
  }

  /**
   * With segments that carry speech, the display is the joined segments, followed by the
   * tentative text only while no final event has arrived and it is not empty.
   */
  lemma DisplayStringShape(a: Accumulated)
    requires forall i :: 0 <= i < |a.segments| ==> !IsBlank(a.segments[i])
    ensures DisplayString(a) ==
      if a.finalReceived || a.current == "" then Join(a.segments, " ")
      else Join(a.segments + [a.current], " ")
  {
    var last := if a.finalReceived then "" else a.current;
    forall i | 0 <= i < |a.segments| ensures a.segments[i] != "" {
      assert !IsBlank(a.segments[i]);
    }
    NonEmptyKeeps(a.segments);
    assert (a.segments + [last])[..|a.segments|] == a.segments;
    if last != "" {
      NonEmptyKeeps(a.segments + [last]);
    }
  }

  // ---------------------------------------------------------------- the page element

  /** Who a chat message is from; the page script labels its transcript entries the same way. */
  datatype Role = User | Assistant

  /** A child of the transcript element: a text node, or a labelled chat message. */
  datatype Node = Text(text: string) | Message(role: Role, text: string)

  /** The children left by assigning `textContent`: one text node, none for the empty string. */
  function TextContent(s: string): seq<Node> {
    if s == "" then [] else [Text(s)]
  }

  /** The page's transcript element, shared by the accumulator and the controller. */
  class TranscriptElement {
    var children: seq<Node>

    constructor ()
      ensures children == []
    {
      children := [];
    }
  }

  // ---------------------------------------------------------------- the accumulator object

  class TranscriptManager {
    var transcriptElement: TranscriptElement?
    var currentTranscript: string
    var completeTranscript: string
    var transcriptSegments: seq<string>
    var finalTranscriptReceived: bool

    /** The events processed since the last reset, in arrival order. */
    ghost var events: seq<RecognitionEvent>

    function State(): Accumulated
      reads this
    {
      Accumulated(transcriptSegments, currentTranscript, finalTranscriptReceived)
    }

    ghost predicate Valid()
      reads this
    {
      && State() == Run(Empty, events)
      && completeTranscript == Join(transcriptSegments, " ")
    }

    constructor ()
      ensures Valid() && transcriptElement == null && State() == Empty && events == []
    {
      transcriptElement := null;
      currentTranscript := "";
      completeTranscript := "";
      transcriptSegments := [];
      finalTranscriptReceived := false;
      events := [];
    }

    /** `initialize(element)`: attach the page element and reset. */
    method Initialize(element: TranscriptElement)
      modifies this, element
      ensures Valid() && transcriptElement == element
      ensures State() == Empty && events == [] && element.children == []
    {
      transcriptElement := element;
      Reset();
    }

    /** `reset()`: forget the session and clear the element. */
    method Reset()
      modifies this, transcriptElement
      ensures Valid() && transcriptElement == old(transcriptElement)
      ensures State() == Empty && completeTranscript == "" && events == []
      ensures transcriptElement != null ==> transcriptElement.children == []
    {
      currentTranscript := "";
      completeTranscript := "";
      transcriptSegments := [];
      finalTranscriptReceived := false;
      events := [];
      if transcriptElement != null {
        transcriptElement.children := [];
      }
    }

    /**
     * `processTranscript(data)`: an event without speech changes nothing; otherwise its text
     * becomes the tentative text and, when final, is appended to the segments. Returns
     * whether a final segment was saved.
     */
    method ProcessTranscript(e: RecognitionEvent) returns (savedFinal: bool)
      requires Valid()
      modifies this, transcriptElement
      ensures Valid() && transcriptElement == old(transcriptElement)
      ensures events == old(events) + [e] && State() == Step(old(State()), e)
      ensures savedFinal == (HasSpeech(e) && e.isFinal)
      ensures !HasSpeech(e) ==> State() == old(State())
      ensures HasSpeech(e) ==> currentTranscript == EventText(e)
      ensures HasSpeech(e) && !e.isFinal ==>
        transcriptSegments == old(transcriptSegments) && finalTranscriptReceived == old(finalTranscriptReceived)
      ensures HasSpeech(e) && e.isFinal ==>
        transcriptSegments == old(transcriptSegments) + [EventText(e)] && finalTranscriptReceived
      ensures transcriptElement != null ==>
        transcriptElement.children ==
          (if HasSpeech(e) then TextContent(DisplayString(State())) else old(transcriptElement.children))
    {
      RunSnoc(Empty, events, e);
      events := events + [e];
      var transcript := EventText(e);
      if !IsBlank(transcript) {
        currentTranscript := transcript;
        if e.isFinal {
          JoinSnoc(transcriptSegments, transcript, " ");
          transcriptSegments := transcriptSegments + [transcript];
          completeTranscript := Join(transcriptSegments, " ");
          finalTranscriptReceived := true;
        }
        UpdateDisplay();
        return e.isFinal;
      }
      return false;
    }

    /** `updateDisplay()`: write the display string into the element, when there is one. */
    method UpdateDisplay()
      modifies transcriptElement
      ensures transcriptElement != null ==> transcriptElement.children == TextContent(DisplayString(State()))
    {
      if transcriptElement != null {
        transcriptElement.children := TextContent(DisplayString(State()));
      }
    }

    /**
     * `getCompleteTranscript()`: the final texts carrying speech since the last reset, in
     * arrival order, joined by single spaces; this is also the `completeTranscript` field.
     */
    function GetCompleteTranscript(): (r: string)
      reads this
      requires Valid()
      ensures r == completeTranscript
      ensures r == Join(FinalTexts(events), " ")
    {
      RunSegments(Empty, events);
      assert [] + FinalTexts(events) == FinalTexts(events);
      Join(transcriptSegments, " ")
    }

    /** `hasFinalTranscript()`: whether a final event carrying speech arrived since the last reset. */
    function HasFinalTranscript(): (r: bool)
      reads this
      requires Valid()
      ensures r <==> FinalTexts(events) != []
      ensures r <==> transcriptSegments != []
    {
      RunFinalFlag(Empty, events);
      RunSegments(Empty, events);
      finalTranscriptReceived
    }

    /** The segments always carry speech. */
    lemma SegmentsHaveSpeech()
      requires Valid()
      ensures forall i :: 0 <= i < |transcriptSegments| ==> !IsBlank(transcriptSegments[i])
    {
      RunSegments(Empty, events);
      FinalTextsHaveSpeech(events);
    }
  }
}
