/**
 * The application's constant settings object: the prompt types offered to the user, the
 * completion defaults, the speech-to-text and text-to-speech parameters, and the wait for a
 * final transcript.
 */
module Config {
  import opened Wrappers

  /**
   * One prompt type. `temperature` is carried as an exact value and never computed with;
   * `maxTokens` is absent (JavaScript `undefined`) for every type but one.
   */
  datatype PromptConfig = PromptConfig(
    name: string,
    buttonLabel: string,
    systemPrompt: Instructions,
    temperature: real,
    maxTokens: Option<nat>)

  /** The keys of `openai.promptTypes`, in the order the object literal lists them. */
  const PromptKeys: seq<string> := ["email", "bulletPoints", "grammar"]

  /** `openai.promptTypes`. */
  const PromptTypes: map<string, PromptConfig> := map[
    "email" := PromptConfig("Email Writing", "Email Writing", EmailInstructions, 0.7, None),
    "bulletPoints" := PromptConfig("Bullet Points", "Bullet Points", BulletPointsInstructions, 0.6, None),
    "grammar" := PromptConfig("Grammar Improvement", "Grammar Fix", GrammarInstructions, 0.4, Some(500))
  ]

  /** `openai.defaultPromptType`. */
  const DefaultPromptType: string := "email"

  /** `openai.model`. */
  const Model: string := "gpt-4o-mini"

  /** `openai.temperature`, the fallback when a prompt type has none. */
  const Temperature: real := 0.7

  /** `openai.maxTokens`, the fallback token budget. */
  const MaxTokens: nat := 256

  /** `deepgram.tts.model`. */
  const TtsModel: string := "aura-asteria-en"

  /** `deepgram.stt`: the audio format announced to the transcription service. */
  datatype SttConfig = SttConfig(encoding: string, sampleRate: nat, channels: nat)

  const Stt: SttConfig := SttConfig("linear16", 16000, 1)

  /** `audio.finalTranscriptWaitTime`, in milliseconds. */
  const FinalTranscriptWaitTime: nat := 1000

  /** `debug.verbose`. */
  const Verbose: bool := false

  /** `p` is an own key of `openai.promptTypes`. */
  predicate IsPromptType(p: string) {
    p in PromptTypes
  }

  /** The default prompt type is one of the configured ones. */
  lemma DefaultIsPromptType()
    ensures IsPromptType(DefaultPromptType)
  {
  }

  /** The listed keys are exactly the keys of the table, each once. */
  lemma PromptKeysAreTheTable()
    ensures forall k :: k in PromptKeys <==> k in PromptTypes
    ensures forall i, j :: 0 <= i < j < |PromptKeys| ==> PromptKeys[i] != PromptKeys[j]
  {
  }

  /** Only the grammar prompt type sets its own token budget, and it is 500. */
  lemma OnlyGrammarHasMaxTokens()
    ensures forall k :: k in PromptTypes ==> (PromptTypes[k].maxTokens.Some? <==> k == "grammar")
    ensures PromptTypes["grammar"].maxTokens == Some(500)
  {
  }

  /** Every prompt type has a name and a button label, and each has instructions of its own. */
  lemma PromptTypesComplete()
    ensures forall k :: k in PromptTypes ==> PromptTypes[k].name != "" && PromptTypes[k].buttonLabel != ""
    ensures forall k, j :: k in PromptTypes && j in PromptTypes && k != j ==>
      PromptTypes[k].systemPrompt != PromptTypes[j].systemPrompt
  {
  }

  /** The transcription stream is 16-bit linear PCM, 16 kHz, one channel. */
  lemma SttIsMono16k()
    ensures Stt.encoding == "linear16" && Stt.sampleRate == 16000 && Stt.channels == 1
  {
  }

  /**
   * Which instructions a prompt type sends as its system message; `Text` is their exact
   * wording. Naming them, rather than storing the text in the table, keeps the long texts out
   * of every proof that only looks up a prompt type.
   */
  datatype Instructions = EmailInstructions | BulletPointsInstructions | GrammarInstructions {
    function Text(): string {
      match this
      case EmailInstructions => EmailSystemPrompt()
      case BulletPointsInstructions => BulletPointsSystemPrompt()
      case GrammarInstructions => GrammarSystemPrompt()
    }
  }

  function EmailSystemPrompt(): string {
@"
You are an expert email writer. Help the user draft professional, clear, and effective emails.

# Steps

1. Analyze the user's input to determine the email context and purpose.
2. Formulate a well-structured email with appropriate greeting, body, and closing.
3. Enclose the response within <start> and <end> tags.
4. Conclude with a brief suggestion about the email if relevant.

# Output Format

Enclose the entire email within <start> and <end> tags. Include appropriate subject line, greeting, body paragraphs, and closing. Maintain a professional yet friendly tone unless otherwise specified.

# Example

**User Input:**
""I need to write an email to my team about the project delay.""

**AI Response:**
<start>
Subject: Project Timeline Update - Delay Notification

Hi Team,

I wanted to inform you about a change in our project timeline. Due to some unforeseen technical challenges, we will need to extend our delivery date by two weeks.

The new target completion date is [New Date]. Our priority remains delivering a high-quality product, and this additional time will ensure we meet all requirements effectively.

I'll be scheduling a brief meeting tomorrow to discuss the adjusted timeline and address any questions you may have.

Thank you for your understanding and continued dedication to this project.

Best regards,
[Your Name]
<end>
This email clearly communicates the delay while maintaining a positive tone. Consider adding specific details about the technical challenges if appropriate for your team.
"
  }

  function BulletPointsSystemPrompt(): string {
@"
You are an expert at organizing thoughts into clear, concise bullet points. Help the user refine their ideas into well-structured bullet point format.

# Steps

1. Analyze the user's input to identify key ideas, concepts, and information.
2. Organize and structure this information into logical bullet points.
3. Enclose the response within <start> and <end> tags.
4. Conclude with a brief comment about the organization if relevant.

# Output Format

Enclose the entire response within <start> and <end> tags. Use hierarchical bullet points (main points and sub-points where appropriate) with clear, concise language. Eliminate redundancy and ensure each point is distinct and valuable.

# Example

**User Input:**
""I'm thinking about improving our customer service process by implementing a new ticketing system, training our staff better, and maybe creating some kind of reward system for good service. Also we should probably look at our response times and try to make them faster.""

**AI Response:**
<start>
Customer Service Improvement Plan:

• Technology Enhancement
  - Implement new ticketing system for better issue tracking
  - Integrate with existing CRM for customer history access
  
• Staff Development
  - Conduct comprehensive training program on new system
  - Provide ongoing customer communication skills workshops
  
• Performance Incentives
  - Create reward system for outstanding customer service
  - Recognize employees who consistently receive positive feedback
  
• Response Time Optimization
  - Establish clear SLAs for different request types
  - Implement real-time monitoring of response metrics
  - Develop escalation protocols for complex issues
<end>
I've organized your thoughts into four main categories with specific action items under each. This structure makes it easier to prioritize and implement each component of your customer service improvement plan.
"
  }

  function GrammarSystemPrompt(): string {
@"
You are an expert at improving grammar, structure, and clarity in writing. Help the user enhance their text while preserving their original meaning and intent.

# Steps

1. Analyze the user's input to identify grammatical errors, awkward phrasing, and structural issues.
2. Rewrite the text with improved grammar, clarity, and flow.
3. Enclose the response within <start> and <end> tags.
4. Briefly explain key improvements made if relevant.

# Output Format

Enclose the entire improved text within <start> and <end> tags. Maintain the user's original meaning and tone while enhancing grammar, sentence structure, word choice, and overall clarity.

# Example

**User Input:**
""The company have been struggling with they're sales targets and the team dont know how to fix this problem because customers is not interested in our products anymore.""

**AI Response:**
<start>
The company has been struggling with their sales targets, and the team doesn't know how to fix this problem because customers are no longer interested in our products.
<end>
I've corrected several grammatical issues: changed ""have been"" to ""has been"" to match the singular ""company,"" fixed the possessive ""they're"" to ""their,"" corrected ""dont"" to ""doesn't,"" and adjusted ""customers is"" to ""customers are."" I also improved the flow by replacing ""anymore"" with ""no longer"" for better sentence structure.
"
  }
}
