/** services/geminiService.ts: history formatting, transcript rendering inside the prompts,
    the fallback value of each generative collaborator, and the byte loop of `encode`.
    The generative model itself is not modelled: what one call produced (a text, no text, or
    an error) and what JSON.parse made of that text are parameters. */
module GeminiService {
  import opened Wrappers
  import opened Types
  import opened Strings

  const API_KEY_MISSING := "API_KEY environment variable is not set."
  const DETECTION_FALLBACK_REPLY := "I'm not sure I understand, can you clarify?"
  const AGENT_FALLBACK_REPLY := "I seem to be having trouble understanding right now, could you rephrase?"
  const NOTES_FALLBACK := "Failed to generate agent notes."
  const AGENT_PROMPT_HEAD :=
    "Based on the conversation history below, provide a believable human-like response.\n  \nConversation History:\n"

  newtype byte = x: int | 0 <= x < 256

  /** The loop of `encode`: one character per byte, whose code is that byte.
      The base64 step (btoa) that follows it is not modelled. */
  method Encode(bytes: array<byte>) returns (binary: string)
    ensures |binary| == bytes.Length
    ensures forall i :: 0 <= i < bytes.Length ==> binary[i] as int == bytes[i] as int
  {
    binary := "";
    var len := bytes.Length;
    for i := 0 to len
      invariant |binary| == i
      invariant forall k :: 0 <= k < i ==> binary[k] as int == bytes[k] as int
    {
      binary := binary + [(bytes[i] as int) as char];
    }
  }

  function RoleOf(sender: Sender): Role {
    if sender == Scammer then User else Model
  }

  /** Messages in the model's chat format: same length and order, one part holding the text. */
  function FormatConversationHistory(history: seq<Message>): (r: seq<ConversationMessage>)
    ensures |r| == |history|
    ensures forall i :: 0 <= i < |history| ==> r[i].parts == [Part(history[i].text)]
    ensures forall i :: 0 <= i < |history| ==> (r[i].role == User <==> history[i].sender == Scammer)
  {
    if history == [] then []
    else [ConversationMessage(RoleOf(history[0].sender), [Part(history[0].text)])]
         + FormatConversationHistory(history[1..])
  }

  /** How a transcript names the two parties: by role (`user`/`model`) in the detection,
      extraction and notes prompts, or as `Scammer`/`You` in the agent-response prompt. */
  datatype LabelStyle = RoleNames | Speakers

  function Label(role: Role, style: LabelStyle): string {
    match style
    case RoleNames => if role == User then "user" else "model"
    case Speakers => if role == User then "Scammer" else "You"
  }

  /** One `label: text` line per message, in order. */
  function TranscriptLines(msgs: seq<ConversationMessage>, style: LabelStyle): (r: seq<string>)
    requires forall k :: 0 <= k < |msgs| ==> |msgs[k].parts| > 0
    ensures |r| == |msgs|
    ensures forall i :: 0 <= i < |msgs| ==> r[i] == Label(msgs[i].role, style) + ": " + msgs[i].parts[0].text
  {
    if msgs == [] then []
    else [Label(msgs[0].role, style) + ": " + msgs[0].parts[0].text] + TranscriptLines(msgs[1..], style)
  }

  /** The `.join('\n')` of the transcript lines; when no message text holds a line break, the
      lines can be read back by splitting at newlines. */
  function Transcript(msgs: seq<ConversationMessage>, style: LabelStyle): (r: string)
    requires forall k :: 0 <= k < |msgs| ==> |msgs[k].parts| > 0
    ensures |msgs| == 0 ==> r == ""
    ensures |msgs| > 0 && (forall k :: 0 <= k < |msgs| ==> '\n' !in msgs[k].parts[0].text) ==>
      Split(r, '\n') == TranscriptLines(msgs, style)
  {
    var lines := TranscriptLines(msgs, style);
    var r := Join(lines, "\n");
    assert |msgs| > 0 && (forall k :: 0 <= k < |msgs| ==> '\n' !in msgs[k].parts[0].text) ==>
      Split(r, '\n') == lines
    by {
      if |msgs| > 0 && (forall k :: 0 <= k < |msgs| ==> '\n' !in msgs[k].parts[0].text) {
        forall k | 0 <= k < |lines| ensures '\n' !in lines[k] {
          assert lines[k] == Label(msgs[k].role, style) + ": " + msgs[k].parts[0].text;
        }
        SplitJoin(lines, '\n');
      }
    }
    r
  }

  /** The transcript of a history whose texts hold no line break reads back as one line per
      message, labelled by its sender. */
  lemma HistoryTranscriptLines(history: seq<Message>, style: LabelStyle)
    requires |history| > 0
    requires forall k :: 0 <= k < |history| ==> '\n' !in history[k].text
    ensures var lines := Split(Transcript(FormatConversationHistory(history), style), '\n');
      |lines| == |history| &&
      forall i :: 0 <= i < |history| ==> lines[i] == Label(RoleOf(history[i].sender), style) + ": " + history[i].text
  {
  }

  /** The prompt of detectScamIntent; `instructions` stands for SCAM_DETECTION_PROMPT. */
  function DetectionPrompt(instructions: string, messageText: string, history: seq<Message>): (r: string)
    ensures Contains(r, messageText)
    ensures Contains(r, Transcript(FormatConversationHistory(history), RoleNames))
  {
    var head := instructions + "\n\nCurrent message from scammer: \"";
    var middle := "\"\nConversation History:\n";
    var t := Transcript(FormatConversationHistory(history), RoleNames);
    var rest := middle + t + "\n\nJSON Response:";
    OccursBetween(head, messageText, rest);
    OccursWithin(head + messageText, t, middle, "\n\nJSON Response:");
    head + messageText + rest
  }

  /** The prompt of generateAgentResponse. */
  function AgentPrompt(history: seq<Message>): (r: string)
    ensures Contains(r, Transcript(FormatConversationHistory(history), Speakers))
  {
    var head := AGENT_PROMPT_HEAD;
    var t := Transcript(FormatConversationHistory(history), Speakers);
    OccursBetween(head, t, "\n\nYour response:");
    head + t + "\n\nYour response:"
  }

  /** The prompt of extractIntelligence; `instructions` stands for INTELLIGENCE_EXTRACTION_PROMPT. */
  function ExtractionPrompt(instructions: string, history: seq<Message>): (r: string)
    ensures Contains(r, Transcript(FormatConversationHistory(history), RoleNames))
  {
    var head := instructions + "\n\nConversation History:\n";
    var t := Transcript(FormatConversationHistory(history), RoleNames);
    OccursBetween(head, t, "\n\nJSON Response:");
    head + t + "\n\nJSON Response:"
  }

  /** The prompt of generateAgentNotes; `instructions` stands for AGENT_NOTES_PROMPT. */
  function NotesPrompt(instructions: string, history: seq<Message>): (r: string)
    ensures Contains(r, Transcript(FormatConversationHistory(history), RoleNames))
  {
    var head := instructions + "\n\nConversation History:\n";
    var t := Transcript(FormatConversationHistory(history), RoleNames);
    OccursBetween(head, t, "\n\nSummary:");
    head + t + "\n\nSummary:"
  }

  /** What one generateContent call produced: a response whose `text` may be absent,
      or the error the call threw. */
  datatype Generation = Generated(text: Option<string>) | Threw(reason: string)

  /** What JSON.parse made of the trimmed response text. */
  datatype Parse<T> = Parsed(value: T) | Unparsable(reason: string)

  datatype GenAIClient = GenAIClient(apiKey: string)

  /** `process.env.API_KEY` is set to a non-empty string. */
  predicate KeyConfigured(apiKey: Option<string>) {
    apiKey.Some? && apiKey.value != ""
  }

  /** getGenAI: a client for the configured key, or the error it throws. */
  function GetGenAI(apiKey: Option<string>): (r: Result<GenAIClient>)
    ensures r.Ok? <==> KeyConfigured(apiKey)
    ensures r.Ok? ==> r.value.apiKey == apiKey.value
    ensures r.Fail? ==> r.reason == API_KEY_MISSING
  {
    if apiKey.None? || apiKey.value == "" then Fail(API_KEY_MISSING)
    else Ok(GenAIClient(apiKey.value))
  }

  /** `response.text?.trim()`, with an absent text or a thrown call read as "". */
  function ResponseText(g: Generation): string {
    if g.Generated? && g.text.Some? then Trim(g.text.value) else ""
  }

  /** detectScamIntent. getGenAI runs before the `try`, so a missing key raises; inside the
      `try`, a failed call, an empty text or unparsable JSON all yield the fixed fallback. */
  function DetectScamIntent(apiKey: Option<string>, g: Generation, parse: Parse<ScamDetectionResult>)
    : (r: Result<ScamDetectionResult>)
    ensures r.Fail? <==> !KeyConfigured(apiKey)
    ensures r.Fail? ==> r.reason == API_KEY_MISSING
    ensures r.Ok? && (ResponseText(g) == "" || parse.Unparsable?) ==>
      r.value == ScamDetectionResult(false, None, DETECTION_FALLBACK_REPLY)
    ensures r.Ok? && ResponseText(g) != "" && parse.Parsed? ==> r.value == parse.value
  {
    match GetGenAI(apiKey)
    case Fail(e) => Fail(e)
    case Ok(_) =>
      var fallback := ScamDetectionResult(false, None, DETECTION_FALLBACK_REPLY);
      if g.Threw? then Ok(fallback)
      else
        var jsonStr := if g.text.Some? then Trim(g.text.value) else "";
        if jsonStr == "" then Ok(fallback)
        else
          match parse
          case Unparsable(_) => Ok(fallback)
          case Parsed(v) => Ok(v)
  }

  /** generateAgentResponse: the trimmed reply, or the fixed fallback when the call failed or
      its trimmed text is empty; either way a non-empty reply. */
  function GenerateAgentResponse(apiKey: Option<string>, g: Generation): (r: Result<AgentResponse>)
    ensures r.Fail? <==> !KeyConfigured(apiKey)
    ensures r.Fail? ==> r.reason == API_KEY_MISSING
    ensures r.Ok? ==> r.value.reply != ""
    ensures r.Ok? ==> r.value.reply == if ResponseText(g) == "" then AGENT_FALLBACK_REPLY else ResponseText(g)
  {
    match GetGenAI(apiKey)
    case Fail(e) => Fail(e)
    case Ok(_) =>
      if g.Threw? then Ok(AgentResponse(AGENT_FALLBACK_REPLY))
      else
        var replyText := if g.text.Some? then Trim(g.text.value) else "";
        if replyText == "" then Ok(AgentResponse(AGENT_FALLBACK_REPLY))
        else
          Ok(AgentResponse(replyText))
  }

  /** extractIntelligence: the parsed result, or all five categories empty when the call failed,
      returned no text or returned unparsable JSON. */
  function ExtractIntelligence(apiKey: Option<string>, g: Generation, parse: Parse<ExtractedIntelligence>)
    : (r: Result<ExtractedIntelligence>)
    ensures r.Fail? <==> !KeyConfigured(apiKey)
    ensures r.Fail? ==> r.reason == API_KEY_MISSING
    ensures r.Ok? && (ResponseText(g) == "" || parse.Unparsable?) ==> IsEmptyIntelligence(r.value)
    ensures r.Ok? && ResponseText(g) != "" && parse.Parsed? ==> r.value == parse.value
  {
    match GetGenAI(apiKey)
    case Fail(e) => Fail(e)
    case Ok(_) =>
      if g.Threw? then Ok(EmptyIntelligence())
      else
        var jsonStr := if g.text.Some? then Trim(g.text.value) else "";
        if jsonStr == "" then Ok(EmptyIntelligence())
        else
          match parse
          case Unparsable(_) => Ok(EmptyIntelligence())
          case Parsed(v) => Ok(v)
  }

  /** generateAgentNotes: the trimmed notes, or the fixed fallback when the call failed or its
      trimmed text is empty. */
  function GenerateAgentNotes(apiKey: Option<string>, g: Generation): (r: Result<AgentNotes>)
    ensures r.Fail? <==> !KeyConfigured(apiKey)
    ensures r.Fail? ==> r.reason == API_KEY_MISSING
    ensures r.Ok? ==> r.value.notes != ""
    ensures r.Ok? ==> r.value.notes == if ResponseText(g) == "" then NOTES_FALLBACK else ResponseText(g)
  {
    match GetGenAI(apiKey)
    case Fail(e) => Fail(e)
    case Ok(_) =>
      if g.Threw? then Ok(AgentNotes(NOTES_FALLBACK))
      else
        var notesText := if g.text.Some? then Trim(g.text.value) else "";
        if notesText == "" then Ok(AgentNotes(NOTES_FALLBACK))
        else
          Ok(AgentNotes(notesText))
  }
}
