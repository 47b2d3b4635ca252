/** The data model of types.ts: every interface and string union becomes a datatype. */
module Types {
  import opened Wrappers

  /** Who wrote a message; a union of exactly two literals. */
  datatype Sender = Scammer | Honeypot

  /** One entry of a session's conversation history. */
  datatype Message = Message(sender: Sender, text: string, timestamp: int)

  /** Role of a message in the generative model's chat format. */
  datatype Role = User | Model

  datatype Part = Part(text: string)

  datatype ConversationMessage = ConversationMessage(role: Role, parts: seq<Part>)

  datatype ResponseStatus = Success | Error

  /** What the message handler answers; `scamDetected` is an optional field. */
  datatype OutgoingResponsePayload =
    OutgoingResponsePayload(status: ResponseStatus, reply: string, scamDetected: Option<bool>)

  /** The five intelligence categories, always all present. */
  datatype ExtractedIntelligence = ExtractedIntelligence(
    bankAccounts: seq<string>,
    upiIds: seq<string>,
    phishingLinks: seq<string>,
    phoneNumbers: seq<string>,
    suspiciousKeywords: seq<string>)

  /** All five categories empty (createEmptyIntelligence in App.tsx). */
  function EmptyIntelligence(): (r: ExtractedIntelligence)
    ensures IsEmptyIntelligence(r)
  {
    ExtractedIntelligence([], [], [], [], [])
  }

  predicate IsEmptyIntelligence(i: ExtractedIntelligence) {
    i.bankAccounts == [] && i.upiIds == [] && i.phishingLinks == [] && i.phoneNumbers == [] && i.suspiciousKeywords == []
  }

  /** Session lifecycle; a union of exactly two literals. */
  datatype SessionStatus = Active | Completed

  datatype HoneypotSession = HoneypotSession(
    sessionId: string,
    conversationHistory: seq<Message>,
    scamDetected: bool,
    totalMessagesExchanged: int,
    extractedIntelligence: ExtractedIntelligence,
    agentNotes: string,
    scamType: Option<string>,
    status: SessionStatus)

  /** The report submitted to the evaluation endpoint. */
  datatype FinalResultPayload = FinalResultPayload(
    sessionId: string,
    scamDetected: bool,
    totalMessagesExchanged: int,
    extractedIntelligence: ExtractedIntelligence,
    agentNotes: string)

  datatype ScamDetectionResult = ScamDetectionResult(isScam: bool, scamType: Option<string>, initialReply: string)

  datatype AgentResponse = AgentResponse(reply: string)

  datatype AgentNotes = AgentNotes(notes: string)
}
