/** App.tsx: the honeypot session state machine. A single HoneypotSession record is updated by
    read-modify-write in three handlers (incoming message, end engagement, reset). Each handler
    is specified by a pure function of the old state and of what the collaborators answered,
    and implemented as a method of HoneypotApp that updates its fields step by step. */
module App {
  import opened Wrappers
  import opened Types
  import opened Strings

  const INTERNAL_ERROR_REPLY := "An internal error occurred. Please try again."
  const PROCESS_ERROR_PREFIX := "Failed to process message: "
  const SUBMIT_ERROR_PREFIX := "Failed to submit final results: "
  const EVALUATION_ERROR_PREFIX := "Failed to submit evaluation results: "

  /** The shape every session built by the handlers keeps: one counted entry per message,
      scammer and honeypot alternating from the scammer, and no intelligence before detection. */
  predicate Consistent(s: HoneypotSession) {
    && s.totalMessagesExchanged == |s.conversationHistory|
    && |s.conversationHistory| % 2 == 0
    && (forall i :: 0 <= i < |s.conversationHistory| ==>
          (s.conversationHistory[i].sender == Scammer <==> i % 2 == 0))
    && (!s.scamDetected ==> IsEmptyIntelligence(s.extractedIntelligence))
  }

  /** The session the app starts with when nothing is stored, and the one a reset installs. */
  function NewSession(sessionId: string): (s: HoneypotSession)
    ensures s.sessionId == sessionId && s.status == Active
    ensures s.conversationHistory == [] && s.totalMessagesExchanged == 0
    ensures !s.scamDetected && s.scamType == None
    ensures IsEmptyIntelligence(s.extractedIntelligence) && s.agentNotes == ""
    ensures Consistent(s)
  {
    HoneypotSession(sessionId, [], false, 0, EmptyIntelligence(), "", None, Active)
  }

  /** A record parsed back from storage. The loader defaults the fields that may be missing;
      `None` stands for a missing (or null) field. */
  datatype SavedSession = SavedSession(
    sessionId: string,
    conversationHistory: seq<Message>,
    scamDetected: bool,
    totalMessagesExchanged: int,
    extractedIntelligence: Option<ExtractedIntelligence>,
    agentNotes: Option<string>,
    scamType: Option<string>,
    status: Option<SessionStatus>)

  /** The loader's normalisation: each defaulted field falls back when it is falsy (missing,
      null or the empty string), every other field is kept. */
  function LoadSession(saved: SavedSession): (s: HoneypotSession)
    ensures s.sessionId == saved.sessionId && s.conversationHistory == saved.conversationHistory
    ensures s.scamDetected == saved.scamDetected && s.totalMessagesExchanged == saved.totalMessagesExchanged
    ensures saved.extractedIntelligence.None? ==> IsEmptyIntelligence(s.extractedIntelligence)
    ensures saved.extractedIntelligence.Some? ==> s.extractedIntelligence == saved.extractedIntelligence.value
    ensures s.scamType.None? <==> saved.scamType.None? || saved.scamType.value == ""
    ensures s.scamType.Some? ==> s.scamType == saved.scamType
    ensures s.agentNotes == if saved.agentNotes.Some? then saved.agentNotes.value else ""
    ensures s.status == if saved.status.Some? then saved.status.value else Active
  {
    HoneypotSession(
      saved.sessionId,
      saved.conversationHistory,
      saved.scamDetected,
      saved.totalMessagesExchanged,
      if saved.extractedIntelligence.Some? then saved.extractedIntelligence.value else EmptyIntelligence(),
      if saved.agentNotes.Some? && saved.agentNotes.value != "" then saved.agentNotes.value else "",
      if saved.scamType.Some? && saved.scamType.value != "" then saved.scamType else None,
      if saved.status.Some? then saved.status.value else Active)
  }

  /** What the persistence effect writes: every field present. */
  function SaveSession(s: HoneypotSession): (r: SavedSession)
    ensures r.extractedIntelligence == Some(s.extractedIntelligence) && r.agentNotes == Some(s.agentNotes)
    ensures r.status == Some(s.status)
    ensures r.sessionId == s.sessionId && r.conversationHistory == s.conversationHistory
    ensures r.scamDetected == s.scamDetected && r.totalMessagesExchanged == s.totalMessagesExchanged
    ensures r.scamType == s.scamType
  {
    SavedSession(s.sessionId, s.conversationHistory, s.scamDetected, s.totalMessagesExchanged,
                 Some(s.extractedIntelligence), Some(s.agentNotes), s.scamType, Some(s.status))
  }

  /** Reloading a saved session gives it back, except that an empty scam type comes back null. */
  lemma LoadSavedSession(s: HoneypotSession)
    ensures LoadSession(SaveSession(s)) == s <==> s.scamType != Some("")
  {
  }

  /** What the clock and the collaborators answer during one turn: the two Date.now() readings
      and the outcome of detectScamIntent, generateAgentResponse and extractIntelligence
      (only those the turn calls are consulted). */
  datatype TurnEnv = TurnEnv(
    sentAt: int,
    repliedAt: int,
    detected: Result<ScamDetectionResult>,
    engaged: Result<AgentResponse>,
    extracted: Result<ExtractedIntelligence>)

  datatype TurnResult = TurnResult(session: HoneypotSession, response: OutgoingResponsePayload, error: Option<string>)

  /** The `catch` branch: the session is left as it was. */
  function FailedTurn(s: HoneypotSession, newScamDetected: bool, reason: string): TurnResult {
    TurnResult(s, OutgoingResponsePayload(Error, INTERNAL_ERROR_REPLY, Some(newScamDetected)),
               Some(PROCESS_ERROR_PREFIX + reason))
  }

  /** handleIncomingMessage as one step over the session. */
  function ProcessMessage(s: HoneypotSession, text: string, nonScamReply: string, env: TurnEnv): (r: TurnResult)
    // which collaborator failures abort the turn
    ensures r.response.status == Error <==>
      if s.scamDetected then env.engaged.Fail? || env.extracted.Fail?
      else env.detected.Fail? || (env.detected.value.isScam && env.extracted.Fail?)
    // an aborted turn records nothing, not even the inbound message
    ensures r.response.status == Error ==>
      && r.session == s
      && r.response.reply == INTERNAL_ERROR_REPLY
      && r.error.Some?
    // the error banner names the first collaborator that threw
    ensures r.response.status == Error ==>
      r.error == Some(PROCESS_ERROR_PREFIX +
        if !s.scamDetected && env.detected.Fail? then env.detected.reason
        else if s.scamDetected && env.engaged.Fail? then env.engaged.reason
        else env.extracted.reason)
    // an aborted turn reports the flag as far as the turn got: the old flag, or the fresh verdict
    ensures r.response.status == Error ==>
      r.response.scamDetected ==
        Some(if !s.scamDetected && env.detected.Ok? then env.detected.value.isScam else s.scamDetected)
    // a successful turn appends exactly the inbound message and the reply, and counts two
    ensures r.response.status == Success ==>
      && r.error == None
      && r.session.conversationHistory ==
           s.conversationHistory + [Message(Scammer, text, env.sentAt), Message(Honeypot, r.response.reply, env.repliedAt)]
      && r.session.totalMessagesExchanged == s.totalMessagesExchanged + 2
      && r.response.scamDetected == Some(r.session.scamDetected)
      && r.session.sessionId == s.sessionId && r.session.agentNotes == s.agentNotes && r.session.status == s.status
    // intelligence is replaced wholesale by the extraction result exactly when the new flag is set
    ensures r.response.status == Success && r.session.scamDetected ==>
      env.extracted.Ok? && r.session.extractedIntelligence == env.extracted.value
    ensures !r.session.scamDetected ==> r.session.extractedIntelligence == s.extractedIntelligence
    // once flagged: the engagement collaborator replies, flag and type stay
    ensures s.scamDetected ==> r.session.scamDetected && r.session.scamType == s.scamType
    ensures s.scamDetected && r.response.status == Success ==> r.response.reply == env.engaged.value.reply
    // not yet flagged: the detection verdict sets flag and type and chooses the reply
    ensures !s.scamDetected && r.response.status == Success ==>
      && r.session.scamDetected == env.detected.value.isScam
      && r.session.scamType == env.detected.value.scamType
      && r.response.reply == (if env.detected.value.isScam then env.detected.value.initialReply else nonScamReply)
  {
    var updatedHistory := s.conversationHistory + [Message(Scammer, text, env.sentAt)];
    var step: Result<(bool, Option<string>, string)> :=
      if !s.scamDetected then
        match env.detected
        case Fail(e) => Fail(e)
        case Ok(d) => Ok((d.isScam, d.scamType, if d.isScam then d.initialReply else nonScamReply))
      else
        match env.engaged
        case Fail(e) => Fail(e)
        case Ok(a) => Ok((s.scamDetected, s.scamType, a.reply));
    if step.Fail? then FailedTurn(s, s.scamDetected, step.reason)
    else
      var newScamDetected, newScamType, agentReply := step.value.0, step.value.1, step.value.2;
      var finalHistory := updatedHistory + [Message(Honeypot, agentReply, env.repliedAt)];
      if newScamDetected && env.extracted.Fail? then FailedTurn(s, newScamDetected, env.extracted.reason)
      else
        var extractedData := if newScamDetected then env.extracted.value else s.extractedIntelligence;
        TurnResult(
          s.(conversationHistory := finalHistory,
             scamDetected := newScamDetected,
             scamType := newScamType,
             totalMessagesExchanged := s.totalMessagesExchanged + 2,
             extractedIntelligence := extractedData),
          OutgoingResponsePayload(Success, agentReply, Some(newScamDetected)),
          None)
  }

  /** What the fetch to the evaluation endpoint came to: an ok response, a non-ok response
      (with the `message` of its JSON body, if any, and its status text), or an error thrown
      by fetch or by reading the error body. */
  datatype Submission =
    | Accepted
    | Rejected(message: Option<string>, statusText: string)
    | SubmitThrew(reason: string)

  /** The message of the error the handler throws or catches for a failed submission. */
  function SubmissionFailure(submission: Submission): (r: string)
    requires !submission.Accepted?
    // a non-empty message from the error body takes precedence over the status text
    ensures submission.Rejected? ==>
      && |r| >= |EVALUATION_ERROR_PREFIX| && r[..|EVALUATION_ERROR_PREFIX|] == EVALUATION_ERROR_PREFIX
      && r[|EVALUATION_ERROR_PREFIX|..] ==
           if submission.message.Some? && submission.message.value != "" then submission.message.value
           else submission.statusText
    // an error thrown on the way is reported with its own message
    ensures submission.SubmitThrew? ==> r == submission.reason
  {
    match submission
    case Rejected(m, statusText) =>
      EVALUATION_ERROR_PREFIX + (if m.Some? && m.value != "" then m.value else statusText)
    case SubmitThrew(reason) => reason
  }

  datatype EndResult = EndResult(
    session: HoneypotSession,
    isLoading: bool,
    error: Option<string>,
    sent: Option<FinalResultPayload>)

  /** handleEndEngagement returns at once for a completed session or while loading. */
  predicate EndGated(s: HoneypotSession, isLoading: bool) {
    s.status == Completed || isLoading
  }

  /** handleEndEngagement as one step: `notes` is what generateAgentNotes answered and
      `submission` what the fetch came to; `sent` is the payload posted, if any. */
  function EndEngagement(s: HoneypotSession, isLoading: bool, error: Option<string>,
                         notes: Result<AgentNotes>, submission: Submission): (r: EndResult)
    // the gate: nothing changes and nothing is sent
    ensures EndGated(s, isLoading) ==> r == EndResult(s, isLoading, error, None)
    ensures !EndGated(s, isLoading) ==> !r.isLoading
    // a payload is posted exactly when the notes were produced, and it projects the session
    ensures r.sent.Some? <==> !EndGated(s, isLoading) && notes.Ok?
    ensures r.sent.Some? ==>
      r.sent.value == FinalResultPayload(s.sessionId, s.scamDetected, s.totalMessagesExchanged,
                                         s.extractedIntelligence, notes.value.notes)
    // only the notes and the status ever change
    ensures r.session == s.(agentNotes := r.session.agentNotes, status := r.session.status)
    ensures r.session.agentNotes == if r.sent.Some? then notes.value.notes else s.agentNotes
    // completed exactly after an accepted submission; any failure leaves (or puts back) active
    ensures r.session.status == Completed <==> s.status == Completed || (r.sent.Some? && submission.Accepted?)
    ensures r.error.None? <==> (EndGated(s, isLoading) && error.None?) || (r.sent.Some? && submission.Accepted?)
    // the banner names what failed: the notes call, or the submission
    ensures !EndGated(s, isLoading) && notes.Fail? ==> r.error == Some(SUBMIT_ERROR_PREFIX + notes.reason)
    ensures r.sent.Some? && !submission.Accepted? ==>
      r.error == Some(SUBMIT_ERROR_PREFIX + SubmissionFailure(submission))
  {
    if s.status == Completed || isLoading then EndResult(s, isLoading, error, None)
    else
      match notes
      case Fail(e) => EndResult(s.(status := Active), false, Some(SUBMIT_ERROR_PREFIX + e), None)
      case Ok(n) =>
        var payload := FinalResultPayload(s.sessionId, s.scamDetected, s.totalMessagesExchanged,
                                          s.extractedIntelligence, n.notes);
        var submitted := s.(agentNotes := n.notes, status := Completed);
        if submission.Accepted? then EndResult(submitted, false, None, Some(payload))
        else EndResult(submitted.(status := Active), false,
                       Some(SUBMIT_ERROR_PREFIX + SubmissionFailure(submission)), Some(payload))
  }

  datatype ResetResult = ResetResult(session: HoneypotSession, error: Option<string>)

  /** handleResetSession: ignored while loading or when the user does not confirm; otherwise a
      new empty session under `freshId` replaces the old one and the error is cleared. */
  function ResetSession(s: HoneypotSession, isLoading: bool, error: Option<string>,
                        confirmed: bool, freshId: string): (r: ResetResult)
    ensures isLoading || !confirmed ==> r == ResetResult(s, error)
    ensures !isLoading && confirmed ==>
      && r.error == None
      && r.session.sessionId == freshId
      && r.session.conversationHistory == [] && r.session.totalMessagesExchanged == 0
      && !r.session.scamDetected && IsEmptyIntelligence(r.session.extractedIntelligence)
      && r.session.agentNotes == "" && r.session.scamType == None
      && r.session.status == Active
  {
    if isLoading || !confirmed then ResetResult(s, error)
    else ResetResult(NewSession(freshId), None)
  }

  /** The send guard of the chat input (ChatInput.tsx:13), which App.tsx also disables for a
      completed session: a message that is not blank, while nothing is loading. */
  predicate InputAccepts(text: string, isLoading: bool, status: SessionStatus) {
    Trim(text) != "" && !(isLoading || status == Completed)
  }

  class HoneypotApp {
    var session: HoneypotSession
    var isLoading: bool
    var error: Option<string>
    /** DEFAULT_NON_SCAM_REPLY, whose value lives in a constants file outside this model. */
    const nonScamReply: string

    /** The state initialiser: the stored session, normalised, or a fresh one. */
    constructor (stored: Option<SavedSession>, freshId: string, nonScamReply: string)
      ensures session == if stored.Some? then LoadSession(stored.value) else NewSession(freshId)
      ensures !isLoading && error == None && this.nonScamReply == nonScamReply
    {
      if stored.Some? {
        session := LoadSession(stored.value);
      } else {
        session := NewSession(freshId);
      }
      isLoading := false;
      error := None;
      this.nonScamReply := nonScamReply;
    }

    method HandleIncomingMessage(text: string, env: TurnEnv) returns (response: OutgoingResponsePayload)
      modifies this
      ensures var r := ProcessMessage(old(session), text, nonScamReply, env);
        session == r.session && response == r.response && error == r.error
      ensures !isLoading
    {
      isLoading := true;
      error := None;
      var agentReply := "";
      var newScamDetected := session.scamDetected;
      var newScamType := session.scamType;
      var failure: Option<string> := None;

      var updatedHistory := session.conversationHistory + [Message(Scammer, text, env.sentAt)];
      if !session.scamDetected {
        match env.detected {
          case Fail(e) =>
            failure := Some(e);
          case Ok(detectionResult) =>
            newScamDetected := detectionResult.isScam;
            newScamType := detectionResult.scamType;
            agentReply := if detectionResult.isScam then detectionResult.initialReply else nonScamReply;
        }
      } else {
        match env.engaged {
          case Fail(e) =>
            failure := Some(e);
          case Ok(agentResponse) =>
            agentReply := agentResponse.reply;
        }
      }

      if failure.None? {
        var finalHistory := updatedHistory + [Message(Honeypot, agentReply, env.repliedAt)];
        var extractedData := session.extractedIntelligence;
        if newScamDetected {
          match env.extracted {
            case Fail(e) =>
              failure := Some(e);
            case Ok(intelligence) =>
              extractedData := intelligence;
          }
        }
        if failure.None? {
          session := session.(
            conversationHistory := finalHistory,
            scamDetected := newScamDetected,
            scamType := newScamType,
            totalMessagesExchanged := session.totalMessagesExchanged + 2,
            extractedIntelligence := extractedData);
        }
      }

      if failure.Some? {
        error := Some(PROCESS_ERROR_PREFIX + failure.value);
        response := OutgoingResponsePayload(Error, INTERNAL_ERROR_REPLY, Some(newScamDetected));
      } else {
        response := OutgoingResponsePayload(Success, agentReply, Some(newScamDetected));
      }
      isLoading := false;
    }

    method HandleEndEngagement(notes: Result<AgentNotes>, submission: Submission)
      returns (sent: Option<FinalResultPayload>)
      modifies this
      ensures var r := EndEngagement(old(session), old(isLoading), old(error), notes, submission);
        session == r.session && isLoading == r.isLoading && error == r.error && sent == r.sent
    {
      if session.status == Completed || isLoading {
        sent := None;
        return;
      }
      isLoading := true;
      error := None;
      match notes {
        case Fail(e) =>
          error := Some(SUBMIT_ERROR_PREFIX + e);
          session := session.(status := Active);
          sent := None;
        case Ok(agentNotesResult) =>
          var finalNotes := agentNotesResult.notes;
          var finalPayload := FinalResultPayload(session.sessionId, session.scamDetected,
                                                 session.totalMessagesExchanged,
                                                 session.extractedIntelligence, finalNotes);
          session := session.(agentNotes := finalNotes, status := Completed);
          sent := Some(finalPayload);
          if !submission.Accepted? {
            error := Some(SUBMIT_ERROR_PREFIX + SubmissionFailure(submission));
            session := session.(status := Active);
          }
      }
      isLoading := false;
    }

    /** `freshId` is the new uuid, different from the current session's id. */
    method HandleResetSession(confirmed: bool, freshId: string)
      requires freshId != session.sessionId
      modifies this
      ensures var r := ResetSession(old(session), old(isLoading), old(error), confirmed, freshId);
        session == r.session && error == r.error
      ensures isLoading == old(isLoading)
      ensures session.sessionId != old(session.sessionId) <==> !old(isLoading) && confirmed
    {
      if isLoading {
        return;
      }
      if confirmed {
        session := NewSession(freshId);
        error := None;
      }
    }

    /** The chat input's submit: hands the text, untrimmed, to the message handler when the
        input accepts it, and does nothing otherwise. */
    method SendMessage(text: string, env: TurnEnv) returns (response: Option<OutgoingResponsePayload>)
      modifies this
      ensures !InputAccepts(text, old(isLoading), old(session.status)) ==>
        response == None && session == old(session) && error == old(error) && isLoading == old(isLoading)
      ensures InputAccepts(text, old(isLoading), old(session.status)) ==>
        var r := ProcessMessage(old(session), text, nonScamReply, env);
        response == Some(r.response) && session == r.session && error == r.error && !isLoading
    {
      if Trim(text) != "" && !(isLoading || session.status == Completed) {
        var reply := HandleIncomingMessage(text, env);
        response := Some(reply);
      } else {
        response := None;
      }
    }
  }
}
