/** Properties of the session state machine over runs of handler calls, and how the service
    layer's fallbacks feed it. */
module AppProperties {
  import opened Wrappers
  import opened Types
  import opened App
  import opened GeminiService

  /** A handled UI event: a scammer message, or a click on end engagement. */
  datatype Event =
    | Incoming(text: string, env: TurnEnv)
    | EndRequest(notes: Result<AgentNotes>, submission: Submission)

  /** The session after some events, and the reports posted on the way, in order. */
  datatype Trace = Trace(session: HoneypotSession, sent: seq<FinalResultPayload>)

  /** One handler call, each starting when no other is loading. The error banner never
      influences the session or what is sent, so it is not carried along. */
  function Step(s: HoneypotSession, nonScamReply: string, e: Event): Trace {
    match e
    case Incoming(text, env) => Trace(ProcessMessage(s, text, nonScamReply, env).session, [])
    case EndRequest(notes, submission) =>
      var r := EndEngagement(s, false, None, notes, submission);
      Trace(r.session, if r.sent.Some? then [r.sent.value] else [])
  }

  function Run(s: HoneypotSession, nonScamReply: string, events: seq<Event>): Trace
    decreases |events|
  {
    if events == [] then Trace(s, [])
    else
      var first := Step(s, nonScamReply, events[0]);
      var rest := Run(first.session, nonScamReply, events[1..]);
      Trace(rest.session, first.sent + rest.sent)
  }

  /** Once a scam is detected, the detection collaborator's answer is never consulted again. */
  lemma FlaggedIgnoresDetection(s: HoneypotSession, text: string, nonScamReply: string, env: TurnEnv,
                                other: Result<ScamDetectionResult>)
    requires s.scamDetected
    ensures ProcessMessage(s, text, nonScamReply, env) == ProcessMessage(s, text, nonScamReply, env.(detected := other))
  {
  }

  /** A message turn keeps a consistent session consistent. */
  lemma ProcessMessageKeepsConsistent(s: HoneypotSession, text: string, nonScamReply: string, env: TurnEnv)
    requires Consistent(s)
    ensures Consistent(ProcessMessage(s, text, nonScamReply, env).session)
  {
    var r := ProcessMessage(s, text, nonScamReply, env);
    if r.response.status == Success {
      var h, h' := s.conversationHistory, r.session.conversationHistory;
      forall i | 0 <= i < |h'| ensures h'[i].sender == Scammer <==> i % 2 == 0 {
        if i < |h| { assert h'[i] == h[i]; }
      }
    }
  }

  lemma {:induction false} RunKeepsConsistent(s: HoneypotSession, nonScamReply: string, events: seq<Event>)
    requires Consistent(s)
    ensures Consistent(Run(s, nonScamReply, events).session)
    decreases |events|
  {
    if events != [] {
      var first := Step(s, nonScamReply, events[0]);
      match events[0] {
        case Incoming(text, env) => ProcessMessageKeepsConsistent(s, text, nonScamReply, env);
        case EndRequest(_, _) =>
      }
      RunKeepsConsistent(first.session, nonScamReply, events[1..]);
    }
  }

  /** The scam flag is one-way over any run. */
  lemma {:induction false} RunKeepsScamFlag(s: HoneypotSession, nonScamReply: string, events: seq<Event>)
    requires s.scamDetected
    ensures Run(s, nonScamReply, events).session.scamDetected
    decreases |events|
  {
    if events != [] {
      RunKeepsScamFlag(Step(s, nonScamReply, events[0]).session, nonScamReply, events[1..]);
    }
  }

  /** The history is append-only over any run, and the session keeps its identity. */
  lemma {:induction false} RunExtendsHistory(s: HoneypotSession, nonScamReply: string, events: seq<Event>)
    ensures s.conversationHistory <= Run(s, nonScamReply, events).session.conversationHistory
    ensures Run(s, nonScamReply, events).session.sessionId == s.sessionId
    decreases |events|
  {
    if events != [] {
      var first := Step(s, nonScamReply, events[0]);
      RunExtendsHistory(first.session, nonScamReply, events[1..]);
    }
  }

  /** Every collaborator of a message turn answered. */
  predicate Answered(e: Event) {
    e.Incoming? && e.env.detected.Ok? && e.env.engaged.Ok? && e.env.extracted.Ok?
  }

  /** After N answered message turns the counter and the history have grown by exactly 2N. */
  lemma {:induction false} AnsweredTurnsCountTwice(s: HoneypotSession, nonScamReply: string, events: seq<Event>)
    requires forall k :: 0 <= k < |events| ==> Answered(events[k])
    ensures Run(s, nonScamReply, events).session.totalMessagesExchanged == s.totalMessagesExchanged + 2 * |events|
    ensures |Run(s, nonScamReply, events).session.conversationHistory| == |s.conversationHistory| + 2 * |events|
    decreases |events|
  {
    if events != [] {
      var first := Step(s, nonScamReply, events[0]);
      assert Answered(events[0]);
      AnsweredTurnsCountTwice(first.session, nonScamReply, events[1..]);
    }
  }

  /** From a new session, N answered turns leave the counter at 2N. */
  lemma NewSessionCountsTwicePerTurn(id: string, nonScamReply: string, events: seq<Event>)
    requires forall k :: 0 <= k < |events| ==> Answered(events[k])
    ensures Run(NewSession(id), nonScamReply, events).session.totalMessagesExchanged == 2 * |events|
  {
    AnsweredTurnsCountTwice(NewSession(id), nonScamReply, events);
  }

  /** A completed session stays completed and posts nothing more, whatever follows. */
  lemma {:induction false} CompletedSendsNothing(s: HoneypotSession, nonScamReply: string, events: seq<Event>)
    requires s.status == Completed
    ensures Run(s, nonScamReply, events).sent == []
    ensures Run(s, nonScamReply, events).session.status == Completed
    decreases |events|
  {
    if events != [] {
      var first := Step(s, nonScamReply, events[0]);
      CompletedSendsNothing(first.session, nonScamReply, events[1..]);
    }
  }

  /** At most once: after an accepted submission, later clicks and messages post nothing. */
  lemma AcceptedSubmissionIsTheLast(s: HoneypotSession, nonScamReply: string, notes: AgentNotes, rest: seq<Event>)
    requires s.status == Active
    ensures Run(s, nonScamReply, [EndRequest(Ok(notes), Accepted)] + rest).sent ==
      [FinalResultPayload(s.sessionId, s.scamDetected, s.totalMessagesExchanged, s.extractedIntelligence, notes.notes)]
  {
    var events := [EndRequest(Ok(notes), Accepted)] + rest;
    var first := Step(s, nonScamReply, events[0]);
    assert events[1..] == rest;
    CompletedSendsNothing(first.session, nonScamReply, rest);
  }

  /** Rollback: a failed submission leaves the session active with the new notes, so a second
      click submits again and can complete the session. */
  lemma RetryAfterFailedSubmission(s: HoneypotSession, nonScamReply: string,
                                   first: AgentNotes, second: AgentNotes, failure: Submission)
    requires s.status == Active && !failure.Accepted?
    ensures var t := Run(s, nonScamReply, [EndRequest(Ok(first), failure)]);
      t.session == s.(agentNotes := first.notes)
    ensures var t := Run(s, nonScamReply, [EndRequest(Ok(first), failure), EndRequest(Ok(second), Accepted)]);
      && t.session == s.(agentNotes := second.notes, status := Completed)
      && t.sent == [
           FinalResultPayload(s.sessionId, s.scamDetected, s.totalMessagesExchanged, s.extractedIntelligence, first.notes),
           FinalResultPayload(s.sessionId, s.scamDetected, s.totalMessagesExchanged, s.extractedIntelligence, second.notes)]
  {
    var events := [EndRequest(Ok(first), failure), EndRequest(Ok(second), Accepted)];
    var afterFirst := Step(s, nonScamReply, events[0]);
    assert afterFirst.session == s.(agentNotes := first.notes);
    var afterSecond := Step(afterFirst.session, nonScamReply, events[1]);
    assert afterSecond.session == s.(agentNotes := second.notes, status := Completed);
    assert events[1..] == [EndRequest(Ok(second), Accepted)];
    assert Run(afterFirst.session, nonScamReply, events[1..]) == Trace(afterSecond.session, afterSecond.sent);
  }

  /** The turn environment the service layer produces for one API key and the raw model outcomes. */
  function ServiceTurn(apiKey: Option<string>, sentAt: int, repliedAt: int,
                       detection: Generation, detectionJson: Parse<ScamDetectionResult>,
                       engagement: Generation,
                       extraction: Generation, extractionJson: Parse<ExtractedIntelligence>): TurnEnv {
    TurnEnv(sentAt, repliedAt,
            DetectScamIntent(apiKey, detection, detectionJson),
            GenerateAgentResponse(apiKey, engagement),
            ExtractIntelligence(apiKey, extraction, extractionJson))
  }

  /** With the service layer's fallbacks, a turn fails exactly when the API key is missing;
      an engaged turn always records a non-empty reply; a detection call that produced
      nothing usable reads as "not a scam", answered with the neutral reply; and an extraction
      call that produced nothing usable replaces the stored intelligence with empty lists. */
  lemma ServiceTurnOutcome(s: HoneypotSession, text: string, nonScamReply: string, apiKey: Option<string>,
                           sentAt: int, repliedAt: int,
                           detection: Generation, detectionJson: Parse<ScamDetectionResult>,
                           engagement: Generation,
                           extraction: Generation, extractionJson: Parse<ExtractedIntelligence>)
    ensures var r := ProcessMessage(s, text, nonScamReply,
                                    ServiceTurn(apiKey, sentAt, repliedAt, detection, detectionJson,
                                                engagement, extraction, extractionJson));
      && (r.response.status == Success <==> KeyConfigured(apiKey))
      && (!KeyConfigured(apiKey) ==> r.session == s)
      && (s.scamDetected && KeyConfigured(apiKey) ==> r.response.reply != "")
      && (!s.scamDetected && KeyConfigured(apiKey) &&
          (detection.Threw? || ResponseText(detection) == "" || detectionJson.Unparsable?) ==>
            !r.session.scamDetected && r.session.scamType == None && r.response.reply == nonScamReply)
      && (r.session.scamDetected && KeyConfigured(apiKey) &&
          (extraction.Threw? || ResponseText(extraction) == "" || extractionJson.Unparsable?) ==>
            IsEmptyIntelligence(r.session.extractedIntelligence))
  {
  }

  /** With the notes collaborator of the service layer, an end-engagement click that passes the
      gate posts a report exactly when the API key is configured; without it, only the status
      is (re)set to active. */
  lemma ServiceNotesOutcome(s: HoneypotSession, error: Option<string>, apiKey: Option<string>,
                            notes: Generation, submission: Submission)
    requires s.status == Active
    ensures var r := EndEngagement(s, false, error, GenerateAgentNotes(apiKey, notes), submission);
      && (r.sent.Some? <==> KeyConfigured(apiKey))
      && (r.sent.Some? ==> r.sent.value.agentNotes != "")
      && (!KeyConfigured(apiKey) ==> r.session == s && r.error.Some?)
  {
  }
}
