# Honeypot session state machine, in Dafny

This project models the core of an AI honeypot that keeps a suspected scammer talking,
decides whether the conversation is a scam, collects intelligence (bank accounts, UPI ids,
phishing links, phone numbers, suspicious keywords), and finally submits a report to an
evaluation endpoint.

- `types.dfy` (module `Types`) is the data model of `types.ts`: messages, chat-format
  messages, the five-category intelligence record, the session record, the final payload,
  and the collaborators' results. Each string union is a datatype with exactly those
  constructors.
- `app.dfy` (module `App`) is the session state machine of `App.tsx`. Each handler is a pure
  function of the old state and of what the collaborators answered:
  `ProcessMessage`, `EndEngagement` and `ResetSession`. The class `HoneypotApp` holds the
  `session`, `isLoading` and `error` state. Its methods update those fields step by step,
  as the handlers do, and are proved equal to the functions. Loading a stored session is
  `LoadSession`, a normalisation of a possibly partial record.
- `app_properties.dfy` (module `AppProperties`) runs sequences of handler calls. It proves
  properties over those runs:
  - the scam flag is one-way;
  - the history is append-only;
  - the counter grows by 2N over N answered turns;
  - at most one submission is accepted, and it is the last report posted;
  - a failed submission can be retried.

  It also ties the service layer's fallbacks to the state machine.
- `gemini_service.dfy` (module `GeminiService`) covers `services/geminiService.ts`:
  - history formatting and the transcript lines inside each prompt;
  - the API-key check;
  - the fallback result of each generative call;
  - the byte-to-character loop of `encode`.
- `detect.dfy` (module `Detect`) is the `api/detect.js` HTTP handler. It models the chain
  method → health → API key → text validation → verdict → error, including the keyword
  backup verdict.
- `strings.dfy` (module `Strings`) models the JavaScript string operations these rely on:
  `trim`, ASCII `toLowerCase`, `includes` and `join`. It also has a one-character `Split`;
  the source never splits, and `Split` only serves to state that a newline-joined transcript
  reads back line by line.
- `wrappers.dfy` provides `Option` and `Result`. `Result` is `Ok(value) | Fail(reason)` and
  stands for a call that returns or throws.

Collaborators are not modelled. This covers the generative model, `fetch`, `JSON.parse`,
the clock, `uuidv4`, `localStorage` and the confirmation dialog. Their outcomes are
parameters instead:
- a turn takes a `TurnEnv`: two timestamps plus a `Result` from each of the three
  collaborators;
- end engagement takes the notes `Result` and a `Submission`: accepted, rejected with a
  message or status text, or thrown;
- reset takes the user's confirmation and a fresh id.

At the service level, a generative call is a `Generation`: a text, no text, or a thrown
error. The JSON parse of that text is a `Parse`. `DEFAULT_NON_SCAM_REPLY` lives in a
constants file that is not part of this model, so the class takes it as the constant
`nonScamReply`. The prompt preambles from that file are parameters, for the same reason.

The model follows the code where it departs from what one might expect:
- **Failed turns.** A turn whose collaborator throws records nothing at all, not even the
  inbound message (App.tsx:120-124).
- **Intelligence.** Lists are replaced wholesale by each extraction result and are never
  deduplicated (App.tsx:106,116). The extraction service returns empty lists when its call
  yields nothing usable. For a flagged session, that empty result then replaces whatever
  was stored (`AppProperties.ServiceTurnOutcome`).
- **Notes.** A failed notes call yields the fixed text "Failed to generate agent notes.".
  That text is stored and submitted like any other notes.
- **Completed sessions.** The message handler does not refuse a completed session. Only the
  disabled chat input does (App.tsx:224). This is `App.HoneypotApp.SendMessage` with
  `InputAccepts`.
- **Status values.** There is no separate "finalizing" status. The status is set to
  `completed` before the submission and reverts to `active` when the submission fails
  (App.tsx:150-154, 175).
- **API key.** In `api/detect.js` a missing key and a wrong key get the same 401.
- **Empty text.** `api/detect.js` answers missing or empty text with a 400.

## Model

| member | source | states |
|---|---|---|
| `App.NewSession` | App.tsx:52-61 | a new session has the given id, empty history, flag unset, zero turns, all five intelligence lists empty, empty notes, null scam type, status active, and satisfies the session invariant |
| `App.LoadSession` | App.tsx:44-50 | loading keeps id, history, flag and counter. Missing intelligence becomes empty. A missing or empty scam type becomes null. Missing notes become "". A missing status becomes active |
| `Types.EmptyIntelligence` | App.tsx:30-36 | all five intelligence categories are empty lists |
| `App.SaveSession` | App.tsx:67-69 | the persisted record holds every field of the session: id, history, flag, counter and scam type as they are, and intelligence, notes and status present with the session's values |
| `App.SubmissionFailure` | App.tsx:164-166 | a rejected submission is reported under the fixed prefix, with the body's message when present and non-empty and the status text otherwise; a thrown error keeps its own message |
| `App.LoadSavedSession` | App.tsx:44-50 | reloading a saved session gives it back exactly when its scam type is not the empty string |
| `App.ProcessMessage` | App.tsx:71-129 | the turn fails exactly when the collaborator it calls throws. A failure leaves the session unchanged, answers the fixed internal-error reply, and sets the error to `Failed to process message: ` followed by the first thrown reason. Its `scamDetected` is the flag as far as the turn got: the old flag, or the fresh detection verdict. A success appends exactly the scammer's text and then the reply, and adds 2 to the counter. Once flagged, the engagement reply is used and flag and type stay. Otherwise the detection verdict sets flag and type and picks `initialReply` or the neutral reply. Intelligence is replaced by the extraction result only when the new flag is set |
| `App.EndEngagement` | App.tsx:131-179 | a completed or loading session changes nothing and sends nothing. Otherwise a payload projecting id, flag, counter, intelligence and the new notes is sent exactly when the notes were produced. Only notes and status change. The session ends completed exactly after an accepted submission; a failure reverts it to active and keeps the notes. The error is `Failed to submit final results: ` followed by the notes call's reason or by the submission failure message |
| `App.ResetSession` | App.tsx:181-199 | ignored while loading or without confirmation. Otherwise installs an empty session under the fresh id and clears the error: no history, zero turns, flag unset, empty intelligence, empty notes, null scam type, status active |
| `App.HoneypotApp.constructor` | App.tsx:39-64 | the initial state is the normalised stored session, or a new one; not loading, no error |
| `App.HoneypotApp.HandleIncomingMessage` | App.tsx:71-129 | the session, response and error after the handler are those of `ProcessMessage`; loading is cleared |
| `App.HoneypotApp.HandleEndEngagement` | App.tsx:131-179 | the session, loading flag, error and posted payload are those of `EndEngagement` |
| `App.HoneypotApp.HandleResetSession` | App.tsx:181-199 | the session and error are those of `ResetSession`; the session id changes exactly when the reset happens |
| `App.HoneypotApp.SendMessage` | components/ChatInput.tsx:11-17 | a blank message, or input while loading or in a completed session, changes nothing. Otherwise the untrimmed text goes through the message handler |
| `AppProperties.FlaggedIgnoresDetection` | App.tsx:86-95 | once the flag is set, the detection result has no influence on the turn |
| `AppProperties.ProcessMessageKeepsConsistent` | App.tsx:80-116 | a turn preserves the invariant: counter equals history length, even length, scammer and honeypot alternate, and no intelligence is held before detection |
| `AppProperties.RunKeepsConsistent` | App.tsx:80-116 | the invariant holds after any run of messages and end-engagement clicks |
| `AppProperties.RunKeepsScamFlag` | App.tsx:75-113 | over any run, a set scam flag stays set |
| `AppProperties.RunExtendsHistory` | App.tsx:80-112 | over any run, the old history is a prefix of the new one, and the session id is kept |
| `AppProperties.AnsweredTurnsCountTwice` | App.tsx:115 | N turns whose collaborators all answered add exactly 2N to the counter and 2N entries to the history |
| `AppProperties.NewSessionCountsTwicePerTurn` | App.tsx:115 | from a new session, N answered turns leave the counter at 2N |
| `AppProperties.CompletedSendsNothing` | App.tsx:132 | a completed session stays completed and posts no report, whatever events follow |
| `AppProperties.AcceptedSubmissionIsTheLast` | App.tsx:132-154 | an accepted end engagement on an active session, followed by any events, posts exactly that one report |
| `AppProperties.RetryAfterFailedSubmission` | App.tsx:170-175 | after a failed submission the session is active with the new notes. A second click submits again and completes it |
| `AppProperties.ServiceTurnOutcome` | App.tsx:85-107 | with the service fallbacks, a turn fails exactly when the API key is missing. An engaged turn records a non-empty reply. A detection call that threw, gave empty text or gave unparsable JSON reads as not-a-scam with the neutral reply. For a turn that ends flagged (including the one that first flags it), an extraction call that threw, gave empty text or gave unparsable JSON empties stored intelligence |
| `AppProperties.ServiceNotesOutcome` | App.tsx:137-139 | with the notes service, a click that passes the gate posts a report exactly when the API key is configured, with non-empty notes. Without the key only the status is set back to active |
| `GeminiService.Encode` | services/geminiService.ts:18-23 | the intermediate string has one character per input byte, whose code equals that byte |
| `GeminiService.FormatConversationHistory` | services/geminiService.ts:28-33 | output has the same length and order as the history. Each entry has one part holding the original text. The role is `user` exactly when the sender is the scammer |
| `GeminiService.TranscriptLines` | services/geminiService.ts:54 | one line per message, in order, reading `label: text`; the label is the role name, or `Scammer`/`You` for the agent prompt |
| `GeminiService.Transcript` | services/geminiService.ts:54 | the newline join of the transcript lines: empty for an empty history; for a non-empty history with no line break in any text, splitting it at newlines gives back exactly the lines |
| `GeminiService.HistoryTranscriptLines` | services/geminiService.ts:101 | when no text contains a line break, splitting the rendered transcript at newlines gives back one `label: text` line per message |
| `GeminiService.DetectionPrompt` | services/geminiService.ts:50-56 | the detection prompt contains the current message and the role-named transcript |
| `GeminiService.AgentPrompt` | services/geminiService.ts:98-103 | the agent prompt contains the `Scammer`/`You` transcript |
| `GeminiService.ExtractionPrompt` | services/geminiService.ts:135-140 | the extraction prompt contains the role-named transcript |
| `GeminiService.NotesPrompt` | services/geminiService.ts:192-197 | the notes prompt contains the role-named transcript |
| `GeminiService.GetGenAI` | services/geminiService.ts:36-41 | a client is returned exactly when the key is set and non-empty; otherwise the fixed error is raised |
| `GeminiService.DetectScamIntent` | services/geminiService.ts:43-87 | raises exactly when the key is missing. An empty text, a failed call or unparsable JSON give `isScam` false, null type and the fixed clarification reply. Otherwise the result is the parsed value |
| `GeminiService.GenerateAgentResponse` | services/geminiService.ts:89-127 | raises exactly when the key is missing. Otherwise the reply is the trimmed text, or the fixed fallback when that is empty or the call failed, and is never empty |
| `GeminiService.ExtractIntelligence` | services/geminiService.ts:129-184 | raises exactly when the key is missing. An empty text, a failed call or unparsable JSON give all five categories as empty lists. Otherwise the result is the parsed value |
| `GeminiService.GenerateAgentNotes` | services/geminiService.ts:186-216 | raises exactly when the key is missing. Otherwise the notes are the trimmed text, or the fixed fallback, and are never empty |
| `Detect.Handler` | api/detect.js:1-82 | 405 exactly for methods other than GET and POST. GET gets the health answer. POST gets 401 exactly when `x-api-key` is not `dev-key`, then 400 exactly when `text` is missing, empty or not a string, then 500 exactly when the model call threw. The error bodies are the fixed `Method not allowed`, `Unauthorized`, `Text is required` and `Failed to analyze text` (with the thrown message). The verdict echoes the text, has `scam` = (lower-cased AI text contains `true`) or the keyword verdict, and `aiResponse` = the AI text or "No response from AI" |
| `Detect.MissingKeyAsWrongKey` | api/detect.js:16-19 | a missing key and any wrong key get the same 401, whatever the body |
| `Detect.KeywordForcesScam` | api/detect.js:66-71 | a keyword in the text forces `scam: true` whatever the model answered |
| `Detect.FallbackScamIffKeywordMatches` | api/detect.js:66 | the backup verdict holds exactly when one of `otp`, `upi`, `blocked`, `kyc`, `urgent`, `bank` matches the text case-insensitively at some position |
| `Strings.Trim` | services/geminiService.ts:76 | the result is a contiguous piece of the input with no white space at either end, and is empty exactly when the input is all white space |
| `Strings.TrimIdempotent` | services/geminiService.ts:118 | trimming twice is trimming once |
| `Strings.Lower` | api/detect.js:70 | one lower-cased character per input character |
| `Strings.ContainsAt` | api/detect.js:70 | `includes` holds exactly when the pattern occurs at some position |
| `Strings.SplitJoin` | services/geminiService.ts:54 | splitting a newline join gives back the lines when none contains a newline |

## Left out

- Generative model calls, `fetch`, `response.json()` and `JSON.parse` are foreign calls. Their outcomes are parameters. A parsed value is taken as it comes, without checking it against the declared type.
- `localStorage` reads, writes and removal, and JSON serialisation, are storage I/O. Loading is modelled only as `LoadSession` on a record whose non-defaulted fields are present.
- `uuidv4`, `Date.now` and `btoa` are foreign or nondeterministic. Ids and timestamps are parameters. The base64 step after `encode`'s loop is not modelled.
- `window.confirm`, `alert`, `console.error` and the `setError` banner's display are UI I/O. The confirmation is a boolean.
- React's asynchronous interleaving, `useCallback` dependency staleness and functional `setSession` updates are concurrency concerns. Each handler is one sequential step. `AppProperties.Run` starts each call with nothing loading and does not carry the error banner, which never influences the session.
- The rendering components are presentation only. The chat input's send guard is folded into `App.HoneypotApp.SendMessage`.
- The prompt preambles, `DEFAULT_NON_SCAM_REPLY`, the default persona and the model name `GEMINI_MODEL_TEXT_TASK` come from a constants file that is not part of this model. They are parameters or are omitted. The generation settings written inline at services/geminiService.ts:110-115 (temperature, topP, topK, token and thinking budgets) only shape the model's answer, which is a parameter, so they are omitted too.
- `IncomingMessagePayload` is not used by the modelled handlers, and the persona argument of `generateAgentResponse` only feeds the system instruction, which is not modelled.
- Strings.Lower: only ASCII letters are lowered, so Unicode case folding in `toLowerCase` and the `/i` flag is not modelled.
- Strings.Trim: the white-space set is ASCII white space, the line terminators, no-break space and the byte order mark. It omits the other Unicode space separators.
- Detect.Handler: an `x-api-key` header given as a list, and a model answer text that is not a string, are not modelled. Both are treated as strings.
