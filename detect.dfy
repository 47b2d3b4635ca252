/** api/detect.js: the HTTP handler, a chain of guarded early returns that computes a status
    code and a JSON body from the request method, the `x-api-key` header, the body's `text`
    and the outcome of the call to the generative model. */
module Detect {
  import opened Wrappers
  import opened Strings

  const API_KEY := "dev-key"
  const HEALTH_MESSAGE := "Honeypot Scam Detector API is running"
  const NO_AI_RESPONSE := "No response from AI"
  /** The alternatives of the backup regular expression, all lower case. */
  const KEYWORDS: seq<string> := ["otp", "upi", "blocked", "kyc", "urgent", "bank"]

  /** The JSON value of the body's `text` field: absent, a string, or any other value. */
  datatype TextField = Absent | Text(s: string) | NotString

  datatype RequestBody = RequestBody(text: TextField)

  /** `verb` is `req.method`. */
  datatype Request = Request(verb: string, apiKey: Option<string>, body: Option<RequestBody>)

  /** What the model call produced: the text at `candidates[0].content.parts[0].text` if the
      path exists, or the message of the error thrown by `fetch` or `json()`. */
  datatype AiCall = AiReplied(candidateText: Option<string>) | AiThrew(message: string)

  datatype ResponseBody =
    | ErrorBody(error: string)
    | HealthBody(status: string, message: string)
    | VerdictBody(input: string, scam: bool, aiResponse: string)
    | FailureBody(error: string, details: string)

  datatype Response = Response(status: int, body: ResponseBody)

  /** `const { text } = req.body || {}`. */
  function RequestText(body: Option<RequestBody>): TextField {
    if body.None? then Absent else body.value.text
  }

  /** Passes `!text || typeof text !== "string"`: a non-empty string. */
  predicate ValidText(f: TextField) {
    f.Text? && f.s != ""
  }

  /** The model's answer, "" when the path is missing or empty. */
  function AiText(ai: AiCall): string {
    if ai.AiReplied? && ai.candidateText.Some? then ai.candidateText.value else ""
  }

  /** The backup verdict: the lower-cased text contains one of the keywords. */
  predicate FallbackScam(text: string) {
    exists k :: 0 <= k < |KEYWORDS| && Contains(Lower(text), KEYWORDS[k])
  }

  predicate Authorized(req: Request) {
    req.verb == "POST" && req.apiKey == Some(API_KEY)
  }

  function Handler(req: Request, ai: AiCall): (r: Response)
    ensures r.status == 405 <==> req.verb != "GET" && req.verb != "POST"
    ensures req.verb == "GET" ==> r == Response(200, HealthBody("ok", HEALTH_MESSAGE))
    ensures r.status == 401 <==> req.verb == "POST" && req.apiKey != Some(API_KEY)
    ensures r.status == 400 <==> Authorized(req) && !ValidText(RequestText(req.body))
    ensures r.status == 500 <==> Authorized(req) && ValidText(RequestText(req.body)) && ai.AiThrew?
    ensures r.status == 405 ==> r.body == ErrorBody("Method not allowed")
    ensures r.status == 401 ==> r.body == ErrorBody("Unauthorized")
    ensures r.status == 400 ==> r.body == ErrorBody("Text is required")
    ensures r.status == 500 ==> r.body == FailureBody("Failed to analyze text", ai.message)
    ensures r.body.VerdictBody? <==> Authorized(req) && ValidText(RequestText(req.body)) && ai.AiReplied?
    ensures r.body.VerdictBody? ==>
      && r.status == 200
      && r.body.input == RequestText(req.body).s
      && (r.body.scam <==> Contains(Lower(AiText(ai)), "true") || FallbackScam(r.body.input))
      && r.body.aiResponse == (if AiText(ai) == "" then NO_AI_RESPONSE else AiText(ai))
  {
    if req.verb != "GET" && req.verb != "POST" then
      Response(405, ErrorBody("Method not allowed"))
    else if req.verb == "GET" then
      Response(200, HealthBody("ok", HEALTH_MESSAGE))
    else if req.apiKey != Some(API_KEY) then
      Response(401, ErrorBody("Unauthorized"))
    else
      var text := RequestText(req.body);
      if !text.Text? || text.s == "" then
        Response(400, ErrorBody("Text is required"))
      else
        match ai
        case AiThrew(message) => Response(500, FailureBody("Failed to analyze text", message))
        case AiReplied(_) =>
          var aiText := AiText(ai);
          var fallbackScam := FallbackScam(text.s);
          Response(200, VerdictBody(text.s, Contains(Lower(aiText), "true") || fallbackScam,
                                    if aiText == "" then NO_AI_RESPONSE else aiText))
  }

  /** A missing key and a wrong key are answered alike, whatever the body. */
  lemma MissingKeyAsWrongKey(key: string, body: Option<RequestBody>, ai: AiCall)
    requires key != API_KEY
    ensures Handler(Request("POST", None, body), ai) == Handler(Request("POST", Some(key), body), ai)
    ensures Handler(Request("POST", None, body), ai) == Response(401, ErrorBody("Unauthorized"))
  {
  }

  /** A keyword in the text forces a `scam: true` verdict, whatever the model said. */
  lemma KeywordForcesScam(req: Request, text: string, ai: AiCall)
    requires Authorized(req) && req.body == Some(RequestBody(Text(text))) && text != ""
    requires ai.AiReplied? && FallbackScam(text)
    ensures Handler(req, ai).body.VerdictBody? && Handler(req, ai).body.scam
  {
  }

  /** Case-insensitive equality of a window of the text with a (lower-case) keyword. */
  predicate MatchesIgnoringCase(window: string, keyword: string) {
    |window| == |keyword| && forall j :: 0 <= j < |keyword| ==> LowerChar(window[j]) == keyword[j]
  }

  /** Keyword k of the backup regular expression matches the text at position i. */
  predicate KeywordAt(text: string, k: int, i: int) {
    0 <= k < |KEYWORDS| && 0 <= i <= |text| - |KEYWORDS[k]|
    && MatchesIgnoringCase(text[i..i + |KEYWORDS[k]|], KEYWORDS[k])
  }

  lemma LoweredWindow(text: string, keyword: string, i: int)
    ensures OccursAt(Lower(text), keyword, i) <==>
      0 <= i <= |text| - |keyword| && MatchesIgnoringCase(text[i..i + |keyword|], keyword)
  {
    WindowOfLowered(text, Lower(text), keyword, i);
  }

  lemma WindowOfLowered(text: string, low: string, keyword: string, i: int)
    requires |low| == |text| && forall j :: 0 <= j < |text| ==> low[j] == LowerChar(text[j])
    ensures OccursAt(low, keyword, i) <==>
      0 <= i <= |text| - |keyword| && MatchesIgnoringCase(text[i..i + |keyword|], keyword)
  {
    if 0 <= i <= |text| - |keyword| {
      var n := |keyword|;
      var lowered := low[i..i + n];
      var window := text[i..i + n];
      assert forall j :: 0 <= j < n ==> lowered[j] == LowerChar(window[j]);
      assert lowered == keyword <==> forall j :: 0 <= j < n ==> lowered[j] == keyword[j];
    }
  }

  /** The backup verdict holds exactly when some keyword matches the text, ignoring case,
      at some position: the meaning of `/otp|upi|blocked|kyc|urgent|bank/i.test(text)`. */
  lemma FallbackScamIffKeywordMatches(text: string)
    ensures FallbackScam(text) <==> exists k, i :: KeywordAt(text, k, i)
  {
    if FallbackScam(text) {
      var k :| 0 <= k < |KEYWORDS| && Contains(Lower(text), KEYWORDS[k]);
      ContainsAt(Lower(text), KEYWORDS[k]);
      var i :| OccursAt(Lower(text), KEYWORDS[k], i);
      LoweredWindow(text, KEYWORDS[k], i);
      assert KeywordAt(text, k, i);
    }
    if k, i :| KeywordAt(text, k, i) {
      LoweredWindow(text, KEYWORDS[k], i);
      ContainsAt(Lower(text), KEYWORDS[k]);
      assert Contains(Lower(text), KEYWORDS[k]);
    }
  }
}
