/** The analyze-photo edge function (supabase/functions/analyze-photo/index.ts):
    face detection by Google Vision, a wellness analysis by a language model,
    and the anonymous result handed back with a temporary id and a one-hour
    expiry. The environment's API keys, the parsed body, the two services'
    replies, `JSON.parse` of the model's text, `crypto.randomUUID()` and the
    clock are inputs. A thrown error is caught by the handler and answered
    with 500 and its message. */
module AnalyzePhoto {
  import opened Strings
  import opened AnalysisTypes

  const TEMP_ID_PREFIX := "temp_"
  const ONE_HOUR_MS := 3600000

  /** `generateTempId`: the prefix followed by a random UUID. */
  function GenerateTempId(uuid: string): (r: string)
    ensures StartsWith(r, TEMP_ID_PREFIX)
    ensures r[|TEMP_ID_PREFIX|..] == uuid
  {
    var r := TEMP_ID_PREFIX + uuid;
    assert r[..|TEMP_ID_PREFIX|] == TEMP_ID_PREFIX;
    r
  }

  // ---------------------------------------------------------------------------
  // Face summary

  /** One face annotation. The detection confidence is carried as the text
      `(c * 100).toFixed(1)` prints; each likelihood may be missing. */
  datatype Face = Face(
    confidenceText: string,
    joy: Option<string>,
    sorrow: Option<string>,
    anger: Option<string>,
    surprise: Option<string>,
    underExposed: Option<string>,
    blurred: Option<string>,
    headwear: Option<string>)

  const NO_FACE := "No face detected in the image."
  const FACE_HEADER := "Face detected with the following characteristics:\n"

  /** `value || 'UNKNOWN'`. */
  function Likelihood(value: Option<string>): (r: string)
    ensures Truthy(value) ==> r == value.value
    ensures !Truthy(value) ==> r == "UNKNOWN"
  {
    if Truthy(value) then value.value else "UNKNOWN"
  }

  /** The eight lines under the header, one per field of the face. */
  function FaceLines(face: Face): string {
    "- Detection confidence: " + face.confidenceText + "%\n"
    + "- Joy likelihood: " + Likelihood(face.joy) + "\n"
    + "- Sorrow likelihood: " + Likelihood(face.sorrow) + "\n"
    + "- Anger likelihood: " + Likelihood(face.anger) + "\n"
    + "- Surprise likelihood: " + Likelihood(face.surprise) + "\n"
    + "- Under-exposed likelihood: " + Likelihood(face.underExposed) + "\n"
    + "- Blurred likelihood: " + Likelihood(face.blurred) + "\n"
    + "- Headwear likelihood: " + Likelihood(face.headwear)
  }

  /** The report on one face: the header, then its lines. */
  function FaceReport(face: Face): (r: string)
    ensures StartsWith(r, FACE_HEADER)
  {
    var lines := FaceLines(face);
    assert (FACE_HEADER + lines)[..|FACE_HEADER|] == FACE_HEADER;
    FACE_HEADER + lines
  }

  /** The `faceData` text of the prompt: the fallback sentence unless Vision
      returned at least one face, and then a report on the first face only. */
  function FaceData(faces: Option<seq<Face>>): (r: string)
    ensures faces.None? || |faces.value| == 0 ==> r == NO_FACE
    ensures faces.Some? && |faces.value| > 0 ==> r == FaceReport(faces.value[0])
  {
    if faces.Some? && |faces.value| > 0 then FaceReport(faces.value[0]) else NO_FACE
  }

  /** The fallback sentence is never mistaken for a report: the text is the
      fallback exactly when Vision found no face. */
  lemma NoFaceIffFallback(faces: Option<seq<Face>>)
    ensures FaceData(faces) == NO_FACE <==> faces.None? || |faces.value| == 0
  {
    if faces.Some? && |faces.value| > 0 {
      var r := FaceReport(faces.value[0]);
      assert |r| >= |FACE_HEADER| > |NO_FACE|;
    }
  }

  /** Faces after the first one do not change the prompt. */
  lemma OnlyFirstFaceUsed(first: Face, others: seq<Face>)
    ensures FaceData(Some([first] + others)) == FaceData(Some([first]))
  {
  }

  // ---------------------------------------------------------------------------
  // JSON span extraction

  /** `i` is the first '{' and `j` the last '}' of `text`, with `i < j`. */
  predicate IsGreedySpan(text: string, i: nat, j: nat) {
    i < j < |text| && text[i] == '{' && text[j] == '}'
    && (forall k :: 0 <= k < i ==> text[k] != '{')
    && (forall k :: j < k < |text| ==> text[k] != '}')
  }

  /** `text.match(/\{[\s\S]*\}/)`: the leftmost match starts at the first '{'
      and, the star being greedy, ends at the last '}'. There is no match
      when no '}' follows the first '{'. */
  function ExtractJsonSpan(text: string): (r: Option<string>)
    ensures r.Some? <==> exists i, j :: 0 <= i < j < |text| && text[i] == '{' && text[j] == '}'
    ensures r.Some? ==> exists i: nat, j: nat :: IsGreedySpan(text, i, j) && r.value == text[i..j + 1]
  {
    match IndexOfChar(text, '{')
    case None => None
    case Some(i) =>
      match LastIndexOfChar(text, '}')
      case None => None
      case Some(j) =>
        if j <= i then None
        else
          assert IsGreedySpan(text, i, j);
          Some(text[i..j + 1])
  }

  /** An object between prose that holds no braces is cut out exactly. */
  lemma {:induction false} ExtractsEmbeddedObject(before: string, obj: string, after: string)
    requires '{' !in before && '}' !in after
    requires |obj| >= 2 && obj[0] == '{' && obj[|obj| - 1] == '}'
    ensures ExtractJsonSpan(before + obj + after) == Some(obj)
  {
    var text := before + obj + after;
    var i := |before|;
    var j := |before| + |obj| - 1;
    assert text[i] == '{' && text[j] == '}';
    assert forall k :: 0 <= k < i ==> text[k] == before[k];
    assert forall k :: j < k < |text| ==> text[k] == after[k - j - 1];
    assert IndexOfChar(text, '{') == Some(i);
    assert LastIndexOfChar(text, '}') == Some(j);
    assert text[i..j + 1] == obj;
  }

  /** The match is greedy: with two objects it spans both and the text
      between them, which JSON.parse then rejects. */
  lemma GreedyOverTwoObjects()
    ensures ExtractJsonSpan("a{}b{}c") == Some("{}b{}")
  {
    var text := "a{}b{}c";
    assert IndexOfChar(text, '{') == Some(1) by {
      assert text[0] != '{' && text[1] == '{';
    }
    assert LastIndexOfChar(text, '}') == Some(5) by {
      assert text[6] != '}' && text[5] == '}';
    }
    assert text[1..6] == "{}b{}";
  }

  // ---------------------------------------------------------------------------
  // generateWellnessInsights

  /** What the chat-completion call gave: a reply whose first choice may
      carry content, a non-OK status whose JSON may carry
      `error.message`, or an exception with its message. */
  datatype LlmReply = LlmOk(content: Option<string>) | LlmHttpError(errorMessage: Option<string>) | LlmThrown(thrown: string)

  datatype Insights = Insights(analysis: Analysis) | InsightsError(message: string)

  /** `generateWellnessInsights`: `llm` answers the prompt built from the face
      text and the image; `parse` is `JSON.parse` of the extracted span. A
      missing span and an unparseable one raise the same error, because the
      inner catch re-throws every parse failure under one message. */
  function GenerateInsights(
    faces: Option<seq<Face>>,
    imageBase64: string,
    openaiKey: Option<string>,
    llm: (string, string) -> LlmReply,
    parse: string -> Option<Analysis>): (r: Insights)
    ensures !Truthy(openaiKey) ==> r == InsightsError("OpenAI API key not configured")
    ensures r.Insights? ==>
      && Truthy(openaiKey)
      && var reply := llm(FaceData(faces), imageBase64);
         reply.LlmOk? && Truthy(reply.content)
         && ExtractJsonSpan(reply.content.value).Some?
         && parse(ExtractJsonSpan(reply.content.value).value) == Some(r.analysis)
  {
    if !Truthy(openaiKey) then InsightsError("OpenAI API key not configured")
    else
      match llm(FaceData(faces), imageBase64)
      case LlmThrown(thrown) => InsightsError(thrown)
      case LlmHttpError(errorMessage) =>
        InsightsError("OpenAI API error: " + (if Truthy(errorMessage) then errorMessage.value else "Unknown error"))
      case LlmOk(content) =>
        if !Truthy(content) then InsightsError("No analysis content received from OpenAI")
        else
          match ExtractJsonSpan(content.value)
          case None => InsightsError("Failed to parse analysis results")
          case Some(span) =>
            match parse(span)
            case None => InsightsError("Failed to parse analysis results")
            case Some(a) => Insights(a)
  }

  /** A reply with no braces at all fails as unparseable, whatever `parse`
      would have said. */
  lemma NoBracesIsParseFailure(faces: Option<seq<Face>>, imageBase64: string, openaiKey: Option<string>,
                               llm: (string, string) -> LlmReply, parse: string -> Option<Analysis>)
    requires Truthy(openaiKey)
    requires llm(FaceData(faces), imageBase64).LlmOk?
    requires Truthy(llm(FaceData(faces), imageBase64).content)
    requires '}' !in llm(FaceData(faces), imageBase64).content.value
    ensures GenerateInsights(faces, imageBase64, openaiKey, llm, parse)
      == InsightsError("Failed to parse analysis results")
  {
  }

  // ---------------------------------------------------------------------------
  // The handler

  /** A step that either gave a value or threw an error with a message. */
  datatype Parsed<T> = Parsed(value: T) | Thrown(message: string)

  /** What the Vision call gave: OK with the first response's face
      annotations (None when absent), a non-OK status with the body text, or
      an exception with its message. */
  datatype VisionReply = VisionOk(faces: Option<seq<Face>>) | VisionHttpError(status: int, text: string) | VisionThrown(message: string)

  /** The catch-all answer to a thrown error. */
  function InternalError(message: string): Response<AnalysisResult> {
    Error(500, "Internal server error", Some(message))
  }

  /** `expiresAt.setHours(expiresAt.getHours() + 1)`, read as one hour later. */
  function ExpiresAt(nowMs: int): (r: int)
    ensures r - nowMs == ONE_HOUR_MS
  {
    nowMs + ONE_HOUR_MS
  }

  /** The guards before the body is read: both keys configured and a POST. */
  predicate Configured(googleKey: Option<string>, openaiKey: Option<string>) {
    Truthy(googleKey) && Truthy(openaiKey)
  }

  function Handle(
    httpMethod: string,
    googleKey: Option<string>,
    openaiKey: Option<string>,
    body: Parsed<Option<string>>,
    uuid: string,
    vision: VisionReply,
    llm: (string, string) -> LlmReply,
    parse: string -> Option<Analysis>,
    nowMs: int): (r: Response<AnalysisResult>)
    ensures !Truthy(googleKey) ==> r == Error(500, "Google Vision API key not configured", None)
    ensures Truthy(googleKey) && !Truthy(openaiKey) ==> r == Error(500, "OpenAI API key not configured", None)
    ensures Configured(googleKey, openaiKey) && httpMethod == "OPTIONS" ==> r == Preflight
    ensures Configured(googleKey, openaiKey) && httpMethod != "OPTIONS" && httpMethod != "POST" ==>
      r == Error(405, "Method not allowed", None)
    ensures Configured(googleKey, openaiKey) && httpMethod == "POST" && body.Thrown? ==>
      r == InternalError(body.message)
    ensures Configured(googleKey, openaiKey) && httpMethod == "POST" && body.Parsed? && !Truthy(body.value) ==>
      r == Error(400, "Image data is required", None)
    ensures r.Ok? ==>
      && Configured(googleKey, openaiKey) && httpMethod == "POST"
      && body.Parsed? && Truthy(body.value)
      && Truthy(SecondField(body.value.value, ','))
      && StartsWith(r.payload.tempAnalysisId, TEMP_ID_PREFIX)
      && r.payload.expiresAt == nowMs + ONE_HOUR_MS
      && r.payload.perceivedAge == r.payload.fullAnalysisData.perceivedAge
      && r.payload.previewInsights == r.payload.fullAnalysisData.previewInsights
      && r.payload.imageData == body.value.value
  {
    if !Truthy(googleKey) then Error(500, "Google Vision API key not configured", None)
    else if !Truthy(openaiKey) then Error(500, "OpenAI API key not configured", None)
    else if httpMethod == "OPTIONS" then Preflight
    else if httpMethod != "POST" then Error(405, "Method not allowed", None)
    else
      match body
      case Thrown(message) => InternalError(message)
      case Parsed(imageData) =>
        if !Truthy(imageData) then Error(400, "Image data is required", None)
        else
          var tempAnalysisId := GenerateTempId(uuid);
          var base64Image := SecondField(imageData.value, ',');
          if !Truthy(base64Image) then Error(400, "Invalid image data format", None)
          else
            match vision
            case VisionThrown(message) => InternalError(message)
            case VisionHttpError(status, text) =>
              if status == 401 || status == 403 then
                Error(401, "Google Vision API authentication failed",
                      Some("Please check the Google Vision API key configuration"))
              else
                Error(500, "Failed to analyze image with Google Vision API",
                      Some("Google Vision API returned " + IntToString(status) + ": " + text))
            case VisionOk(faces) =>
              match GenerateInsights(faces, base64Image.value, openaiKey, llm, parse)
              case InsightsError(message) => InternalError(message)
              case Insights(a) =>
                Ok(AnalysisResult(tempAnalysisId, a.perceivedAge, a.previewInsights,
                                  ExpiresAt(nowMs), a, imageData.value))
  }

  /** The key checks come before the preflight: without the Vision key even
      an OPTIONS request gets 500. */
  lemma KeysCheckedBeforePreflight(googleKey: Option<string>, openaiKey: Option<string>,
                                   body: Parsed<Option<string>>, uuid: string, vision: VisionReply,
                                   llm: (string, string) -> LlmReply, parse: string -> Option<Analysis>,
                                   nowMs: int)
    requires !Configured(googleKey, openaiKey)
    ensures Handle("OPTIONS", googleKey, openaiKey, body, uuid, vision, llm, parse, nowMs).Status() == 500
  {
  }

  /** Image data with no comma, or nothing after its first comma, is refused
      as malformed before any service is called. */
  lemma MalformedImageRefused(httpMethod: string, googleKey: Option<string>, openaiKey: Option<string>,
                              imageData: string, uuid: string, vision: VisionReply,
                              llm: (string, string) -> LlmReply, parse: string -> Option<Analysis>,
                              nowMs: int)
    requires Configured(googleKey, openaiKey) && httpMethod == "POST" && imageData != ""
    requires ',' !in imageData || SecondField(imageData, ',') == Some("")
    ensures Handle(httpMethod, googleKey, openaiKey, Parsed(Some(imageData)), uuid, vision, llm, parse, nowMs)
      == Error(400, "Invalid image data format", None)
  {
  }

  /** The guards a request has passed once Vision is called. */
  predicate ReachesVision(httpMethod: string, googleKey: Option<string>, openaiKey: Option<string>,
                          body: Parsed<Option<string>>) {
    Configured(googleKey, openaiKey) && httpMethod == "POST"
    && body.Parsed? && Truthy(body.value) && Truthy(SecondField(body.value.value, ','))
  }

  /** A Vision error is answered 401 when Vision refused the key (401 or
      403) and 500 otherwise, with the status and text in the details. */
  lemma VisionErrorMapping(httpMethod: string, googleKey: Option<string>, openaiKey: Option<string>,
                           body: Parsed<Option<string>>, uuid: string, status: int, text: string,
                           llm: (string, string) -> LlmReply, parse: string -> Option<Analysis>,
                           nowMs: int)
    requires ReachesVision(httpMethod, googleKey, openaiKey, body)
    ensures
      var r := Handle(httpMethod, googleKey, openaiKey, body, uuid, VisionHttpError(status, text), llm, parse, nowMs);
      && (r.Status() == 401 <==> status == 401 || status == 403)
      && (status != 401 && status != 403 ==>
            r == Error(500, "Failed to analyze image with Google Vision API",
                       Some("Google Vision API returned " + IntToString(status) + ": " + text)))
  {
  }

  /** A successful request returns exactly the analysis the model produced,
      under a fresh temp id, expiring one hour after the request. */
  lemma SuccessShape(httpMethod: string, googleKey: Option<string>, openaiKey: Option<string>,
                     body: Parsed<Option<string>>, uuid: string, faces: Option<seq<Face>>,
                     llm: (string, string) -> LlmReply, parse: string -> Option<Analysis>,
                     nowMs: int, a: Analysis)
    requires ReachesVision(httpMethod, googleKey, openaiKey, body)
    requires GenerateInsights(faces, SecondField(body.value.value, ',').value, openaiKey, llm, parse) == Insights(a)
    ensures Handle(httpMethod, googleKey, openaiKey, body, uuid, VisionOk(faces), llm, parse, nowMs)
      == Ok(AnalysisResult("temp_" + uuid, a.perceivedAge, a.previewInsights, nowMs + 3600000, a, body.value.value))
  {
  }

  /** Every error raised while generating the insights reaches the client as
      a 500 carrying that error's message. */
  lemma InsightErrorsAreInternal(httpMethod: string, googleKey: Option<string>, openaiKey: Option<string>,
                                 body: Parsed<Option<string>>, uuid: string, faces: Option<seq<Face>>,
                                 llm: (string, string) -> LlmReply, parse: string -> Option<Analysis>,
                                 nowMs: int, message: string)
    requires ReachesVision(httpMethod, googleKey, openaiKey, body)
    requires GenerateInsights(faces, SecondField(body.value.value, ',').value, openaiKey, llm, parse)
      == InsightsError(message)
    ensures Handle(httpMethod, googleKey, openaiKey, body, uuid, VisionOk(faces), llm, parse, nowMs)
      == Error(500, "Internal server error", Some(message))
  {
  }
}
