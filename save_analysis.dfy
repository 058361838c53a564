/** The save-analysis-post-payment edge function
    (supabase/functions/save-analysis-post-payment/index.ts): after payment the
    browser hands over the anonymous analysis it kept; the function stores the
    image under the caller's folder and inserts a row owned by the caller.
    Everything outside the handler is an input: the auth service (a map from
    token to user id), the parsed body (None when `req.json()` throws),
    whether `atob` accepts the base64 text, the storage upload's outcome, the
    bucket's public URL prefix, the insert's outcome and `Date.now()`. */
module SaveAnalysisPostPayment {
  import opened Strings
  import opened AnalysisTypes
  import opened EdgeRequest

  /** The row handed to `.insert(...)` on the `analyses` table. */
  datatype NewRow = NewRow(
    userId: string,
    imageUrl: string,
    analysisData: Analysis,
    expiresAt: Option<int>)

  /** The side effects the handler attempted: the storage path it uploaded
      to and the row it inserted, each None when it never got that far. */
  datatype Effects = Effects(uploaded: Option<string>, inserted: Option<NewRow>)

  const NO_EFFECTS := Effects(None, None)

  datatype Outcome = Outcome(response: Response<SaveResult>, effects: Effects)

  /** The storage path `${user.id}/${Date.now()}.jpg`. */
  function FileName(userId: string, nowMs: nat): (r: string)
    ensures StartsWith(r, userId + "/")
    ensures '/' !in r[|userId| + 1..]
  {
    var stamp := NatToString(nowMs) + ".jpg";
    assert '/' !in stamp by {
      forall i | 0 <= i < |stamp| ensures stamp[i] != '/' {
        if i < |NatToString(nowMs)| {
          assert IsDigit(NatToString(nowMs)[i]);
        }
      }
    }
    var r := userId + "/" + stamp;
    assert r[..|userId| + 1] == userId + "/";
    assert r[|userId| + 1..] == stamp;
    r
  }

  /** The required-field check `!tempAnalysisId || !analysisData || !imageData`.
      An analysis object is always truthy, so only its absence fails. */
  predicate HasRequiredFields(b: SaveBody) {
    Truthy(b.tempAnalysisId) && b.analysisData.Some? && Truthy(b.imageData)
  }

  function InternalError(): Outcome {
    Outcome(Error(500, "Internal server error", None), NO_EFFECTS)
  }

  /** The handler. Anything that throws inside the `try` (an unparseable body,
      `atob` rejecting its argument, including `atob(undefined)` when the data
      URL holds no comma) becomes the catch-all 500. */
  function Handle(
    req: Request,
    users: map<string, string>,
    body: Option<SaveBody>,
    atobAccepts: string -> bool,
    uploadOk: bool,
    publicUrlPrefix: string,
    insertedId: Option<string>,
    nowMs: nat): (r: Outcome)
    ensures req.httpMethod == "OPTIONS" ==> r == Outcome(Preflight, NO_EFFECTS)
    ensures req.httpMethod != "OPTIONS" && req.httpMethod != "POST" ==>
      r.response.Status() == 405 && r.effects == NO_EFFECTS
    ensures req.httpMethod == "POST" && !Truthy(req.authorization) ==>
      r.response == Error(401, "Authorization header required", None) && r.effects == NO_EFFECTS
    ensures r.effects.uploaded.Some? ==>
      && req.httpMethod == "POST" && Truthy(req.authorization)
      && Caller(req.authorization.value, users).Some?
      && body.Some? && HasRequiredFields(body.value)
      && r.effects.uploaded.value == FileName(Caller(req.authorization.value, users).value, nowMs)
    ensures r.effects.inserted.Some? ==>
      && r.effects.uploaded.Some? && uploadOk
      && r.effects.inserted.value == NewRow(
           Caller(req.authorization.value, users).value,
           publicUrlPrefix + r.effects.uploaded.value,
           body.value.analysisData.value,
           body.value.expiresAt)
    ensures r.response.Ok? ==>
      && r.effects.inserted.Some? && insertedId.Some?
      && r.response.payload == SaveResult(insertedId.value, r.effects.inserted.value.imageUrl)
  {
    if req.httpMethod == "OPTIONS" then Outcome(Preflight, NO_EFFECTS)
    else if req.httpMethod != "POST" then Outcome(Error(405, "Method not allowed", None), NO_EFFECTS)
    else if !Truthy(req.authorization) then
      Outcome(Error(401, "Authorization header required", None), NO_EFFECTS)
    else
      match Caller(req.authorization.value, users)
      case None => Outcome(Error(401, "Invalid authentication token", None), NO_EFFECTS)
      case Some(userId) =>
        match body
        case None => InternalError()
        case Some(b) =>
          if !HasRequiredFields(b) then Outcome(Error(400, "Missing required data", None), NO_EFFECTS)
          else
            match SecondField(b.imageData.value, ',')
            case None => InternalError()
            case Some(encoded) =>
              if !atobAccepts(encoded) then InternalError()
              else
                var fileName := FileName(userId, nowMs);
                if !uploadOk then
                  Outcome(Error(500, "Failed to upload image", None), Effects(Some(fileName), None))
                else
                  var publicUrl := publicUrlPrefix + fileName;
                  var row := NewRow(userId, publicUrl, b.analysisData.value, b.expiresAt);
                  match insertedId
                  case None =>
                    Outcome(Error(500, "Failed to save analysis", None), Effects(Some(fileName), Some(row)))
                  case Some(id) =>
                    Outcome(Ok(SaveResult(id, publicUrl)), Effects(Some(fileName), Some(row)))
  }

  /** The caller is authenticated before the body is read: an unknown token
      is refused with 401 whatever the body, even one that does not parse. */
  lemma AuthBeforeBody(req: Request, users: map<string, string>, body: Option<SaveBody>,
                       atobAccepts: string -> bool, uploadOk: bool, publicUrlPrefix: string,
                       insertedId: Option<string>, nowMs: nat)
    requires req.httpMethod == "POST" && Truthy(req.authorization)
    requires BearerToken(req.authorization.value) !in users
    ensures Handle(req, users, body, atobAccepts, uploadOk, publicUrlPrefix, insertedId, nowMs)
      == Outcome(Error(401, "Invalid authentication token", None), NO_EFFECTS)
  {
  }

  /** The guards a request has passed once its body is read. */
  predicate Authenticated(req: Request, users: map<string, string>) {
    req.httpMethod == "POST" && Truthy(req.authorization)
    && Caller(req.authorization.value, users).Some?
  }

  /** A missing or empty temp id, a missing analysis or a missing or empty
      image is refused with 400 before anything is uploaded or inserted. */
  lemma MissingFieldRefused(req: Request, users: map<string, string>, b: SaveBody,
                            atobAccepts: string -> bool, uploadOk: bool, publicUrlPrefix: string,
                            insertedId: Option<string>, nowMs: nat)
    requires Authenticated(req, users)
    requires !Truthy(b.tempAnalysisId) || b.analysisData.None? || !Truthy(b.imageData)
    ensures Handle(req, users, Some(b), atobAccepts, uploadOk, publicUrlPrefix, insertedId, nowMs)
      == Outcome(Error(400, "Missing required data", None), NO_EFFECTS)
  {
  }

  /** `expiresAt` is not required: a body without it is saved, and the row
      carries it as absent. */
  lemma ExpiresAtNotRequired(req: Request, users: map<string, string>, tempId: string,
                             analysis: Analysis, imageData: string, atobAccepts: string -> bool,
                             publicUrlPrefix: string, id: string, nowMs: nat)
    requires Authenticated(req, users)
    requires tempId != "" && SecondField(imageData, ',').Some?
    requires atobAccepts(SecondField(imageData, ',').value)
    ensures
      var r := Handle(req, users, Some(SaveBody(Some(tempId), Some(analysis), Some(imageData), None)),
                      atobAccepts, true, publicUrlPrefix, Some(id), nowMs);
      && r.response.Ok? && r.response.payload.analysisId == id
      && r.effects.inserted.Some? && r.effects.inserted.value.expiresAt == None
  {
    assert imageData != "" by { assert ',' in imageData; }
  }

  /** A data URL with no comma has no base64 part: `atob(undefined)` throws
      and the answer is the catch-all 500, with nothing uploaded. */
  lemma NoCommaIsInternalError(req: Request, users: map<string, string>, b: SaveBody,
                               atobAccepts: string -> bool, uploadOk: bool, publicUrlPrefix: string,
                               insertedId: Option<string>, nowMs: nat)
    requires Authenticated(req, users) && HasRequiredFields(b)
    requires ',' !in b.imageData.value
    ensures Handle(req, users, Some(b), atobAccepts, uploadOk, publicUrlPrefix, insertedId, nowMs)
      == InternalError()
  {
  }

  /** The upload lands in the caller's own folder: the path starts with the
      caller's id and a '/', and what follows holds no further '/'; read back
      with the last-segment rule it is the time stamp file name. */
  lemma {:induction false} UploadInCallersFolder(userId: string, nowMs: nat)
    ensures StartsWith(FileName(userId, nowMs), userId + "/")
    ensures '/' !in userId ==> LastSegment(FileName(userId, nowMs)) == NatToString(nowMs) + ".jpg"
  {
    var stamp := NatToString(nowMs) + ".jpg";
    assert FileName(userId, nowMs) == userId + "/" + stamp;
    assert FileName(userId, nowMs)[|userId| + 1..] == stamp;
    if '/' !in userId {
      LastSegmentOfJoin(userId, stamp);
    }
  }

  /** A failed upload answers 500 and no row is inserted. */
  lemma UploadFailureInsertsNothing(req: Request, users: map<string, string>, body: Option<SaveBody>,
                                    atobAccepts: string -> bool, publicUrlPrefix: string,
                                    insertedId: Option<string>, nowMs: nat)
    ensures
      var r := Handle(req, users, body, atobAccepts, false, publicUrlPrefix, insertedId, nowMs);
      r.effects.inserted == None && (r.effects.uploaded.Some? ==> r.response == Error(500, "Failed to upload image", None))
  {
  }

  /** A failed insert answers 500 although the image is already stored; a
      successful one returns the new row's id and the image's public URL. */
  lemma InsertOutcome(req: Request, users: map<string, string>, b: SaveBody,
                      atobAccepts: string -> bool, publicUrlPrefix: string,
                      insertedId: Option<string>, nowMs: nat)
    requires Authenticated(req, users) && HasRequiredFields(b)
    requires SecondField(b.imageData.value, ',').Some? && atobAccepts(SecondField(b.imageData.value, ',').value)
    ensures
      var r := Handle(req, users, Some(b), atobAccepts, true, publicUrlPrefix, insertedId, nowMs);
      var fileName := FileName(Caller(req.authorization.value, users).value, nowMs);
      && r.effects.uploaded == Some(fileName)
      && (insertedId.None? ==> r.response == Error(500, "Failed to save analysis", None))
      && (insertedId.Some? ==> r.response == Ok(SaveResult(insertedId.value, publicUrlPrefix + fileName)))
  {
  }
}
