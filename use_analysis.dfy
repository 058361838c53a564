/** The `useAnalysis` hook (src/hooks/useAnalysis.ts): the browser's "claim
    ticket". An anonymous analysis is kept in session storage under one key,
    promoted to a server id under a second key once the user has paid and
    signed in, and both are removed at the end. Session storage is the
    `storage` field; each network call's result is a parameter, and so is
    the access token of the current session (None: signed out). */
module UseAnalysis {
  import opened Strings
  import opened AnalysisTypes
  import opened SessionCodec
  import opened EdgeRequest
  import SaveAnalysisPostPayment

  const TEMP_ANALYSIS_KEY := "glowguide_temp_analysis"
  const REAL_ANALYSIS_ID_KEY := "glowguide_real_analysis_id"

  const ANALYZE_FAILED := "Failed to analyze photo"
  const SAVE_FAILED := "Failed to save analysis"
  const REPORT_FAILED := "Failed to get full report"
  const REPORT_PATH := "/functions/v1/get-full-report/"

  /** How a `fetch` to an edge function ended: a 2xx with its JSON payload, a
      non-2xx whose JSON body may carry an `error` field, or a thrown error
      (network failure, unparseable body) with its message. */
  datatype FetchOutcome<T> = Fetched(value: T) | HttpError(errorField: Option<string>) | Thrown(message: string)

  /** The message the catch block stores: `errorData.error || fallback` for a
      non-2xx answer, the thrown error's own message otherwise. */
  function FailureMessage<T>(outcome: FetchOutcome<T>, fallback: string): (m: string)
    requires !outcome.Fetched?
    ensures outcome.HttpError? && Truthy(outcome.errorField) ==> m == outcome.errorField.value
    ensures outcome.HttpError? && !Truthy(outcome.errorField) ==> m == fallback
    ensures outcome.Thrown? ==> m == outcome.message
  {
    match outcome
    case HttpError(field) => if Truthy(field) then field.value else fallback
    case Thrown(message) => message
  }

  /** The request `saveAnalysisToDatabase` sends: its Authorization header and
      its JSON body. */
  datatype SaveRequest = SaveRequest(authorization: string, body: SaveBody)

  /** Session storage without the two keys of the hook. */
  function Cleared(m: map<string, string>): (r: map<string, string>)
    ensures TEMP_ANALYSIS_KEY !in r && REAL_ANALYSIS_ID_KEY !in r
    ensures forall k :: k != TEMP_ANALYSIS_KEY && k != REAL_ANALYSIS_ID_KEY ==>
      (k in r <==> k in m) && (k in r ==> r[k] == m[k])
  {
    m - {TEMP_ANALYSIS_KEY, REAL_ANALYSIS_ID_KEY}
  }

  /** Clearing twice is clearing once. */
  lemma ClearedIdempotent(m: map<string, string>)
    ensures Cleared(Cleared(m)) == Cleared(m)
  {
  }

  class AnalysisHook {
    var storage: map<string, string>
    var loading: bool
    var error: Option<string>

    /** The hook as a page load finds it: session storage as the tab left it. */
    constructor(initial: map<string, string>)
      ensures storage == initial && !loading && error == None
    {
      storage := initial;
      loading := false;
      error := None;
    }

    /** `getTempAnalysis`: the stored analysis, or None when the key is
        absent, empty or does not parse. */
    function GetTempAnalysis(): (r: Option<AnalysisResult>)
      reads this
      ensures TEMP_ANALYSIS_KEY !in storage || storage[TEMP_ANALYSIS_KEY] == "" ==> r.None?
      ensures TEMP_ANALYSIS_KEY in storage && storage[TEMP_ANALYSIS_KEY] != "" ==>
        r == Decode(storage[TEMP_ANALYSIS_KEY])
    {
      if TEMP_ANALYSIS_KEY in storage && storage[TEMP_ANALYSIS_KEY] != "" then
        Decode(storage[TEMP_ANALYSIS_KEY])
      else None
    }

    /** The id `getFullReport` asks for: a non-empty explicit id, else the
        stored real id when it is non-empty, else none. */
    function TargetAnalysisId(analysisId: Option<string>): (r: Option<string>)
      reads this
      ensures Truthy(analysisId) ==> r == analysisId
      ensures !Truthy(analysisId) && REAL_ANALYSIS_ID_KEY in storage && storage[REAL_ANALYSIS_ID_KEY] != "" ==>
        r == Some(storage[REAL_ANALYSIS_ID_KEY])
      ensures r.None? <==> !Truthy(analysisId) && (REAL_ANALYSIS_ID_KEY !in storage || storage[REAL_ANALYSIS_ID_KEY] == "")
      ensures r.Some? ==> r.value != ""
    {
      if Truthy(analysisId) then analysisId
      else if REAL_ANALYSIS_ID_KEY in storage && storage[REAL_ANALYSIS_ID_KEY] != "" then
        Some(storage[REAL_ANALYSIS_ID_KEY])
      else None
    }

    /** `analyzePhoto`: a successful answer is stored under the temp key and
        returned, and reads back unchanged; a failure stores nothing and
        records its message. */
    method AnalyzePhoto(response: FetchOutcome<AnalysisResult>) returns (result: Option<AnalysisResult>)
      modifies this
      ensures !loading
      ensures response.Fetched? ==>
        && result == Some(response.value)
        && storage == old(storage)[TEMP_ANALYSIS_KEY := Encode(response.value)]
        && error == None
        && GetTempAnalysis() == result
      ensures !response.Fetched? ==>
        && result == None
        && storage == old(storage)
        && error == Some(FailureMessage(response, ANALYZE_FAILED))
    {
      loading := true;
      error := None;
      if response.Fetched? {
        storage := storage[TEMP_ANALYSIS_KEY := Encode(response.value)];
        DecodeEncode(response.value);
        EncodeNonEmpty(response.value);
        result := Some(response.value);
      } else {
        error := Some(FailureMessage(response, ANALYZE_FAILED));
        result := None;
      }
      loading := false;
    }

    /** `saveAnalysisToDatabase`: requires a session, then a stored temp
        analysis, then sends that analysis's fields unchanged with the
        session's bearer token; on success the new id is stored under the
        real-id key and the temp entry is kept. */
    method SaveAnalysisToDatabase(session: Option<string>, response: FetchOutcome<string>)
      returns (id: Option<string>, sent: Option<SaveRequest>)
      modifies this
      ensures !loading
      ensures session.None? ==>
        id.None? && sent.None? && storage == old(storage) && error == Some("Authentication required")
      ensures session.Some? && old(GetTempAnalysis()).None? ==>
        id.None? && sent.None? && storage == old(storage) && error == Some("No temporary analysis data found")
      ensures sent.Some? <==> session.Some? && old(GetTempAnalysis()).Some?
      ensures sent.Some? ==>
        var t := old(GetTempAnalysis()).value;
           sent.value == SaveRequest(BEARER_PREFIX + session.value,
             SaveBody(Some(t.tempAnalysisId), Some(t.fullAnalysisData), Some(t.imageData), Some(t.expiresAt)))
      ensures sent.Some? && response.Fetched? ==>
        && id == Some(response.value)
        && storage == old(storage)[REAL_ANALYSIS_ID_KEY := response.value]
        && error == None
      ensures sent.Some? && !response.Fetched? ==>
        id.None? && storage == old(storage) && error == Some(FailureMessage(response, SAVE_FAILED))
      ensures id.Some? ==> GetTempAnalysis() == old(GetTempAnalysis())
    {
      loading := true;
      error := None;
      id := None;
      sent := None;
      if session.None? {
        error := Some("Authentication required");
      } else {
        var temp := GetTempAnalysis();
        if temp.None? {
          error := Some("No temporary analysis data found");
        } else {
          var t := temp.value;
          sent := Some(SaveRequest(BEARER_PREFIX + session.value,
            SaveBody(Some(t.tempAnalysisId), Some(t.fullAnalysisData), Some(t.imageData), Some(t.expiresAt))));
          if response.Fetched? {
            storage := storage[REAL_ANALYSIS_ID_KEY := response.value];
            id := Some(response.value);
          } else {
            error := Some(FailureMessage(response, SAVE_FAILED));
          }
        }
      }
      loading := false;
    }

    /** `getFullReport`: requires a session, then an id (explicit or stored),
        and asks for the report at `<REPORT_PATH><id>`; storage is never
        changed. */
    method GetFullReport(analysisId: Option<string>, session: Option<string>, response: FetchOutcome<FullReport>)
      returns (report: Option<FullReport>, requestedPath: Option<string>)
      modifies this
      ensures !loading && storage == old(storage)
      ensures session.None? ==> report.None? && requestedPath.None? && error == Some("Authentication required")
      ensures session.Some? && old(TargetAnalysisId(analysisId)).None? ==>
        report.None? && requestedPath.None? && error == Some("No analysis ID found")
      ensures requestedPath.Some? <==> session.Some? && old(TargetAnalysisId(analysisId)).Some?
      ensures requestedPath.Some? ==> requestedPath.value == REPORT_PATH + old(TargetAnalysisId(analysisId)).value
      ensures requestedPath.Some? && response.Fetched? ==> report == Some(response.value) && error == None
      ensures requestedPath.Some? && !response.Fetched? ==>
        report.None? && error == Some(FailureMessage(response, REPORT_FAILED))
    {
      loading := true;
      error := None;
      report := None;
      requestedPath := None;
      if session.None? {
        error := Some("Authentication required");
      } else {
        var target := TargetAnalysisId(analysisId);
        if target.None? {
          error := Some("No analysis ID found");
        } else {
          requestedPath := Some(REPORT_PATH + target.value);
          if response.Fetched? {
            report := Some(response.value);
          } else {
            error := Some(FailureMessage(response, REPORT_FAILED));
          }
        }
      }
      loading := false;
    }

    /** `clearTempData`: removes exactly the two keys. */
    method ClearTempData()
      modifies this
      ensures storage == Cleared(old(storage))
      ensures loading == old(loading) && error == old(error)
      ensures GetTempAnalysis().None? && TargetAnalysisId(None).None?
    {
      storage := Cleared(storage);
    }
  }

  /** The header the hook sends authenticates the session's own user at the
      edge functions: stripping the bearer prefix gives back the token. */
  lemma HeaderIdentifiesSessionUser(accessToken: string, users: map<string, string>)
    requires accessToken in users
    ensures Caller(BEARER_PREFIX + accessToken, users) == Some(users[accessToken])
  {
    BearerTokenOfHeader(accessToken);
  }

  /** A body copied from an analysis with a non-empty temp id and image
      passes the save function's required-field check. */
  lemma SentBodyHasRequiredFields(t: AnalysisResult)
    requires t.tempAnalysisId != "" && t.imageData != ""
    ensures SaveAnalysisPostPayment.HasRequiredFields(
      SaveBody(Some(t.tempAnalysisId), Some(t.fullAnalysisData), Some(t.imageData), Some(t.expiresAt)))
  {
  }

  /** The report function reads back the id the hook put in the path, as
      long as the id holds no '/'. */
  lemma {:induction false} RequestedPathCarriesId(id: string)
    requires '/' !in id
    ensures LastSegment(REPORT_PATH + id) == id
  {
    assert REPORT_PATH == "/functions/v1/get-full-report" + "/";
    LastSegmentOfJoin("/functions/v1/get-full-report", id);
  }
}
