/** The records that travel between the analyze-photo function, the browser's
    session storage, the save-analysis-post-payment function and the
    get-full-report function (src/hooks/useAnalysis.ts:4-26). Timestamps are
    milliseconds since the epoch; the ISO-8601 text the source exchanges is
    not modelled. */
module AnalysisTypes {
  import opened Strings

  datatype PreviewInsight = PreviewInsight(
    starRating: int,
    emotionalHook: string,
    conversionTease: string,
    category: string)

  /** The object parsed out of the language model's reply. Only the fields the
      core reads are separate; everything else it says (deficiencies,
      recommendations, ...) is carried as its JSON text in `details`. */
  datatype Analysis = Analysis(
    perceivedAge: int,
    previewInsights: seq<PreviewInsight>,
    details: string)

  /** What analyze-photo returns and the browser keeps under the temp key. */
  datatype AnalysisResult = AnalysisResult(
    tempAnalysisId: string,
    perceivedAge: int,
    previewInsights: seq<PreviewInsight>,
    expiresAt: int,
    fullAnalysisData: Analysis,
    imageData: string)

  /** What get-full-report returns; the expiry is null (None) for a row
      saved without one. */
  datatype FullReport = FullReport(
    analysisId: string,
    imageUrl: string,
    analysisData: Analysis,
    createdAt: int,
    expiresAt: Option<int>)

  /** The JSON body of a save-analysis-post-payment request; a field the
      client left out is None. */
  datatype SaveBody = SaveBody(
    tempAnalysisId: Option<string>,
    analysisData: Option<Analysis>,
    imageData: Option<string>,
    expiresAt: Option<int>)

  /** What save-analysis-post-payment returns. */
  datatype SaveResult = SaveResult(analysisId: string, imageUrl: string)

  /** An edge function's answer: the CORS preflight's plain 'ok', an error
      with its status, message and optional details, or a 200 with a JSON payload. */
  datatype Response<T> = Preflight | Error(status: int, error: string, details: Option<string>) | Ok(payload: T)
  {
    function Status(): int {
      match this
      case Preflight => 200
      case Error(s, _, _) => s
      case Ok(_) => 200
    }
  }

  /** JavaScript truthiness of an optional string: present and not empty. */
  predicate Truthy(s: Option<string>) {
    s.Some? && s.value != ""
  }
}
