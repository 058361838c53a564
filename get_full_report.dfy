/** The get-full-report edge function
    (supabase/functions/get-full-report/index.ts): a chain of early returns
    that ends in a status code. The auth service, the subscription view, the
    `analyses` table and the clock are inputs. */
module GetFullReport {
  import opened Strings
  import opened AnalysisTypes
  import opened EdgeRequest

  /** A row of the `analyses` table. */
  datatype AnalysisRow = AnalysisRow(
    id: string,
    userId: string,
    imageUrl: string,
    analysisData: Analysis,
    createdAt: int,
    expiresAt: Option<int>)

  /** `new Date(analysis.expires_at).getTime()`: a null expiry is the epoch. */
  function ExpiryMs(row: AnalysisRow): (t: int)
    ensures row.expiresAt.Some? ==> t == row.expiresAt.value
    ensures row.expiresAt.None? ==> t == 0
  {
    if row.expiresAt.Some? then row.expiresAt.value else 0
  }

  predicate Subscribed(status: Option<string>) {
    status == Some("active") || status == Some("trialing")
  }

  predicate RowMatches(row: AnalysisRow, id: string, userId: string) {
    row.id == id && row.userId == userId
  }

  /** `.eq('id', id).eq('user_id', userId)`: the matching rows, in table order. */
  function Matching(table: seq<AnalysisRow>, id: string, userId: string): (r: seq<AnalysisRow>)
    ensures forall row :: multiset(r)[row] == if RowMatches(row, id, userId) then multiset(table)[row] else 0
    ensures forall k :: 0 <= k < |r| ==> RowMatches(r[k], id, userId)
  {
    if |table| == 0 then []
    else
      var rest := Matching(table[1..], id, userId);
      assert table == [table[0]] + table[1..];
      if RowMatches(table[0], id, userId) then [table[0]] + rest else rest
  }

  /** `.single()`: exactly one row, otherwise a fetch error. */
  function Single(rows: seq<AnalysisRow>): (r: Option<AnalysisRow>)
    ensures r.Some? <==> |rows| == 1
    ensures r.Some? ==> r.value == rows[0]
  {
    if |rows| == 1 then Some(rows[0]) else None
  }

  function Report(row: AnalysisRow): FullReport {
    FullReport(row.id, row.imageUrl, row.analysisData, row.createdAt, row.expiresAt)
  }

  /** The handler. `subscription` is the status the subscription view
      returned (None for no row or a failed query); `nowMs` is the clock. */
  function Handle(
    req: Request,
    users: map<string, string>,
    subscription: Option<string>,
    table: seq<AnalysisRow>,
    nowMs: int): (r: Response<FullReport>)
    ensures req.httpMethod == "OPTIONS" ==> r == Preflight
    ensures req.httpMethod != "OPTIONS" && req.httpMethod != "GET" ==> r.Status() == 405
    ensures req.httpMethod == "GET" && !Truthy(req.authorization) ==> r.Status() == 401
    ensures r.Ok? ==>
      && Truthy(req.authorization)
      && Caller(req.authorization.value, users).Some?
      && Subscribed(subscription)
      && var caller := Caller(req.authorization.value, users).value;
         var id := LastSegment(req.pathname);
         id != ""
         && exists row :: row in table && RowMatches(row, id, caller)
              && r.payload == Report(row) && nowMs <= ExpiryMs(row)
  {
    if req.httpMethod == "OPTIONS" then Preflight
    else if req.httpMethod != "GET" then Error(405, "Method not allowed", None)
    else if !Truthy(req.authorization) then Error(401, "Authorization header required", None)
    else
      match Caller(req.authorization.value, users)
      case None => Error(401, "Invalid authentication token", None)
      case Some(caller) =>
        if !Subscribed(subscription) then
          Error(403, "Active subscription required to access full report", None)
        else
          var id := LastSegment(req.pathname);
          if id == "" then Error(400, "Analysis ID is required", None)
          else
            match Single(Matching(table, id, caller))
            case None => Error(404, "Analysis not found", None)
            case Some(row) =>
              if nowMs > ExpiryMs(row) then Error(410, "Analysis has expired", None)
              else Ok(Report(row))
  }

  /** The guards a request has passed once the analysis row is looked up. */
  predicate ReachesLookup(req: Request, users: map<string, string>, subscription: Option<string>) {
    req.httpMethod == "GET"
    && Truthy(req.authorization)
    && Caller(req.authorization.value, users).Some?
    && Subscribed(subscription)
    && LastSegment(req.pathname) != ""
  }

  /** An unknown token is refused with 401, whatever the rest of the request. */
  lemma UnknownTokenRefused(req: Request, users: map<string, string>, subscription: Option<string>,
                            table: seq<AnalysisRow>, nowMs: int)
    requires req.httpMethod == "GET" && Truthy(req.authorization)
    requires BearerToken(req.authorization.value) !in users
    ensures Handle(req, users, subscription, table, nowMs) == Error(401, "Invalid authentication token", None)
  {
  }

  /** The subscription is checked before the path: without one the answer
      is 403 even when the path carries no id. */
  lemma SubscriptionBeforePath(req: Request, users: map<string, string>, subscription: Option<string>,
                               table: seq<AnalysisRow>, nowMs: int)
    requires req.httpMethod == "GET" && Truthy(req.authorization)
    requires Caller(req.authorization.value, users).Some?
    requires !Subscribed(subscription)
    ensures Handle(req, users, subscription, table, nowMs).Status() == 403
  {
  }

  /** The path's id is checked after the subscription: a path that is empty
      or ends in '/' gets 400. */
  lemma MissingIdRefused(req: Request, users: map<string, string>, subscription: Option<string>,
                         table: seq<AnalysisRow>, nowMs: int)
    requires req.httpMethod == "GET" && Truthy(req.authorization)
    requires Caller(req.authorization.value, users).Some? && Subscribed(subscription)
    requires req.pathname == "" || req.pathname[|req.pathname| - 1] == '/'
    ensures Handle(req, users, subscription, table, nowMs) == Error(400, "Analysis ID is required", None)
  {
  }

  /** Another user's analysis is never found: a request whose caller owns no
      row with that id gets 404. */
  lemma OtherUsersAnalysisNotFound(req: Request, users: map<string, string>, subscription: Option<string>,
                                   table: seq<AnalysisRow>, nowMs: int)
    requires ReachesLookup(req, users, subscription)
    requires forall row :: row in table && row.id == LastSegment(req.pathname) ==>
      row.userId != Caller(req.authorization.value, users).value
    ensures Handle(req, users, subscription, table, nowMs).Status() == 404
  {
  }

  /** `.single()` counts rows: the same analysis matched twice is not found. */
  lemma DuplicateRowNotFound(req: Request, users: map<string, string>, subscription: Option<string>,
                              row: AnalysisRow, nowMs: int)
    requires ReachesLookup(req, users, subscription)
    requires RowMatches(row, LastSegment(req.pathname), Caller(req.authorization.value, users).value)
    ensures Handle(req, users, subscription, [row, row], nowMs).Status() == 404
  {
  }

  /** Expiry: once the lookup yields a single row, the answer is 410 exactly
      when the clock is past its expiry; at the expiry instant it is still
      served. */
  lemma ExpiredIffPastExpiry(req: Request, users: map<string, string>, subscription: Option<string>,
                             table: seq<AnalysisRow>, row: AnalysisRow, nowMs: int)
    requires ReachesLookup(req, users, subscription)
    requires Matching(table, LastSegment(req.pathname), Caller(req.authorization.value, users).value) == [row]
    ensures Handle(req, users, subscription, table, nowMs).Status() == 410 <==> nowMs > ExpiryMs(row)
    ensures nowMs == ExpiryMs(row) ==> Handle(req, users, subscription, table, nowMs) == Ok(Report(row))
  {
  }

  /** A row saved without an expiry reads as expiring at the epoch, so it is
      answered 410 at any later time. */
  lemma NullExpiryAlwaysExpired(req: Request, users: map<string, string>, subscription: Option<string>,
                                table: seq<AnalysisRow>, row: AnalysisRow, nowMs: int)
    requires ReachesLookup(req, users, subscription)
    requires Matching(table, LastSegment(req.pathname), Caller(req.authorization.value, users).value) == [row]
    requires row.expiresAt.None? && nowMs > 0
    ensures Handle(req, users, subscription, table, nowMs) == Error(410, "Analysis has expired", None)
  {
  }

  /** A served report copies the row's fields unchanged. */
  lemma ReportCopiesRow(row: AnalysisRow)
    ensures Report(row).analysisId == row.id && Report(row).imageUrl == row.imageUrl
    ensures Report(row).analysisData == row.analysisData
    ensures Report(row).createdAt == row.createdAt && Report(row).expiresAt == row.expiresAt
  {
  }
}
