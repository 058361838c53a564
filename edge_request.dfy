/** What the three edge functions share: the parts of an HTTP request they
    read, and how they turn the Authorization header into a token
    (supabase/functions/get-full-report/index.ts:30-46,
    supabase/functions/save-analysis-post-payment/index.ts:30-46). The auth
    service is a map from access token to user id: a token it does not
    know stands for both an unknown user and a failed lookup. */
module EdgeRequest {
  import opened Strings

  datatype Request = Request(
    httpMethod: string,
    authorization: Option<string>,
    pathname: string)

  const BEARER_PREFIX := "Bearer "

  /** `authHeader.replace('Bearer ', '')`: the first occurrence of the prefix
      is removed, wherever it stands. */
  function BearerToken(header: string): (token: string)
    ensures IndexOf(header, BEARER_PREFIX).None? ==> token == header
    ensures IndexOf(header, BEARER_PREFIX).Some? ==> |token| == |header| - |BEARER_PREFIX|
    ensures IndexOf(header, BEARER_PREFIX).Some? ==>
      var i := IndexOf(header, BEARER_PREFIX).value;
      token == header[..i] + header[i + |BEARER_PREFIX|..]
  {
    ReplaceFirst(header, BEARER_PREFIX, "")
  }

  /** The header the browser sends (`Bearer ${session.access_token}`) gives
      back exactly the access token. */
  lemma BearerTokenOfHeader(accessToken: string)
    ensures BearerToken(BEARER_PREFIX + accessToken) == accessToken
  {
    var h := BEARER_PREFIX + accessToken;
    assert h[..|BEARER_PREFIX|] == BEARER_PREFIX;
    assert IndexOf(h, BEARER_PREFIX) == Some(0);
    assert h[|BEARER_PREFIX|..] == accessToken;
  }

  /** The prefix is removed even from the middle of a header. */
  lemma BearerRemovedInside()
    ensures BearerToken("x Bearer y") == "x y"
  {
    var h := "x Bearer y";
    assert !OccursAt(h, BEARER_PREFIX, 0) by { assert h[0] != 'B'; }
    assert !OccursAt(h, BEARER_PREFIX, 1) by { assert h[1] != 'B'; }
    assert OccursAt(h, BEARER_PREFIX, 2) by { assert h[2..9] == BEARER_PREFIX; }
    assert IndexOf(h, BEARER_PREFIX) == Some(2);
    assert h[..2] + "" + h[9..] == "x y";
  }

  /** The user the auth service returns for the request's token, if any. */
  function Caller(authorization: string, users: map<string, string>): (r: Option<string>)
    ensures r.Some? <==> BearerToken(authorization) in users
    ensures r.Some? ==> r.value == users[BearerToken(authorization)]
  {
    var token := BearerToken(authorization);
    if token in users then Some(users[token]) else None
  }

  /** `url.pathname.split('/')` taken at its last element: the text after the
      last '/', or the whole path when there is none. */
  function LastSegment(path: string): (r: string)
    ensures '/' !in r
    ensures |r| <= |path| && path[|path| - |r|..] == r
    ensures |r| < |path| ==> path[|path| - |r| - 1] == '/'
  {
    match LastIndexOfChar(path, '/')
    case None => path
    case Some(i) => path[i + 1..]
  }

  /** The segment is empty exactly when the path is empty or ends in '/'. */
  lemma LastSegmentEmpty(path: string)
    ensures LastSegment(path) == "" <==> path == "" || path[|path| - 1] == '/'
  {
  }

  /** A path built as `<prefix>/<id>` yields `id` back when `id` holds no '/'. */
  lemma LastSegmentOfJoin(prefix: string, id: string)
    requires '/' !in id
    ensures LastSegment(prefix + "/" + id) == id
  {
    var p := prefix + "/" + id;
    var r := LastSegment(p);
    assert p[|prefix|] == '/';
    assert p[|p| - |id|..] == id;
  }
}
