/** The audit trail (backend/core/middleware/audit_log.py): every request
    outside the admin, static and media trees is written to the audit table
    after the downstream handler has answered; a failing write is swallowed
    and the response is returned unchanged. */
module AuditLog {
  import opened Common
  import opened Idempotency

  const SkippedPrefixes: seq<string> := ["/admin/", "/static/", "/media/"]

  /** `path.startswith(("/admin/", "/static/", "/media/"))` */
  predicate ShouldSkip(path: string) {
    exists i :: 0 <= i < |SkippedPrefixes| && StartsWith(path, SkippedPrefixes[i])
  }

  lemma SkippedPaths(path: string)
    ensures ShouldSkip(path) <==>
      StartsWith(path, "/admin/") || StartsWith(path, "/static/") || StartsWith(path, "/media/")
  {
    if StartsWith(path, "/admin/") { assert StartsWith(path, SkippedPrefixes[0]); }
    if StartsWith(path, "/static/") { assert StartsWith(path, SkippedPrefixes[1]); }
    if StartsWith(path, "/media/") { assert StartsWith(path, SkippedPrefixes[2]); }
  }

  /** get_client_ip: the first forwarded-for entry when that header is
      non-empty, else the connection address, else "unknown". */
  function GetClientIp(meta: Meta): (ip: string)
    ensures HeaderSet(meta, ForwardedForHeader) ==> ip == FirstForwardedEntry(meta[ForwardedForHeader])
    ensures !HeaderSet(meta, ForwardedForHeader) ==> ip == MetaGet(meta, RemoteAddrKey, "unknown")
  {
    if HeaderSet(meta, ForwardedForHeader) then FirstForwardedEntry(meta[ForwardedForHeader])
    else MetaGet(meta, RemoteAddrKey, "unknown")
  }

  /** The audit log and the vote path read the client address alike whenever
      the forwarded-for header names a first hop. */
  lemma ClientIpAgreesWithVotePath(meta: Meta)
    requires HeaderSet(meta, ForwardedForHeader) && FirstForwardedEntry(meta[ForwardedForHeader]) != ""
    ensures ExtractIpAddress(meta) == Some(GetClientIp(meta))
  {
  }

  /** They can disagree. A blank first hop is kept here but skipped on the
      vote path. */
  lemma BlankFirstHopKept(meta: Meta)
    requires HeaderSet(meta, ForwardedForHeader) && FirstForwardedEntry(meta[ForwardedForHeader]) == ""
    ensures GetClientIp(meta) == ""
    ensures ExtractIpAddress(meta) != Some("")
  {
  }

  /** A header value whose first entry is blank: " ,10.0.0.1". */
  lemma BlankFirstHopExample()
    ensures FirstForwardedEntry(" ,10.0.0.1") == ""
  {
    var x := " ,10.0.0.1";
    assert SplitFirst(x, ',') == " " by {
      assert x[0] == ' ' && x[1] == ',';
      assert x[1..][0] == ',';
    }
    assert Strip(" ") == "" by { assert IsPyWhitespace(' '); }
  }

  /** X-Real-IP is never consulted here, and with no address at all the
      audit log records "unknown" where the vote path has none. */
  lemma RealIpIgnored(meta: Meta)
    requires !HeaderSet(meta, ForwardedForHeader)
    ensures GetClientIp(meta) == MetaGet(meta, RemoteAddrKey, "unknown")
    ensures HeaderSet(meta, RealIpHeader) && Strip(meta[RealIpHeader]) != "" ==>
              ExtractIpAddress(meta) == Some(Strip(meta[RealIpHeader]))
    ensures RemoteAddrKey !in meta && !HeaderSet(meta, RealIpHeader) ==>
              GetClientIp(meta) == "unknown" && ExtractIpAddress(meta) == None
  {
  }

  /** The request user as the middleware sees it: AnonymousUser is a user
      that is not authenticated; no user attribute at all is `None`. */
  datatype User = User(id: int, isAuthenticated: bool)

  /** `user.id if user and user.is_authenticated else None` */
  function AuditUserId(user: Option<User>): (r: Option<int>)
    ensures r.Some? <==> user.Some? && user.value.isAuthenticated
    ensures r.Some? ==> r.value == user.value.id
  {
    if user.Some? && user.value.isAuthenticated then Some(user.value.id) else None
  }

  /** `dict(request.GET)`: each parameter with its list of values, in
      insertion order; `json.dumps` of it is a parameter of the model. */
  type QueryItems = seq<(string, seq<string>)>

  datatype AuditRequest = AuditRequest(
    httpMethod: string, path: string, meta: Meta, user: Option<User>, query: QueryItems)

  datatype Response = Response(statusCode: int)

  /** A row of the audit table. The request body is never read, so it is
      always `None`. Times are the clock readings taken around the handler. */
  datatype AuditRow = AuditRow(
    userId: Option<int>, httpMethod: string, path: string, queryParams: Option<string>,
    requestBody: Option<string>, statusCode: int, ipAddress: string, userAgent: string,
    requestId: string, responseTime: int, createdAt: int)

  /** The row log_request writes, for the request id set by the downstream
      chain and the start and end clock readings. */
  function AuditEntry(dumpQuery: QueryItems -> string, req: AuditRequest, response: Response,
                      requestId: Option<string>, start: int, end: int): (row: AuditRow)
    ensures row.userId == AuditUserId(req.user)
    ensures row.httpMethod == req.httpMethod && row.path == req.path
    ensures row.queryParams.None? <==> req.query == []
    ensures req.query != [] ==> row.queryParams == Some(dumpQuery(req.query))
    ensures row.requestBody == None
    ensures row.statusCode == response.statusCode
    ensures row.ipAddress == GetClientIp(req.meta)
    ensures |row.userAgent| <= 500 && |row.userAgent| <= |MetaGet(req.meta, "HTTP_USER_AGENT", "")|
    ensures row.userAgent == MetaGet(req.meta, "HTTP_USER_AGENT", "")[..|row.userAgent|]
    ensures |MetaGet(req.meta, "HTTP_USER_AGENT", "")| <= 500 ==> row.userAgent == MetaGet(req.meta, "HTTP_USER_AGENT", "")
    ensures requestId.Some? ==> row.requestId == requestId.value
    ensures requestId.None? ==> row.requestId == ""
    ensures row.responseTime == end - start && row.createdAt == start
  {
    AuditRow(
      AuditUserId(req.user), req.httpMethod, req.path,
      if req.query != [] then Some(dumpQuery(req.query)) else None,
      None, response.statusCode, GetClientIp(req.meta),
      Take(MetaGet(req.meta, "HTTP_USER_AGENT", ""), 500),
      if requestId.Some? then requestId.value else "",
      end - start, start)
  }

  /** The audit table after one request. `written` is whether the insert
      succeeded (an import or database error leaves the table as it was). */
  function AfterRequest(rows: seq<AuditRow>, dumpQuery: QueryItems -> string, req: AuditRequest,
                        response: Response, requestId: Option<string>, written: bool,
                        start: int, end: int): seq<AuditRow>
  {
    if ShouldSkip(req.path) || !written then rows
    else rows + [AuditEntry(dumpQuery, req, response, requestId, start, end)]
  }

  /** Each request adds at most one row, at the end, and never for a skipped
      path; earlier rows are never changed. */
  lemma AfterRequestAppendsOnly(rows: seq<AuditRow>, dumpQuery: QueryItems -> string, req: AuditRequest,
                                response: Response, requestId: Option<string>, written: bool,
                                start: int, end: int)
    ensures var r := AfterRequest(rows, dumpQuery, req, response, requestId, written, start, end);
      rows <= r && |r| <= |rows| + 1 &&
      (|r| == |rows| + 1 <==> !ShouldSkip(req.path) && written) &&
      (|r| == |rows| + 1 ==> r[|rows|].path == req.path && r[|rows|].statusCode == response.statusCode)
  {
  }

  /** The audit table, an append-only sequence of rows. */
  class AuditTable {
    var rows: seq<AuditRow>

    constructor ()
      ensures rows == []
    {
      rows := [];
    }
  }

  /** The middleware around the next handler. The handler returns the
      response and the request id that the request-id middleware attached
      on the way, which is read only after the handler returns. */
  class AuditLogMiddleware {
    const getResponse: AuditRequest -> (Response, Option<string>)
    const dumpQuery: QueryItems -> string

    constructor (getResponse: AuditRequest -> (Response, Option<string>), dumpQuery: QueryItems -> string)
      ensures this.getResponse == getResponse && this.dumpQuery == dumpQuery
    {
      this.getResponse := getResponse;
      this.dumpQuery := dumpQuery;
    }

    /** `__call__`. `start` and `end` are the clock readings and `written`
        the outcome of the database insert. */
    method Call(req: AuditRequest, table: AuditTable, written: bool, start: int, end: int)
      returns (response: Response)
      modifies table
      ensures response == getResponse(req).0
      ensures table.rows == AfterRequest(old(table.rows), dumpQuery, req, response, getResponse(req).1, written, start, end)
    {
      if ShouldSkip(req.path) {
        response := getResponse(req).0;
        return;
      }
      var (resp, requestId) := getResponse(req);
      response := resp;
      if written {
        table.rows := table.rows + [AuditEntry(dumpQuery, req, response, requestId, start, end)];
      }
    }
  }
}
