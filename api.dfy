/** The client of the task authority: `UserLogin` and `UpdateTaskStatus` in
    pkg/utils/api.go.

    The HTTP exchange itself (request.go) is not modelled: a request is the
    value the client would send, and the answer is the authority's reply after
    JSON decoding. A call succeeds only on the application-level pair
    `code == 20000` plus the expected `message`, whatever the HTTP status. */
module Api {
  import opened Outcomes
  import PerfData

  const LoginPath := "/api/v1/system/users/login/"
  const TaskResultsPath := "/api/v1/task-results/"
  const SuccessCode := 20000
  /** The login message the authority sends on success, "登录成功" ("login succeeded"). */
  const LoginSucceeded := "\U{767B}\U{5F55}\U{6210}\U{529F}"
  const UpdateSucceeded := "success"
  const BearerPrefix := "Bearer "
  const JsonContent := "application/json"

  // ---------------------------------------------------------------------------
  // What is sent

  /** The four task states. */
  datatype TaskStatus = Received | Started | Success | Failure
  {
    predicate IsTerminal() { Success? || Failure? }
  }

  /** The `result` object of a terminal update. */
  datatype TaskResult = TaskResult(status: bool, data: Option<PerfData.PerfData>, msg: string)

  /** `{"task_status": <code>, "result": {...}}`, `result` absent when `None`. */
  datatype StatusUpdate = StatusUpdate(taskStatus: TaskStatus, result: Option<TaskResult>)

  datatype Body =
    | Credentials(username: Option<string>, password: Option<string>)
    | Update(update: StatusUpdate)

  /** An HTTP request: verb, full URL (base URL + path), headers and JSON body. */
  datatype Request = Request(verb: string, url: string, headers: map<string, string>, body: Body)

  // ---------------------------------------------------------------------------
  // What comes back

  /** The authority's answer. `Unreachable`: the request could not be sent or
      its answer read; `NotJson`: the body is not a JSON object. In a `Json`
      reply, `code` is `None` when it is missing or not a number, `message`
      when it is missing or not a string, `access` when `data.access` is. */
  datatype Reply =
    | Unreachable
    | NotJson
    | Json(code: Option<int>, message: Option<string>, access: Option<string>)

  /** The success discriminant: code 20000 and the expected message. */
  predicate Accepted(reply: Reply, message: string)
  {
    reply.Json? && reply.code == Some(SuccessCode) && reply.message == Some(message)
  }

  // ---------------------------------------------------------------------------
  // Paths and headers

  /** The path of one task's status resource (line 30). */
  function StatusPath(taskUuid: string): (p: string)
    ensures |p| == |TaskResultsPath| + |taskUuid| + 1
    ensures p[..|TaskResultsPath|] == TaskResultsPath
    ensures p[|TaskResultsPath|..|p| - 1] == taskUuid && p[|p| - 1] == '/'
  {
    TaskResultsPath + taskUuid + "/"
  }

  /** The task id a status path names, if it is one. */
  function TaskUuidOf(path: string): Option<string>
  {
    var n := |TaskResultsPath|;
    if |path| > n && path[..n] == TaskResultsPath && path[|path| - 1] == '/'
    then Some(path[n..|path| - 1])
    else None
  }

  /** The path names the task it was built for, and every path the reader
      accepts was built that way. */
  lemma StatusPathRoundTrip(taskUuid: string, path: string)
    ensures TaskUuidOf(StatusPath(taskUuid)) == Some(taskUuid)
    ensures TaskUuidOf(path) == Some(taskUuid) ==> StatusPath(taskUuid) == path
  {
    if TaskUuidOf(path) == Some(taskUuid) {
      var n := |TaskResultsPath|;
      assert path == path[..n] + path[n..|path| - 1] + [path[|path| - 1]];
    }
  }

  /** The Authorization header value (line 32). */
  function Authorization(token: string): (v: string)
    ensures |v| == |BearerPrefix| + |token|
    ensures v[..|BearerPrefix|] == BearerPrefix && v[|BearerPrefix|..] == token
  {
    BearerPrefix + token
  }

  /** The token an Authorization value carries, if it is a bearer value. */
  function BearerToken(value: string): Option<string>
  {
    if |value| >= |BearerPrefix| && value[..|BearerPrefix|] == BearerPrefix
    then Some(value[|BearerPrefix|..])
    else None
  }

  lemma AuthorizationRoundTrip(token: string, value: string)
    ensures BearerToken(Authorization(token)) == Some(token)
    ensures BearerToken(value) == Some(token) ==> Authorization(token) == value
  {
    if BearerToken(value) == Some(token) {
      assert value == value[..|BearerPrefix|] + value[|BearerPrefix|..];
    }
  }

  // ---------------------------------------------------------------------------
  // The two calls

  /** The login request (lines 12-14): the credentials, unchanged, posted as
      JSON to the login path of the base URL. */
  function LoginRequest(baseUrl: string, username: Option<string>, password: Option<string>): (r: Request)
    ensures r.verb == "POST" && r.body == Credentials(username, password)
    ensures |r.url| >= |baseUrl| && r.url[..|baseUrl|] == baseUrl && r.url[|baseUrl|..] == LoginPath
    ensures r.headers == map["Content-Type" := JsonContent]
  {
    Request("POST", baseUrl + LoginPath, map["Content-Type" := JsonContent], Credentials(username, password))
  }

  /** The status-update request (lines 30-33): PATCH of the task's status
      resource, authorised by the bearer token. */
  function UpdateRequest(baseUrl: string, taskUuid: string, token: string, update: StatusUpdate): (r: Request)
    ensures r.verb == "PATCH" && r.body == Update(update)
    ensures |r.url| >= |baseUrl| && r.url[..|baseUrl|] == baseUrl && TaskUuidOf(r.url[|baseUrl|..]) == Some(taskUuid)
    ensures "Authorization" in r.headers && BearerToken(r.headers["Authorization"]) == Some(token)
    ensures "Content-Type" in r.headers && r.headers["Content-Type"] == JsonContent
  {
    StatusPathRoundTrip(taskUuid, StatusPath(taskUuid));
    AuthorizationRoundTrip(token, Authorization(token));
    Request("PATCH", baseUrl + StatusPath(taskUuid),
            map["Content-Type" := JsonContent, "Authorization" := Authorization(token)],
            Update(update))
  }

  /** UserLogin's reading of the reply (lines 15-23): the access token on the
      success discriminant, "failed to login" on any other decoded reply. A
      reply that cannot be read, a `code` that is not a number, or a missing
      token on success make the client panic. */
  function UserLogin(reply: Reply): (r: Outcome<string>)
    ensures r.Ok? <==> Accepted(reply, LoginSucceeded) && reply.access.Some?
    ensures r.Ok? ==> r.value == reply.access.value
    ensures r.Fail? <==> reply.Json? && reply.code.Some? && !Accepted(reply, LoginSucceeded)
    ensures r.Fail? ==> r.error == "failed to login"
  {
    match reply
    case Unreachable => Panic("Failed to send request")
    case NotJson => Panic("Failed to unmarshal response body")
    case Json(code, message, access) =>
      if code.None? then Panic("interface conversion: code is not a number")
      else if code.value == SuccessCode && message == Some(LoginSucceeded) then
        if access.Some? then Ok(access.value) else Panic("interface conversion: access is not a string")
      else Fail("failed to login")
  }

  /** UpdateTaskStatus's reading of the reply (lines 34-41): success on the
      discriminant, "failed to update task status" on any other decoded reply. */
  function UpdateTaskStatus(reply: Reply): (r: Outcome<()>)
    ensures r.Ok? <==> Accepted(reply, UpdateSucceeded)
    ensures r.Fail? <==> reply.Json? && reply.code.Some? && !Accepted(reply, UpdateSucceeded)
    ensures r.Fail? ==> r.error == "failed to update task status"
  {
    match reply
    case Unreachable => Panic("Failed to send request")
    case NotJson => Panic("Failed to unmarshal response body")
    case Json(code, message, _) =>
      if code.None? then Panic("interface conversion: code is not a number")
      else if code.value == SuccessCode && message == Some(UpdateSucceeded) then Ok(())
      else Fail("failed to update task status")
  }
}
