/** The API client (src/lib/api.ts).  `fetch` is not modelled: each call takes the
    settled outcome of the exchange as a parameter and returns the request it sent
    together with the envelope `{data, error, status}` it resolves to. */
module Api {
  import opened Wrappers
  import opened Text
  import opened Json
  import opened LocalStorage
  import opened Url
  import Auth

  const ApiBaseUrl := "http://localhost:5601/abada/api"

  /** The envelope every client operation resolves to.  In the envelope `request`
      builds, `data` is `Some` of the parsed body for an ok response, `Some(JNull)` for
      the `null` a non-ok response carries, and `None` where an exception leaves it
      undefined.  In the typed replies the pages
      receive, `Some` carries an object or an array (always truthy) and `None` stands
      for a reply that `if (response.data)` finds falsy. */
  datatype ApiResponse<T> = ApiResponse(data: Option<T>, error: Option<string>, status: int)

  datatype Header = Header(name: string, value: string)

  /** A file chosen in the browser; only its name matters to the model. */
  datatype File = File(name: string)

  datatype FormEntry = FormEntry(name: string, file: File)

  datatype Body = NoBody | JsonText(text: string) | Multipart(entries: seq<FormEntry>)

  /** The `RequestInit` options a caller passes to `request`. */
  datatype RequestInit = RequestInit(verb: Option<string>, body: Body, headers: Option<seq<Header>>)

  /** What `fetch` is called with; `verb` is the HTTP method. */
  datatype HttpRequest = HttpRequest(url: string, verb: string, headers: seq<Header>, body: Body)

  /** A thrown value: an `Error` instance with its message, or anything else. */
  datatype Thrown = ErrorThrown(message: string) | ValueThrown

  /** The result of `response.json()`: a value, or the exception it throws (for instance
      on the empty body of a 204). */
  datatype BodyRead = BodyParsed(value: Json) | BodyFailed(error: Thrown)

  /** How the `fetch` exchange settles: it throws (network failure), or a response
      arrives, whose body is read only when its status is ok. */
  datatype FetchOutcome =
    | FetchThrew(error: Thrown)
    | Responded(status: int, statusText: string, body: BodyRead)

  /** How a call of an API method settles, as a page awaiting it sees it. */
  datatype Call<T> = Threw(error: Thrown) | Returned(response: ApiResponse<T>)

  datatype LoginRequest = LoginRequest(username: string, password: string)

  datatype LoginResponse = LoginResponse(token: string, user: Auth.User)

  datatype TaskFilters = TaskFilters(status: Option<string>, assignee: Option<string>, dueBefore: Option<string>)

  /** The fields of `TaskDetailsDto` the pages read. The pages compare `status` with
      `AVAILABLE`, `CLAIMED`, `COMPLETED` and `FAILED`, not with the union the client
      declares, so it is any string here. */
  datatype TaskDetails = TaskDetails(id: string, name: string, assignee: Option<string>, status: string)

  /** The fields of `ProcessDefinition` the pages read. */
  datatype ProcessDefinition = ProcessDefinition(id: string, key: string, name: string)

  /** The fields of a process instance the pages read. */
  datatype ProcessInstance =
    ProcessInstance(instanceId: string, processDefinitionId: string, currentActivityId: Option<string>, startDate: Option<string>)

  /** The `{ status }` reply the pages read from claim, complete, fail and deploy. */
  datatype StatusReply = StatusReply(status: Option<string>)

  /** `response.ok`: the ok status range 200 to 299 of section 2.2.3 of the WHATWG
      Fetch Standard. */
  predicate IsOkStatus(status: int) {
    200 <= status <= 299
  }

  /** The message the `catch` clause of `request` reports. */
  function ThrownMessage(e: Thrown): string {
    match e
    case ErrorThrown(m) => m
    case ValueThrown => "Network error"
  }

  /** The error text of a non-ok response. */
  function HttpErrorText(status: int, statusText: string): string {
    "HTTP " + IntToString(status) + ": " + statusText
  }

  /** `headers` holds a header with that name. */
  predicate HasHeader(headers: seq<Header>, name: string) {
    exists i :: 0 <= i < |headers| && headers[i].name == name
  }

  /** The default headers built by `getAuthHeaders` from the stored token. */
  function AuthHeaders(token: Option<string>): seq<Header> {
    if Auth.Truthy(token) then [Header("Content-Type", "application/json"), Header("Authorization", "Bearer " + token.value)]
    else [Header("Content-Type", "application/json")]
  }

  /** The defaults always carry the JSON content type, and a bearer credential
      (section 2.1 of RFC 6750) exactly when the token is present and not empty. */
  lemma AuthHeadersShape(token: Option<string>)
    ensures AuthHeaders(token)[0] == Header("Content-Type", "application/json")
    ensures HasHeader(AuthHeaders(token), "Authorization") <==> Auth.Truthy(token)
    ensures Auth.Truthy(token) ==> Header("Authorization", "Bearer " + token.value) in AuthHeaders(token)
  {
    if Auth.Truthy(token) {
      assert AuthHeaders(token)[1].name == "Authorization";
    }
  }

  /** The init object `{ headers: defaults, ...options }` given to `fetch`: options
      spread last, so a caller's `headers` replace the defaults wholesale. */
  function FetchRequest(endpoint: string, options: RequestInit, defaults: seq<Header>): (req: HttpRequest)
    ensures req.url == ApiBaseUrl + endpoint
    ensures options.headers.Some? ==> req.headers == options.headers.value
    ensures options.headers.None? ==> req.headers == defaults
    ensures req.verb == if options.verb.Some? then options.verb.value else "GET"
    ensures req.body == options.body
  {
    HttpRequest(ApiBaseUrl + endpoint, options.verb.GetOr("GET"), options.headers.GetOr(defaults), options.body)
  }

  /** The envelope `request` resolves to when the exchange settles as `outcome`; the
      `try`/`catch` turns every exception into a status-0 envelope. */
  function Envelope(outcome: FetchOutcome): (r: ApiResponse<Json>)
    ensures r.error.None? ==> r.data.Some?
    ensures HasTruthyData(r) ==> r.error.None?
    ensures r.data.Some? <==> outcome.Responded? && !(IsOkStatus(outcome.status) && outcome.body.BodyFailed?)
    ensures r.error.None? ==> outcome.Responded? && IsOkStatus(r.status) && r.status == outcome.status
    ensures outcome.FetchThrew? ==> r == ApiResponse(None, Some(ThrownMessage(outcome.error)), 0)
    ensures outcome.Responded? && !IsOkStatus(outcome.status) ==>
      r == ApiResponse(Some(JNull), Some(HttpErrorText(outcome.status, outcome.statusText)), outcome.status)
    ensures outcome.Responded? && IsOkStatus(outcome.status) ==>
      r == match outcome.body
           case BodyParsed(v) => ApiResponse(Some(v), None, outcome.status)
           case BodyFailed(e) => ApiResponse(None, Some(ThrownMessage(e)), 0)
  {
    match outcome
    case FetchThrew(e) => ApiResponse(None, Some(ThrownMessage(e)), 0)
    case Responded(status, statusText, body) =>
      if IsOkStatus(status) then
        match body
        case BodyParsed(v) => ApiResponse(Some(v), None, status)
        case BodyFailed(e) => ApiResponse(None, Some(ThrownMessage(e)), 0)
      else ApiResponse(Some(JNull), Some(HttpErrorText(status, statusText)), status)
  }

  /** `if (response.data)` on the untyped envelope: data present and truthy. */
  predicate HasTruthyData(response: ApiResponse<Json>) {
    response.data.Some? && IsTruthy(response.data.value)
  }

  /** The body `completeTask` sends: `JSON.stringify(variables)` when the variables are
      truthy, none when they are undefined, `null`, `false` or empty text. */
  function CompleteBody(variables: Option<Json>): (body: Body)
    ensures body.NoBody? <==> variables.None? || !IsTruthy(variables.value)
    ensures !body.NoBody? ==> body == JsonText(Stringify(variables.value))
  {
    if variables.Some? && IsTruthy(variables.value) then JsonText(Stringify(variables.value)) else NoBody
  }

  /** The query string `getTasks` builds: `status`, `assignee`, `dueBefore`, in that
      order, each only when given and not empty. */
  function TaskQueryPairs(filters: TaskFilters): seq<(string, string)> {
    (if Auth.Truthy(filters.status) then [("status", filters.status.value)] else [])
    + (if Auth.Truthy(filters.assignee) then [("assignee", filters.assignee.value)] else [])
    + (if Auth.Truthy(filters.dueBefore) then [("dueBefore", filters.dueBefore.value)] else [])
  }

  /** The path `getTasks` requests: `?` and the query only when the query is not empty. */
  function TasksPath(query: string): string {
    "/v1/tasks" + (if query != "" then "?" + query else "")
  }

  /** The bearer header `deployProcess` sends instead of the defaults; a missing token
      is interpolated as the text `null`. */
  function DeployHeaders(token: Option<string>): seq<Header> {
    [Header("Authorization", "Bearer " + token.GetOr("null"))]
  }

  /** The mock `login`: only `admin`/`admin` succeeds, with a token stamped by the
      clock reading `now` (`Date.now()`). */
  function Login(credentials: LoginRequest, now: int): (r: ApiResponse<LoginResponse>)
    ensures r.data.Some? <==> credentials.username == "admin" && credentials.password == "admin"
    ensures r.data.Some? ==>
      && r.status == 200 && r.error.None?
      && r.data.value.user == Auth.User("1", credentials.username, Some("admin@tenda.com"))
      && r.data.value.token == "mock-jwt-token-" + IntToString(now)
    ensures r.data.None? ==> r.status == 401 && r.error == Some("Invalid credentials")
  {
    if credentials.username == "admin" && credentials.password == "admin" then
      var response := LoginResponse("mock-jwt-token-" + IntToString(now),
                                    Auth.User("1", credentials.username, Some("admin@tenda.com")));
      ApiResponse(Some(response), None, 200)
    else ApiResponse(None, Some("Invalid credentials"), 401)
  }

  /** The `FormData` `deployProcess` fills with `append`. */
  class FormData {
    var entries: seq<FormEntry>

    constructor ()
      ensures entries == []
    {
      entries := [];
    }

    method Append(name: string, file: File)
      modifies this
      ensures entries == old(entries) + [FormEntry(name, file)]
    {
      entries := entries + [FormEntry(name, file)];
    }
  }

  /** The client object `apiClient`.  It reads the token from the shared storage on
      every call and keeps no state of its own. */
  class ApiClient {
    const storage: Storage

    constructor (storage: Storage)
      ensures this.storage == storage
    {
      this.storage := storage;
    }

    /** `getAuthHeaders()`. */
    function GetAuthHeaders(): seq<Header>
      reads storage
    {
      AuthHeaders(storage.GetItem(Auth.AuthTokenKey))
    }

    /** `request(endpoint, options)`: the request handed to `fetch`, and the envelope. */
    method Request(endpoint: string, options: RequestInit, outcome: FetchOutcome)
      returns (sent: HttpRequest, response: ApiResponse<Json>)
      ensures sent == FetchRequest(endpoint, options, GetAuthHeaders())
      ensures response == Envelope(outcome)
    {
      sent := FetchRequest(endpoint, options, GetAuthHeaders());
      response := Envelope(outcome);
    }

    /** `getTasks(filters)`. */
    method GetTasks(filters: TaskFilters, outcome: FetchOutcome)
      returns (sent: HttpRequest, response: ApiResponse<Json>)
      ensures sent == FetchRequest(TasksPath(Serialize(TaskQueryPairs(filters))), RequestInit(None, NoBody, None), GetAuthHeaders())
      ensures response == Envelope(outcome)
    {
      var queryParams := new SearchParams();
      if Auth.Truthy(filters.status) {
        queryParams.Append("status", filters.status.value);
      }
      if Auth.Truthy(filters.assignee) {
        queryParams.Append("assignee", filters.assignee.value);
      }
      if Auth.Truthy(filters.dueBefore) {
        queryParams.Append("dueBefore", filters.dueBefore.value);
      }
      assert queryParams.pairs == TaskQueryPairs(filters);
      var queryString := queryParams.ToString();
      sent, response := Request(TasksPath(queryString), RequestInit(None, NoBody, None), outcome);
    }

    /** `getTask(id)`. */
    method GetTask(id: string, outcome: FetchOutcome)
      returns (sent: HttpRequest, response: ApiResponse<Json>)
      ensures sent == FetchRequest("/v1/tasks/" + id, RequestInit(None, NoBody, None), GetAuthHeaders())
      ensures response == Envelope(outcome)
    {
      sent, response := Request("/v1/tasks/" + id, RequestInit(None, NoBody, None), outcome);
    }

    /** `claimTask(id)`. */
    method ClaimTask(id: string, outcome: FetchOutcome)
      returns (sent: HttpRequest, response: ApiResponse<Json>)
      ensures sent == FetchRequest("/v1/tasks/" + id + "/claim", RequestInit(Some("POST"), NoBody, None), GetAuthHeaders())
      ensures response == Envelope(outcome)
    {
      sent, response := Request("/v1/tasks/" + id + "/claim", RequestInit(Some("POST"), NoBody, None), outcome);
    }

    /** `completeTask(id, variables)`: the variables as a JSON body when they are
        truthy, no body otherwise. */
    method CompleteTask(id: string, variables: Option<Json>, outcome: FetchOutcome)
      returns (sent: HttpRequest, response: ApiResponse<Json>)
      ensures sent == FetchRequest("/v1/tasks/" + id + "/complete", RequestInit(Some("POST"), CompleteBody(variables), None), GetAuthHeaders())
      ensures sent.body.NoBody? <==> variables.None? || !IsTruthy(variables.value)
      ensures response == Envelope(outcome)
    {
      var body := NoBody;
      if variables.Some? && IsTruthy(variables.value) {
        body := JsonText(Stringify(variables.value));
      }
      sent, response := Request("/v1/tasks/" + id + "/complete", RequestInit(Some("POST"), body, None), outcome);
    }

    /** `getProcessDefinitions()`. */
    method GetProcessDefinitions(outcome: FetchOutcome)
      returns (sent: HttpRequest, response: ApiResponse<Json>)
      ensures sent == FetchRequest("/v1/processes/definitions", RequestInit(None, NoBody, None), GetAuthHeaders())
      ensures response == Envelope(outcome)
    {
      sent, response := Request("/v1/processes/definitions", RequestInit(None, NoBody, None), outcome);
    }

    /** `getProcessInstances()`. */
    method GetProcessInstances(outcome: FetchOutcome)
      returns (sent: HttpRequest, response: ApiResponse<Json>)
      ensures sent == FetchRequest("/v1/processes/instances", RequestInit(None, NoBody, None), GetAuthHeaders())
      ensures response == Envelope(outcome)
    {
      sent, response := Request("/v1/processes/instances", RequestInit(None, NoBody, None), outcome);
    }

    /** `startProcess(processKey, variables)`: the body `{processKey, variables}`, in
        which `JSON.stringify` drops `variables` when undefined. */
    method StartProcess(processKey: string, variables: Option<Json>, outcome: FetchOutcome)
      returns (sent: HttpRequest, response: ApiResponse<Json>)
      ensures sent == FetchRequest("/v1/processes/start", RequestInit(Some("POST"), JsonText(Stringify(StartBody(processKey, variables))), None), GetAuthHeaders())
      ensures response == Envelope(outcome)
    {
      var body := JsonText(Stringify(StartBody(processKey, variables)));
      sent, response := Request("/v1/processes/start", RequestInit(Some("POST"), body, None), outcome);
    }

    /** `deployProcess(file)`: a multipart body with one `file` entry, and only the
        bearer header, so that `fetch` chooses the multipart content type itself. */
    method DeployProcess(file: File, outcome: FetchOutcome)
      returns (sent: HttpRequest, response: ApiResponse<Json>)
      ensures sent == FetchRequest("/v1/processes/deploy",
                                   RequestInit(Some("POST"), Multipart([FormEntry("file", file)]), Some(DeployHeaders(storage.GetItem(Auth.AuthTokenKey)))),
                                   GetAuthHeaders())
      ensures response == Envelope(outcome)
    {
      var formData := new FormData();
      formData.Append("file", file);
      var headers := DeployHeaders(storage.GetItem(Auth.AuthTokenKey));
      sent, response := Request("/v1/processes/deploy", RequestInit(Some("POST"), Multipart(formData.entries), Some(headers)), outcome);
    }
  }

  /** The object `{ processKey, variables }` of `startProcess`. */
  function StartBody(processKey: string, variables: Option<Json>): Json {
    JObject([Member("processKey", JString(processKey))]
            + if variables.Some? then [Member("variables", variables.value)] else [])
  }

  // ---------------------------------------------------------------------------
  // Properties of the client
  // ---------------------------------------------------------------------------

  /** `deployProcess` sends exactly one header, the bearer credential, and no content
      type; with no stored token the credential is the literal `Bearer null`. */
  lemma DeployHeadersShape(token: Option<string>, defaults: seq<Header>, file: File)
    ensures var req := FetchRequest("/v1/processes/deploy",
                                    RequestInit(Some("POST"), Multipart([FormEntry("file", file)]), Some(DeployHeaders(token))),
                                    defaults);
      && req.headers == DeployHeaders(token)
      && HasHeader(req.headers, "Authorization")
      && !HasHeader(req.headers, "Content-Type")
    ensures token.None? ==> DeployHeaders(token) == [Header("Authorization", "Bearer null")]
  {
    assert DeployHeaders(token)[0].name == "Authorization";
    assert "Bearer " + "null" == "Bearer null";
  }

  /** A network failure or an unreadable ok body gives status 0 with the thrown message;
      a response never does, since every response has a status of at least 100. */
  lemma StatusZeroExactlyOnException(outcome: FetchOutcome)
    requires outcome.Responded? ==> outcome.status >= 100
    ensures Envelope(outcome).status == 0 <==>
      outcome.FetchThrew? || (IsOkStatus(outcome.status) && outcome.body.BodyFailed?)
  {
  }

  /** With no filter given (or only empty ones) `getTasks` requests exactly `/v1/tasks`;
      otherwise the path carries a query. */
  lemma TasksPathQueryExactly(filters: TaskFilters)
    ensures var path := TasksPath(Serialize(TaskQueryPairs(filters)));
      (path == "/v1/tasks") <==>
        !Auth.Truthy(filters.status) && !Auth.Truthy(filters.assignee) && !Auth.Truthy(filters.dueBefore)
  {
    var pairs := TaskQueryPairs(filters);
    SerializeEmptyExactly(pairs);
    var path := TasksPath(Serialize(pairs));
    if |pairs| > 0 {
      assert |path| > |"/v1/tasks"|;
    }
  }

  /** The query names appear in the order `status`, `assignee`, `dueBefore`, each once
      and only when its filter is given. */
  lemma TaskQueryOrder(filters: TaskFilters)
    ensures var names := seq(|TaskQueryPairs(filters)|, i requires 0 <= i < |TaskQueryPairs(filters)| => TaskQueryPairs(filters)[i].0);
      names == (if Auth.Truthy(filters.status) then ["status"] else [])
             + (if Auth.Truthy(filters.assignee) then ["assignee"] else [])
             + (if Auth.Truthy(filters.dueBefore) then ["dueBefore"] else [])
  {
  }

  /** Filtering by a status made of unreserved characters (every status of the
      engine is upper-case letters) requests `/v1/tasks?status=` followed by the status
      itself. */
  lemma StatusFilterPath(status: string)
    requires status != ""
    requires forall i :: 0 <= i < |status| ==> IsUnreservedChar(status[i])
    ensures TasksPath(Serialize(TaskQueryPairs(TaskFilters(Some(status), None, None))))
            == "/v1/tasks?status=" + status
  {
    var pairs := TaskQueryPairs(TaskFilters(Some(status), None, None));
    assert pairs == [("status", status)];
    UnreservedIsUnchanged(status);
    var name := "status";
    assert forall i :: 0 <= i < |name| ==> IsUnreservedChar(name[i]);
    UnreservedIsUnchanged(name);
    assert Serialize(pairs) == name + "=" + status;
  }

  /** The mock token is never empty, so a session saved from a successful mock login is
      restored by the next `getStoredAuth`. */
  lemma MockLoginSessionRestores(items: map<string, string>, now: int)
    ensures var r := Login(LoginRequest("admin", "admin"), now);
      && r.data.Some?
      && Auth.StoredAuth(Auth.WithAuth(items, r.data.value.token, r.data.value.user))
         == Auth.AuthState(Auth.UserJson(r.data.value.user), Some(r.data.value.token), true)
  {
    var r := Login(LoginRequest("admin", "admin"), now);
    assert r.data.value.token[0] == 'm';
    Auth.SaveThenLoad(items, r.data.value.token, r.data.value.user);
  }
}
