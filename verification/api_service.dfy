/** The older singleton client for tasks: the same configuration rule and
    retrying fetch as the shared base client, a connection test against the
    health endpoint, and task CRUD requests whose URLs are built by plain
    concatenation onto the configured base URL. */
module ApiService {
  import opened Wrappers
  import opened Text
  import opened Records
  import opened BaseService
  import SettingsStore

  /** The single instance, built once from the settings store at module
      load. It holds the same fields with the same meaning as the base
      client, so it is modelled by the same `Client`. */
  function GetInstance(api: SettingsStore.ApiSettings): (c: Client)
    ensures c == FromSettings(api)
    ensures c.currentRetry == 0
  {
    Client(Config(api.baseUrl, api.timeout, api.retryAttempts), 0)
  }

  /** `${x}` of a string field that may hold `undefined`. */
  function Interpolate(o: Option<string>): (s: string)
    ensures o.Some? ==> s == o.value
    ensures o.None? ==> s == "undefined"
  {
    match o
    case Some(v) => v
    case None => "undefined"
  }

  /** The collection URL: the base URL with "tasks" glued directly on. */
  function TasksUrl(c: Client): (u: string)
    ensures IsPrefix(Interpolate(c.config.baseUrl), u)
    ensures u[|Interpolate(c.config.baseUrl)|..] == "tasks"
  {
    Interpolate(c.config.baseUrl) + "tasks"
  }

  /** The URL of one task: the collection URL, a slash, the id. */
  function TaskUrl(c: Client, id: string): (u: string)
    ensures IsPrefix(TasksUrl(c), u)
    ensures u == TasksUrl(c) + "/" + id
  {
    Interpolate(c.config.baseUrl) + "tasks/" + id
  }

  /** The health URL is the only one with a slash after the base URL, so it
      is neither the collection URL nor any task's URL. */
  function HealthUrl(c: Client): (u: string)
    ensures IsPrefix(Interpolate(c.config.baseUrl), u) && |u| == |Interpolate(c.config.baseUrl)| + 7
    ensures u[|Interpolate(c.config.baseUrl)|] == '/'
    ensures u != TasksUrl(c)
    ensures forall id :: u != TaskUrl(c, id)
  {
    var base := Interpolate(c.config.baseUrl);
    var u := base + "/health";
    assert u[|base|] == '/';
    assert TasksUrl(c)[|base|] == 't';
    assert forall id :: TaskUrl(c, id)[|base|] == 't';
    u
  }

  /** Distinct ids address distinct URLs. */
  lemma TaskUrlInjective(c: Client, a: string, b: string)
    ensures TaskUrl(c, a) == TaskUrl(c, b) ==> a == b
  {
    if TaskUrl(c, a) == TaskUrl(c, b) {
      var n := |TasksUrl(c)| + 1;
      assert a == TaskUrl(c, a)[n..];
      assert b == TaskUrl(c, b)[n..];
    }
  }

  /** No separator is inserted: with the default base URL the task
      collection is requested at "https://api.example.comtasks", while the
      health check goes to "https://api.example.com/health". */
  lemma DefaultUrlsHaveNoSeparator(timezone: string, loadedAt: string)
    ensures var c := GetInstance(SettingsStore.DefaultSettings(timezone, loadedAt).api);
      && TasksUrl(c) == "https://api.example.comtasks"
      && TaskUrl(c, "7") == "https://api.example.comtasks/7"
      && HealthUrl(c) == "https://api.example.com/health"
  {
  }

  /** An unset base URL prints as "undefined". */
  lemma UndefinedBaseUrl(c: Client)
    requires c.config.baseUrl.None?
    ensures TasksUrl(c) == "undefinedtasks"
  {
  }

  datatype Verb = GET | POST | PUT | DELETE

  /** One request as `fetch` receives it. The body is the serialised payload
      of type `D`. */
  datatype Request<D> = Request(verb: Verb, url: string, body: Option<D>, headers: Entries)

  /** The task operations of the service. */
  datatype TaskCall<D> = ListTasks | CreateTask(data: D) | UpdateTask(id: string, data: D) | DeleteTask(id: string)

  /** The request a task operation sends on each of its attempts. No
      operation passes headers of its own, so the headers are the defaults. */
  function TaskRequest<D>(c: Client, token: Option<string>, call: TaskCall<D>): (r: Request<D>)
    ensures r.headers == RequestHeaders(token, [])
    ensures call.ListTasks? ==> r.verb == GET && r.url == TasksUrl(c) && r.body.None?
    ensures call.CreateTask? ==> r.verb == POST && r.url == TasksUrl(c) && r.body == Some(call.data)
    ensures call.UpdateTask? ==> r.verb == PUT && r.url == TaskUrl(c, call.id) && r.body == Some(call.data)
    ensures call.DeleteTask? ==> r.verb == DELETE && r.url == TaskUrl(c, call.id) && r.body.None?
  {
    var h := RequestHeaders(token, []);
    match call
    case ListTasks => Request(GET, TasksUrl(c), None, h)
    case CreateTask(d) => Request(POST, TasksUrl(c), Some(d), h)
    case UpdateTask(id, d) => Request(PUT, TaskUrl(c, id), Some(d), h)
    case DeleteTask(id) => Request(DELETE, TaskUrl(c, id), None, h)
  }

  /** A task operation: its request, and the retrying fetch that carries it.
      The call resolves with the status of the first successful response;
      otherwise every retry left is spent and the call rejects with the
      status-less error of its last attempt, which `response.json()` never
      reaches. */
  function Perform<D>(c: Client, token: Option<string>, call: TaskCall<D>, outcome: nat -> Outcome): (p: (Request<D>, Run))
    ensures p.0.headers == RequestHeaders(token, [])
    ensures 0 < p.1.attempts <= RetriesLeft(c) + 1
    ensures forall i :: 0 <= i < p.1.attempts - 1 ==> !IsOk(outcome(i))
    ensures p.1.result.Success? <==> IsOk(outcome(p.1.attempts - 1))
    ensures p.1.result.Success? ==> p.1.result.value == outcome(p.1.attempts - 1).status
    ensures p.1.result.Failure? ==>
      && p.1.attempts == RetriesLeft(c) + 1
      && p.1.result.error == AttemptError(outcome(p.1.attempts - 1))
      && p.1.result.error.status.None?
  {
    FetchSpec(c, outcome, 0);
    (TaskRequest(c, token, call), Fetch(c, outcome, 0))
  }

  /** Every task request carries the JSON content type, and a bearer token
      exactly when the stored token is truthy. */
  lemma TaskRequestHeaders<D>(c: Client, token: Option<string>, call: TaskCall<D>)
    ensures Get(TaskRequest(c, token, call).headers, "Content-Type") == Some("application/json")
    ensures Get(TaskRequest(c, token, call).headers, "Authorization").Some? <==> TruthyString(token)
    ensures TruthyString(token) ==>
      Get(TaskRequest(c, token, call).headers, "Authorization") == Some("Bearer " + token.value)
  {
    assert KeySet([]) == {};
  }

  /** What the health request's `fetch` does: resolve with a status, or reject
      with a thrown value. */
  datatype HealthOutcome = Answered(status: int) | Rejected(thrown: Thrown)

  datatype ConnectionResult = ConnectionResult(success: bool, message: string)

  /** The health request sends only the content type, never the token. */
  const HealthHeaders: Entries := [("Content-Type", "application/json")]

  /** `testConnection`: one attempt, no retry, no logout, and every failure is
      caught and reported instead of thrown. */
  function TestConnection(o: HealthOutcome): (r: ConnectionResult)
    ensures r.success <==> o.Answered? && IsOk(Responded(o.status))
    ensures r.success ==> r.message == "Connection successful"
    ensures o.Answered? && !r.success ==> r.message == "HTTP error! status: " + IntToString(o.status)
    ensures o.Rejected? && o.thrown.ErrorObject? ==> r.message == o.thrown.message
    ensures o.Rejected? && o.thrown.NonError? ==> r.message == "Connection failed"
  {
    match o
    case Answered(n) =>
      if IsOk(Responded(n)) then ConnectionResult(true, "Connection successful")
      else Caught(AttemptError(Responded(n)))
    case Rejected(t) => Caught(t)
  }

  /** The catch block of `testConnection`. */
  function Caught(t: Thrown): (r: ConnectionResult)
    ensures !r.success
    ensures t.ErrorObject? ==> r.message == t.message
    ensures t.NonError? ==> r.message == "Connection failed"
  {
    match t
    case ErrorObject(m, _) => ConnectionResult(false, m)
    case NonError => ConnectionResult(false, "Connection failed")
  }

  /** A failed health check reports the same text the task calls' error
      reporter would show for the same failure, and the test's verdict agrees
      with a single attempt of the retrying fetch on an exhausted instance. */
  lemma TestConnectionAgreesWithFetch(c: Client, n: int, outcome: nat -> Outcome)
    requires !CanRetry(c)
    requires outcome(0) == Responded(n)
    ensures TestConnection(Answered(n)).success <==> Fetch(c, outcome, 0).result.Success?
    ensures !TestConnection(Answered(n)).success ==>
      TestConnection(Answered(n)).message == HandleError(Fetch(c, outcome, 0).result.error).toast
  {
    FetchSpec(c, outcome, 0);
  }

  /** The health headers hold no Authorization entry. */
  lemma HealthCheckUnauthenticated()
    ensures Get(HealthHeaders, "Content-Type") == Some("application/json")
    ensures Get(HealthHeaders, "Authorization") == None
  {
    assert "Authorization" !in KeySet(HealthHeaders);
  }
}
