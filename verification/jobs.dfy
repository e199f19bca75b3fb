/** What the retrieve and deploy jobs of `MetadataApi` (salesforce/api/metadata.py) do, as functions
    from the state of the client and its surroundings (a `World`) to the call's outcome and the
    new state. The remote end is scripted: `soap_login` answers with the dictionaries of `logins`
    in turn, `requests.post` with the `replies` in turn; a call that finds its script empty ends
    the run (`RanOut`). Waiting is recorded in `sleeps`, and what the log panel shows of the job
    in `log`. */
module Jobs {
  import opened Strings
  import opened Values

  /** One reply to `requests.post`: an HTTP answer (its status, its raw text, the document
      `xmltodict.parse` makes of it, and the text `getUniqueElementValueFromXmlString` finds for
      each element name present), or the exception the post raised. */
  datatype Reply =
    | Answer(statusCode: int, text: string, document: Node, elements: map<string, string>)
    | NetworkFailure(message: string)

  /** A SOAP request sent: the operation and its argument (the job id, the options or the zip). */
  datatype Post = Post(operation: string, argument: string)

  /** How a call ended: it returned a value (Python's `None` is `Null`), raised, or needed a reply
      the script does not have. */
  datatype Call<+T> = Got(value: T) | Threw(exc: Exc) | RanOut

  /** A line of the log panel that carries data. A test failure carries its number, its id, its
      message and the lines of its stack trace, each printed on a line of its own after a tab. The status line of a deployment poll carries,
      when the answer has a `stateDetail`, the count done, the total and the detail. */
  datatype LogEntry =
    | RetrieveStatus(state: Node)
    | RetrieveMessage(fileName: Node, problem: Node)
    | DeployStatus(status: Node, progress: Option<(Node, Node, Node)>)
    | TestFailure(index: nat, id: Node, message: Node, trace: seq<string>)
    | ErrorMessage(text: string)
    | ComponentFailures(messages: seq<string>)
    | CoverageWarnings(messages: seq<string>)

  datatype World = World(
    metadataUrl: Option<string>,  // `self.metadata_url`, unset until a login succeeds
    result: Node,                 // `self.result`
    logins: seq<Node>,            // what `soap_login` will answer, in order
    loginCalls: seq<bool>,        // the `session_id_expired` flag of each login made
    replies: seq<Reply>,          // what the server will answer, in order
    posts: seq<Post>,             // the requests sent, in order
    sleeps: seq<nat>,             // the seconds waited, in order
    log: seq<LogEntry>)

  const SESSION_EXPIRED := "INVALID_SESSION_ID"

  /** What Python says of a post made before any successful login. */
  const NO_ENDPOINT := "'MetadataApi' object has no attribute 'metadata_url'"

  /** The states of a deployment that keep the job polling. */
  const BUSY := [Str("Pending"), Str("InProgress"), Str("Canceling")]

  /** `w'` comes after `w`: the traces have only grown and the scripts only shrunk. */
  predicate Extends(w: World, w': World) {
    && w.loginCalls <= w'.loginCalls && w.posts <= w'.posts && w.sleeps <= w'.sleeps && w.log <= w'.log
    && |w'.replies| <= |w.replies| && |w'.logins| <= |w.logins|
  }

  /** The same failure, for a call of another result type. */
  function Relay<T, U>(c: Call<T>): (r: Call<U>)
    requires !c.Got?
    ensures r.Threw? == c.Threw? && (c.Threw? ==> r.exc == c.exc)
  {
    if c.Threw? then Threw(c.exc) else RanOut
  }

  // ----- login (metadata.py:25-47) -----

  /** `self.login(session_id_expired)`: the login result becomes `self.result`; a successful one
      also sets the endpoint of the metadata API for the configured version. */
  function LoginSpec(w: World, apiVersion: nat, expired: bool): (r: (Call<Node>, World))
    ensures Extends(w, r.1)
    ensures r.1.replies == w.replies && r.1.posts == w.posts && r.1.sleeps == w.sleeps && r.1.log == w.log
    ensures |w.logins| == 0 <==> r.0.RanOut?
    ensures |w.logins| > 0 ==> r.1.logins == w.logins[1..] && r.1.loginCalls == w.loginCalls + [expired]
    ensures r.0.Got? ==> r.0.value == w.logins[0] && r.1.result == r.0.value
    ensures r.0.Got? && Index(r.0.value, "success") == Ok(Bool(false)) ==> r.1.metadataUrl == w.metadataUrl
  {
    if |w.logins| == 0 then (RanOut, w)
    else
      var reply := w.logins[0];
      var w1 := w.(logins := w.logins[1..], loginCalls := w.loginCalls + [expired]);
      var success := Index(reply, "success");
      if success.Err? then (Threw(success.exc), w1)
      else if !Truthy(success.value) then (Got(reply), w1.(result := reply))
      else
        var instanceUrl := Index(reply, "instance_url");
        if instanceUrl.Err? then (Threw(instanceUrl.exc), w1)
        else
          var url := AsStr(instanceUrl.value);
          if url.Err? then (Threw(url.exc), w1)
          else (Got(reply), w1.(metadataUrl := Some(url.value + "/services/Soap/m/" + DecimalString(apiVersion) + ".0"), result := reply))
  }

  /** `not result or not result["success"]` negated: whether a job goes on after its login. */
  function LoggedIn(login: Node): Result<bool> {
    if !Truthy(login) then Ok(false)
    else
      var success :- Index(login, "success");
      Ok(Truthy(success))
  }

  // ----- the transport -----

  /** `requests.post(self.metadata_url, …)`: sends the request and takes the next reply. */
  function PostSpec(w: World, request: Post): (r: (Call<Reply>, World))
    ensures Extends(w, r.1)
    ensures r.1.metadataUrl == w.metadataUrl && r.1.result == w.result && r.1.logins == w.logins
    ensures r.1.loginCalls == w.loginCalls && r.1.sleeps == w.sleeps && r.1.log == w.log
    ensures r.0.Got? <==> w.metadataUrl.Some? && |w.replies| > 0
    ensures r.0.Got? ==> r.0.value == w.replies[0] && r.1.replies == w.replies[1..] && r.1.posts == w.posts + [request]
    ensures !r.0.Got? ==> r.1 == w
  {
    if w.metadataUrl.None? then (Threw(AttributeError(NO_ENDPOINT)), w)
    else if |w.replies| == 0 then (RanOut, w)
    else (Got(w.replies[0]), w.(replies := w.replies[1..], posts := w.posts + [request]))
  }

  /** `getUniqueElementValueFromXmlString(response.content, name)`: unescaping the missing value of
      an absent element raises. */
  function ElementValue(reply: Reply, name: string): (r: Result<string>)
    requires reply.Answer?
    ensures r.Ok? <==> name in reply.elements
    ensures r.Ok? ==> r.value == reply.elements[name]
  {
    if name in reply.elements then Ok(reply.elements[name])
    else Err(AttributeError("'NoneType' object has no attribute 'replace'"))
  }

  /** `util.get_response_error(response)` (util.py:2151-2160). */
  function ResponseError(reply: Reply): Result<Node>
    requires reply.Answer?
  {
    var (codeTag, messageTag) := if reply.statusCode == 500 then ("faultcode", "faultstring") else ("errorCode", "message");
    var code :- ElementValue(reply, codeTag);
    var message :- ElementValue(reply, messageTag);
    Ok(Map([("success", Bool(false)), ("Error Code", Str(code)), ("Error Message", Str(message))]))
  }

  /** The failure a post that raised is turned into, where the code catches it. */
  function NetworkError(message: string, url: string, operation: string): Node {
    Map([
      ("Error Message", Str(if Contains(message, "Max retries exceeded") then "Network Issue" else message)),
      ("URL", Str(url)),
      ("Operation", Str(operation)),
      ("success", Bool(false))])
  }

  /** The result a `KeyError` in decoding the answer of `cancel_deployment` or `check_deploy_status`
      is turned into; `str(KeyError(k))` quotes the key. */
  function ConvertError(key: string): Node {
    Map([
      ("Message", Str("Convert Xml to JSON Exception")),
      ("Detail", Str("body[\"checkDeployStatusResponse\"][\"result\"] KeyError'" + key + "'")),
      ("success", Bool(false))])
  }

  /** `result["soapenv:Envelope"]["soapenv:Body"][response]["result"]`. */
  function ResultOf(reply: Reply, response: string): Result<Node>
    requires reply.Answer?
  {
    Path(reply.document, ["soapenv:Envelope", "soapenv:Body", response, "result"])
  }

  /** An answer with a status above 399: its error becomes `self.result`. */
  function ErrorResult(w: World, reply: Reply): (r: (Call<Node>, World))
    requires reply.Answer?
    ensures Extends(w, r.1) && r.1.posts == w.posts
  {
    var error := ResponseError(reply);
    if error.Err? then (Threw(error.exc), w) else (Got(error.value), w.(result := error.value))
  }

  // ----- the status calls (metadata.py:73-140, 270-357) -----

  /** `self.check_status(async_process_id)`. */
  function CheckStatusSpec(w: World, id: string): (r: (Call<Node>, World))
    ensures Extends(w, r.1)
    ensures r.0.Got? ==> r.1.result == r.0.value
    ensures r.1.posts == w.posts || r.1.posts == w.posts + [Post("check_status", id)]
    ensures r.0.Got? ==> r.1.posts == w.posts + [Post("check_status", id)]
    ensures |r.1.replies| <= |w.replies|
    ensures r.0.Got? ==> |r.1.replies| < |w.replies|
    ensures r.1.sleeps == w.sleeps && r.1.log == w.log && r.1.logins == w.logins && r.1.metadataUrl == w.metadataUrl
  {
    var (c, w1) := PostSpec(w, Post("check_status", id));
    if !c.Got? then (Relay(c), w1)
    else
      var reply := c.value;
      if reply.NetworkFailure? then (Threw(Transport(reply.message)), w1)
      else if reply.statusCode > 399 then ErrorResult(w1, reply)
      else
        var result := ResultOf(reply, "checkStatusResponse");
        if result.Err? then (Threw(result.exc), w1)
        else
          // the decoded result is stored before it is marked, so it stays stored when marking raises
          var marked := SetItem(result.value, "success", Bool(true));
          if marked.Err? then (Threw(marked.exc), w1.(result := result.value)) else (Got(marked.value), w1.(result := marked.value))
  }

  /** `self.check_retrieve_status(async_process_id)`: a post that raises is caught; the answer is
      returned without becoming `self.result`. */
  function CheckRetrieveStatusSpec(w: World, id: string): (r: (Call<Node>, World))
    ensures Extends(w, r.1)
    ensures |r.1.replies| <= |w.replies|
    ensures r.1.sleeps == w.sleeps && r.1.logins == w.logins && r.1.log == w.log
  {
    var (c, w1) := PostSpec(w, Post("check_retrieve_status", id));
    if !c.Got? then (Relay(c), w1)
    else
      var reply := c.value;
      if reply.NetworkFailure? then
        var error := NetworkError(reply.message, w1.metadataUrl.value, "RETRIEVE");
        (Got(error), w1.(result := error))
      else if reply.statusCode > 399 then ErrorResult(w1, reply)
      else
        var result := ResultOf(reply, "checkRetrieveStatusResponse");
        if result.Err? then (Threw(result.exc), w1)
        else
          var marked := SetItem(result.value, "success", Bool(reply.statusCode < 399));
          if marked.Err? then (Threw(marked.exc), w1) else (Got(marked.value), w1)
  }

  /** The debugging header of an envelope, `None` when it has none. */
  function DebuggingHeader(envelope: Node): (r: Result<Node>)
    ensures envelope.Map? && !HasKey(envelope.entries, "soapenv:Header") ==> r == Ok(Null)
  {
    var hasHeader :- In("soapenv:Header", envelope);
    if hasHeader then Path(envelope, ["soapenv:Header", "DebuggingInfo"]) else Ok(Null)
  }

  /** The decoding of a `check_deploy_status` answer: the debugging header, when there is one,
      and the result. */
  function DeployStatusOf(reply: Reply): Result<Node>
    requires reply.Answer?
  {
    var envelope :- Index(reply.document, "soapenv:Envelope");
    var header :- DebuggingHeader(envelope);
    var body :- Path(envelope, ["soapenv:Body", "checkDeployStatusResponse", "result"]);
    Ok(Map([("success", Bool(true)), ("header", header), ("body", body)]))
  }

  /** `self.check_deploy_status(async_process_id)`: a `KeyError` while decoding is caught and
      turned into a failure; the answer is returned without becoming `self.result`. */
  function CheckDeployStatusSpec(w: World, id: string): (r: (Call<Node>, World))
    ensures Extends(w, r.1)
    ensures r.1.posts == w.posts || r.1.posts == w.posts + [Post("check_deploy_status", id)]
    ensures r.0.Got? ==> r.1.posts == w.posts + [Post("check_deploy_status", id)]
    ensures |r.1.replies| <= |w.replies|
    ensures r.0.Got? ==> |r.1.replies| < |w.replies|
    ensures r.1.sleeps == w.sleeps && r.1.log == w.log && r.1.logins == w.logins && r.1.metadataUrl == w.metadataUrl
  {
    var (c, w1) := PostSpec(w, Post("check_deploy_status", id));
    if !c.Got? then (Relay(c), w1)
    else
      var reply := c.value;
      if reply.NetworkFailure? then (Threw(Transport(reply.message)), w1)
      else if reply.statusCode > 399 then ErrorResult(w1, reply)
      else
        var status := DeployStatusOf(reply);
        if status.Ok? then (Got(status.value), w1)
        else if status.exc.KeyError? then (Got(ConvertError(status.exc.key)), w1)
        else (Threw(status.exc), w1)
  }

  /** `self.cancel_deployment(async_process_id)`. */
  function CancelDeploymentSpec(w: World, apiVersion: nat, id: string): (r: (Call<Node>, World))
    ensures Extends(w, r.1)
    ensures r.1.posts == w.posts || r.1.posts == w.posts + [Post("cancel_deployment", id)]
    ensures r.0.Got? ==> r.1.result == r.0.value
  {
    var (login, w1) := LoginSpec(w, apiVersion, false);
    if !login.Got? then (login, w1)
    else
      var success := Index(login.value, "success");
      if success.Err? then (Threw(success.exc), w1)
      else if !Truthy(success.value) then (Got(login.value), w1.(result := login.value))
      else
        var (c, w2) := PostSpec(w1, Post("cancel_deployment", id));
        if !c.Got? then (Relay(c), w2)
        else
          var reply := c.value;
          if reply.NetworkFailure? then (Threw(Transport(reply.message)), w2)
          else if reply.statusCode > 399 then ErrorResult(w2, reply)
          else
            var result := ResultOf(reply, "cancelDeployResponse");
            if result.Err? then
              if result.exc.KeyError? then (Got(ConvertError(result.exc.key)), w2.(result := ConvertError(result.exc.key)))
              else (Threw(result.exc), w2)
            else
              var marked := SetItem(result.value, "success", Bool(true));
              if marked.Err? then (Threw(marked.exc), w2) else (Got(marked.value), w2.(result := marked.value))
  }

  // ----- retrieve (metadata.py:142-268) -----

  /** The seconds `retrieve` waits before polling again. */
  function RetrieveDelay(state: Node): nat {
    if state == Str("Queued") then 2 else 1
  }

  /** The polling loop of `retrieve` (metadata.py:221-226), from the status `result`. */
  function PollStatus(w: World, id: string, result: Node): (r: (Call<Node>, World))
    ensures Extends(w, r.1)
    ensures r.1.logins == w.logins && r.1.metadataUrl == w.metadataUrl
    decreases |w.replies|
  {
    var done := Index(result, "done");
    if done.Err? then (Threw(done.exc), w)
    else if done.value != Str("false") then (Got(result), w)
    else
      var state := Index(result, "state");
      if state.Err? then (Threw(state.exc), w)
      else
        var w1 := w.(sleeps := w.sleeps + [RetrieveDelay(state.value)]);
        var (c, w2) := CheckStatusSpec(w1, id);
        if !c.Got? then (c, w2)
        else
          var next := Index(c.value, "state");
          if next.Err? then (Threw(next.exc), w2)
          else PollStatus(w2.(log := w2.log + [RetrieveStatus(next.value)]), id, c.value)
  }

  /** The log after printing some lines, and the exception that stopped the printing, if any. */
  datatype Written = Written(log: seq<LogEntry>, error: Option<Exc>)

  /** The messages of a finished retrieve, each of which must name its file and problem; the
      lines printed before a message that does not stay printed. */
  function MessagesLog(messages: seq<Node>, log: seq<LogEntry>): (r: Written)
    ensures log <= r.log
    decreases |messages|
  {
    if |messages| == 0 then Written(log, None)
    else
      var fileName := Index(messages[0], "fileName");
      if fileName.Err? then Written(log, Some(fileName.exc))
      else
        var problem := Index(messages[0], "problem");
        if problem.Err? then Written(log, Some(problem.exc))
        else MessagesLog(messages[1..], log + [RetrieveMessage(fileName.value, problem.value)])
  }

  /** What `retrieve` does with the answer of `check_retrieve_status` (metadata.py:238-268). */
  function DownloadSpec(w: World, result: Node): (r: (Call<Node>, World))
    ensures Extends(w, r.1)
  {
    var success := Index(result, "success");
    if success.Err? then (Threw(success.exc), w)
    else
      var status := if !Truthy(success.value) then Ok(Str("Failed")) else Index(result, "status");
      if status.Err? then (Threw(status.exc), w)
      else if status.value == Str("Failed") then
        var failed := Map(Put(result.entries, "success", Bool(false)));
        (Got(failed), w.(result := failed))
      else if !HasKey(result.entries, "messages") then (Got(Null), w.(result := result))
      else
        var messages := Iterate(OneOrMany(Get(result.entries, "messages")));
        if messages.Err? then (Threw(messages.exc), w)
        else
          var written := MessagesLog(messages.value, w.log);
          if written.error.Some? then (Threw(written.error.value), w.(log := written.log))
          else (Got(Null), w.(log := written.log, result := result))
  }

  /** What `retrieve` does once polling has stopped at status `result` (metadata.py:229-236). */
  function AfterPollSpec(w: World, id: string, result: Node): (r: (Call<Node>, World))
    ensures Extends(w, r.1)
  {
    var state := Index(result, "state");
    if state.Err? then (Threw(state.exc), w)
    else if state.value == Str("Failed") then (Got(Null), w.(result := result))
    else
      var (c, w1) := CheckRetrieveStatusSpec(w, id);
      if !c.Got? then (c, w1) else DownloadSpec(w1, c.value)
  }

  /** A submitted retrieve job with id `id` (metadata.py:210-268). */
  function RetrieveJobSpec(w: World, id: string): (r: (Call<Node>, World))
    ensures Extends(w, r.1)
  {
    var (c, w1) := CheckStatusSpec(w, id);
    if !c.Got? then (c, w1)
    else
      var success := Index(c.value, "success");
      if success.Err? then (Threw(success.exc), w1)
      else if !Truthy(success.value) then (Got(c.value), w1.(result := c.value))
      else
        var state := Index(c.value, "state");
        if state.Err? then (Threw(state.exc), w1)
        else
          var (d, w2) := PollStatus(w1.(log := w1.log + [RetrieveStatus(state.value)]), id, c.value);
          if !d.Got? then (d, w2) else AfterPollSpec(w2, id, d.value)
  }

  /** `self.retrieve(options)`. An answer marked with an expired session logs in again and starts
      over; every new start takes another reply, which is what bounds the replays here. */
  function RetrieveSpec(w: World, apiVersion: nat, options: string): (r: (Call<Node>, World))
    ensures Extends(w, r.1)
    decreases |w.replies|
  {
    var (login, w1) := LoginSpec(w, apiVersion, false);
    if !login.Got? then (login, w1)
    else
      var loggedIn := LoggedIn(login.value);
      if loggedIn.Err? then (Threw(loggedIn.exc), w1)
      else if !loggedIn.value then (Got(Null), w1)
      else
        var (c, w2) := PostSpec(w1, Post("retrieve", options));
        if !c.Got? then (Relay(c), w2)
        else
          var reply := c.value;
          if reply.NetworkFailure? then
            var error := NetworkError(reply.message, w2.metadataUrl.value, "RETRIEVE");
            (Got(error), w2.(result := error))
          else if Contains(reply.text, SESSION_EXPIRED) then
            var (again, w3) := LoginSpec(w2, apiVersion, true);
            if !again.Got? then (again, w3) else RetrieveSpec(w3, apiVersion, options)
          else if reply.statusCode > 399 then ErrorResult(w2, reply)
          else
            var id := ElementValue(reply, "id");
            if id.Err? then (Threw(id.exc), w2) else RetrieveJobSpec(w2, id.value)
  }

  // ----- deploy (metadata.py:359-584) -----

  /** The test-failure bookkeeping of `deploy`: the next number to print and the failures printed
      so far, by id (`failure_dict`). */
  datatype Progress = Progress(index: nat, seen: Dict<Node, Node>)

  /** The outcome of processing the test failures of one poll: the bookkeeping, the log, and the
      exception raised, if any. */
  datatype Step = Step(progress: Progress, log: seq<LogEntry>, error: Option<Exc>)

  /** The loop over a list of test failures (metadata.py:476-489): a failure whose id was printed
      before is passed over; a new one is printed under the current number, which then goes up
      by one. */
  function FailuresFrom(items: seq<Node>, i: nat, p: Progress, log: seq<LogEntry>): (r: Step)
    ensures log <= r.log
    ensures forall k | |log| <= k < |r.log| :: r.log[k].TestFailure?
    requires i <= |items|
    decreases |items| - i
  {
    if i == |items| then Step(p, log, None)
    else
      var f := items[i];
      var id := Index(f, "id");
      if id.Err? then Step(p, log, Some(id.exc))
      else if Hashable(id.value).Err? then Step(p, log, Some(Hashable(id.value).exc))
      else if HasKey(p.seen, id.value) then FailuresFrom(items, i + 1, p, log)
      else
        var seen := Put(p.seen, id.value, f);
        var message := Index(f, "message");
        if message.Err? then Step(p.(seen := seen), log, Some(message.exc))
        else
          var trace := Index(f, "stackTrace");
          var printed := log + [TestFailure(p.index, id.value, message.value, TraceLines(trace))];
          if trace.Err? then Step(p.(seen := seen), printed, Some(trace.exc))
          else FailuresFrom(items, i + 1, Progress(p.index + 1, seen), printed)
  }

  /** The lines of a stack trace as printed: `stackTrace.split("\n")` when it is a string, and none
      when it is missing or not a string (the loop then prints none, or raises). */
  function TraceLines(trace: Result<Node>): (r: seq<string>)
    ensures trace.Ok? && trace.value.Str? ==> Join("\n", r) == trace.value.s && forall k | 0 <= k < |r| :: '\n' !in r[k]
    ensures !(trace.Ok? && trace.value.Str?) ==> r == []
  {
    if trace.Ok? && trace.value.Str? then
      SplitJoin(trace.value.s, '\n');
      Split(trace.value.s, '\n')
    else []
  }

  /** `body["details"]["runTestResult"]["failures"]`, when the run reports failures. */
  function TestFailures(body: Node): Result<Option<Node>> {
    var details :- Index(body, "details");
    var hasResult :- In("runTestResult", details);
    if !hasResult then Ok(None)
    else
      var runTestResult :- Index(details, "runTestResult");
      var hasFailures :- In("failures", runTestResult);
      if !hasFailures then Ok(None)
      else
        var failures :- Index(runTestResult, "failures");
        Ok(Some(failures))
  }

  /** A lone test failure (metadata.py:461-473): a new one is printed and DOUBLES the number
      (`index += index`); its stack trace is split without a check that it is a string. */
  function LoneFailure(f: Node, p: Progress, log: seq<LogEntry>): (r: Step)
    ensures log <= r.log
    ensures forall k | |log| <= k < |r.log| :: r.log[k].TestFailure?
    requires f.Map?
  {
    if !HasKey(f.entries, "id") then Step(p, log, Some(KeyError("id")))
    else
      var id := Get(f.entries, "id");
      if Hashable(id).Err? then Step(p, log, Some(Hashable(id).exc))
      else if HasKey(p.seen, id) then Step(p, log, None)
      else
        var seen := Put(p.seen, id, f);
        var message := Index(f, "message");
        if message.Err? then Step(p.(seen := seen), log, Some(message.exc))
        else
          var trace := Index(f, "stackTrace");
          var printed := log + [TestFailure(p.index, id, message.value, TraceLines(trace))];
          if trace.Err? then Step(p.(seen := seen), printed, Some(trace.exc))
          else if !trace.value.Str? then Step(p.(seen := seen), printed, Some(AttributeError("split")))
          else Step(Progress(p.index + p.index, seen), printed, None)
  }

  /** The status line of one round of the polling loop of `deploy` (metadata.py:434-453). With
      a `stateDetail`, both counts of components are read as integers; while fewer components
      are deployed than there are, the line shows the components, otherwise the tests. */
  function StatusLine(body: Node, status: Node): (r: Result<LogEntry>)
    ensures r.Ok? ==> r.value.DeployStatus? && r.value.status == status
  {
    var hasDetail :- In("stateDetail", body);
    if !hasDetail then Ok(DeployStatus(status, None))
    else
      var deployedNode :- Index(body, "numberComponentsDeployed");
      var deployed :- IntOf(deployedNode);
      var totalNode :- Index(body, "numberComponentsTotal");
      var total :- IntOf(totalNode);
      var (doneKey, allKey) := if deployed < total then ("numberComponentsDeployed", "numberComponentsTotal")
        else ("numberTestsCompleted", "numberTestsTotal");
      var done :- Index(body, doneKey);
      var all :- Index(body, allKey);
      // `body` is a dictionary holding `stateDetail`, since its counts were found in it
      var detail := Get(body.entries, "stateDetail");
      Ok(DeployStatus(status, Some((done, all, detail))))
  }

  /** One round of the polling loop of `deploy` up to its wait: the status line, then the new
      test failures (metadata.py:434-489). */
  function PollRound(body: Node, status: Node, p: Progress, log: seq<LogEntry>): (r: Step)
    ensures log <= r.log
    ensures forall k | |log| < k < |r.log| :: r.log[k].TestFailure?
    ensures |r.log| > |log| ==> r.log[|log|].DeployStatus? && r.log[|log|].status == status
    ensures r.error.None? ==> |r.log| > |log|
  {
    var line := StatusLine(body, status);
    if line.Err? then Step(p, log, Some(line.exc)) else ProcessFailures(body, p, log + [line.value])
  }

  /** The test failures of one poll (metadata.py:457-489): a dictionary is a lone failure, a
      list goes through `FailuresFrom`, anything else is passed over. */
  function ProcessFailures(body: Node, p: Progress, log: seq<LogEntry>): (r: Step)
    ensures log <= r.log
    ensures forall k | |log| <= k < |r.log| :: r.log[k].TestFailure?
  {
    var failures := TestFailures(body);
    if failures.Err? then Step(p, log, Some(failures.exc))
    else if failures.value.None? then Step(p, log, None)
    else
      var f := failures.value.value;
      if f.Map? then LoneFailure(f, p, log)
      else if f.List? then FailuresFrom(f.items, 0, p, log)
      else Step(p, log, None)
  }

  /** The message of the `n`-th component failure; a missing line or column is shown as 0. */
  function ComponentMessage(failure: Node, n: nat): Result<string> {
    var fileName :- Index(failure, "fileName");
    var problemType :- Index(failure, "problemType");
    var problem :- Index(failure, "problem");
    var hasLine :- In("lineNumber", failure);
    var line :- if hasLine then Index(failure, "lineNumber") else Ok(Str("0"));
    var hasColumn :- In("columnNumber", failure);
    var column :- if hasColumn then Index(failure, "columnNumber") else Ok(Str("0"));
    Ok(DecimalString(n) + ". " + Show(fileName) + " -- " + Show(problemType) + ": " + Show(problem)
       + " (line " + Show(line) + " column " + Show(column) + ")")
  }

  /** The outcome of the message of each component failure, numbered from 1. */
  function ComponentOutcomes(failures: seq<Node>): (r: seq<Result<string>>)
    ensures |r| == |failures|
    ensures forall k | 0 <= k < |failures| :: r[k] == ComponentMessage(failures[k], k + 1)
  {
    seq(|failures|, k requires 0 <= k < |failures| => ComponentMessage(failures[k], k + 1))
  }

  /** The coverage warnings from position `i` on; a warning whose name is not a string is
      passed over. */
  function WarningsFrom(warnings: seq<Node>, i: nat): Result<seq<string>>
    requires i <= |warnings|
    decreases |warnings| - i
  {
    if i == |warnings| then Ok([])
    else
      var name :- Index(warnings[i], "name");
      if !name.Str? then WarningsFrom(warnings, i + 1)
      else
        var message :- Index(warnings[i], "message");
        var rest :- WarningsFrom(warnings, i + 1);
        Ok([name.s + " -- " + Show(message)] + rest)
  }

  /** The component failures of a failed deployment, or its error message when it has none
      (metadata.py:516-535). */
  function FailuresReport(body: Node): Result<(seq<string>, Option<string>)> {
    var details :- Index(body, "details");
    var hasFailures :- In("componentFailures", details);
    if hasFailures then
      var componentFailures :- Index(details, "componentFailures");
      var failures :- Iterate(OneOrMany(componentFailures));
      var messages :- Collect(ComponentOutcomes(failures));
      Ok((messages, None))
    else
      var hasError :- In("errorMessage", body);
      if !hasError then Ok(([], None))
      else
        var error :- Index(body, "errorMessage");
        var message :- AsStr(error);
        Ok(([], Some(message)))
  }

  /** The coverage warnings of a failed deployment (metadata.py:537-549). */
  function WarningsReport(body: Node): Result<seq<string>> {
    var details :- Index(body, "details");
    var hasResult :- In("runTestResult", details);
    if !hasResult then Ok([])
    else
      var runTestResult :- Index(details, "runTestResult");
      var hasWarnings :- In("codeCoverageWarnings", runTestResult);
      if !hasWarnings then Ok([])
      else
        var coverageWarnings :- Index(runTestResult, "codeCoverageWarnings");
        var warnings :- Iterate(OneOrMany(coverageWarnings));
        WarningsFrom(warnings, 0)
  }

  /** The report of a failed deployment (metadata.py:507-563). */
  function FailedSpec(w: World, body: Node): (r: (Call<Node>, World))
    ensures Extends(w, r.1)
    ensures r.1.posts == w.posts && r.1.sleeps == w.sleeps && r.1.result == w.result
    ensures r.0.Got? ==> r.0.value == Null
    ensures forall k | |w.log| <= k < |r.1.log| :: !r.1.log[k].TestFailure? && !r.1.log[k].DeployStatus?
  {
    var failures := FailuresReport(body);
    if failures.Err? then (Threw(failures.exc), w)
    else
      var (messages, error) := failures.value;
      var w1 := if error.Some? then w.(log := w.log + [ErrorMessage(error.value)]) else w;
      var warnings := WarningsReport(body);
      if warnings.Err? then (Threw(warnings.exc), w1)
      else
        var report := (if |messages| > 0 then [ComponentFailures(messages)] else [])
          + (if |warnings.value| > 0 then [CoverageWarnings(warnings.value)] else []);
        (Got(Null), w1.(log := w1.log + report))
  }

  /** The seconds `deploy` waits before polling again. */
  function DeployDelay(status: Node): nat {
    if status == Str("Pending") then 2 else 1
  }

  /** The polling loop of `deploy` (metadata.py:433-496) and the report that follows it
      (metadata.py:498-570), from the answer `result` with body `body`. A loop that completes
      gives back its last answer, which the code reads after the loop; none of the answers
      becomes `self.result`. */
  function DeployPoll(w: World, id: string, result: Node, body: Node, p: Progress): (r: (Call<Node>, World))
    ensures Extends(w, r.1)
    ensures r.1.logins == w.logins && r.1.metadataUrl == w.metadataUrl
    decreases |w.replies|
  {
    var status := Index(body, "status");
    if status.Err? then (Threw(status.exc), w)
    else if status.value in BUSY then
      var step := PollRound(body, status.value, p, w.log);
      var w1 := w.(log := step.log);
      if step.error.Some? then (Threw(step.error.value), w1)
      else
        var w2 := w1.(sleeps := w1.sleeps + [DeployDelay(status.value)]);
        var (c, w3) := CheckDeployStatusSpec(w2, id);
        if !c.Got? then (c, w3)
        else
          var next := Index(c.value, "body");
          if next.Err? then (Threw(next.exc), w3)
          else DeployPoll(w3, id, c.value, next.value, step.progress)
    else if status.value == Str("Failed") then
      var (c, w1) := FailedSpec(w, body);
      (if c.Got? then Got(result) else c, w1)
    else (Got(result), w)
  }

  /** Whether the last answer of a deployment carries a debug log to show (metadata.py:577):
      it has a truthy `header` that contains `debugLog`. */
  function HasDebugLog(result: Node): (r: Result<bool>)
    ensures result.Map? && (!HasKey(result.entries, "header") || !Truthy(Get(result.entries, "header"))) ==> r == Ok(false)
    ensures result.Map? && HasKey(result.entries, "header") && Get(result.entries, "header").Map? ==>
      r == Ok(HasKey(Get(result.entries, "header").entries, "debugLog"))
  {
    var hasHeader :- In("header", result);
    if !hasHeader then Ok(false)
    else
      var header :- Index(result, "header");
      if !Truthy(header) then Ok(false) else In("debugLog", header)
  }

  /** A submitted deployment with id `id` (metadata.py:427-584): the last answer of the polling
      loop becomes `self.result`, and `deploy` returns `None`. */
  function DeployJobSpec(w: World, id: string): (r: (Call<Node>, World))
    ensures Extends(w, r.1)
  {
    var (c, w1) := CheckDeployStatusSpec(w, id);
    if !c.Got? then (c, w1)
    else
      var body := Index(c.value, "body");
      if body.Err? then (Threw(body.exc), w1)
      else
        var (d, w2) := DeployPoll(w1, id, c.value, body.value, Progress(1, []));
        if !d.Got? then (d, w2)
        else
          var debug := HasDebugLog(d.value);
          if debug.Err? then (Threw(debug.exc), w2)
          else
            // the view is given `result["header"]["debugLog"]`, which raises on a header that is not a dictionary
            var debugLog := if debug.value then Path(d.value, ["header", "debugLog"]) else Ok(Null);
            if debugLog.Err? then (Threw(debugLog.exc), w2) else (Got(Null), w2.(result := d.value))
  }

  /** `self.deploy(base64_zip)`; an expired session is handled as in `retrieve`. */
  function DeploySpec(w: World, apiVersion: nat, zip: string): (r: (Call<Node>, World))
    ensures Extends(w, r.1)
    decreases |w.replies|
  {
    var (login, w1) := LoginSpec(w, apiVersion, false);
    if !login.Got? then (login, w1)
    else
      var loggedIn := LoggedIn(login.value);
      if loggedIn.Err? then (Threw(loggedIn.exc), w1)
      else if !loggedIn.value then (Got(Null), w1)
      else
        var (c, w2) := PostSpec(w1, Post("deploy", zip));
        if !c.Got? then (Relay(c), w2)
        else
          var reply := c.value;
          if reply.NetworkFailure? then
            var error := NetworkError(reply.message, w2.metadataUrl.value, "DEPLOY");
            (Got(error), w2.(result := error))
          else if Contains(reply.text, SESSION_EXPIRED) then
            var (again, w3) := LoginSpec(w2, apiVersion, true);
            if !again.Got? then (again, w3) else DeploySpec(w3, apiVersion, zip)
          else if reply.statusCode > 399 then ErrorResult(w2, reply)
          else
            var id := ElementValue(reply, "id");
            if id.Err? then (Threw(id.exc), w2) else DeployJobSpec(w2, id.value)
  }
}
