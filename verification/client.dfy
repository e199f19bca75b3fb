/** The `MetadataApi` object of salesforce/api/metadata.py: `metadata_url` and `result` are the
    fields its methods update; the scripted login answers, server replies, waits and log lines
    of its surroundings are fields too, so that every method states its whole effect as the
    matching function of `Jobs` applied to the state it started from. */
module Client {
  import opened Strings
  import opened Values
  import opened Jobs

  /** The messages of the component failures, numbered from 1 (metadata.py:520-533). */
  method ComponentMessages(failures: seq<Node>) returns (r: Result<seq<string>>)
    ensures r == Collect(ComponentOutcomes(failures))
  {
    ghost var outcomes := ComponentOutcomes(failures);
    var messages: seq<string> := [];
    var i := 0;
    AfterNothing(Collect(outcomes));
    while i < |failures|
      invariant 0 <= i <= |failures|
      invariant After(messages, Collect(outcomes[i..])) == Collect(outcomes)
      decreases |failures| - i
    {
      var message := ComponentMessage(failures[i], i + 1);
      CollectStep(outcomes, i, messages);
      if message.Err? {
        return Err(message.exc);
      }
      messages := messages + [message.value];
      i := i + 1;
    }
    assert outcomes[i..] == [];
    assert messages + [] == messages;
    r := Ok(messages);
  }

  /** The coverage warnings whose name is a string (metadata.py:541-549). */
  method CoverageMessages(warnings: seq<Node>) returns (r: Result<seq<string>>)
    ensures r == WarningsFrom(warnings, 0)
  {
    var messages: seq<string> := [];
    var i := 0;
    match WarningsFrom(warnings, 0) {
      case Ok(rest) => assert [] + rest == rest;
      case Err(_) =>
    }
    while i < |warnings|
      invariant 0 <= i <= |warnings|
      invariant WarningsFrom(warnings, 0) == match WarningsFrom(warnings, i)
        case Ok(rest) => Ok(messages + rest)
        case Err(e) => Err(e)
      decreases |warnings| - i
    {
      var name := Index(warnings[i], "name");
      if name.Err? {
        return Err(name.exc);
      }
      if name.value.Str? {
        var message := Index(warnings[i], "message");
        if message.Err? {
          return Err(message.exc);
        }
        var line := name.value.s + " -- " + Show(message.value);
        match WarningsFrom(warnings, i + 1) {
          case Ok(rest) => assert messages + [line] + rest == messages + ([line] + rest);
          case Err(_) =>
        }
        messages := messages + [line];
      }
      i := i + 1;
    }
    assert WarningsFrom(warnings, i) == Ok([]);
    assert messages + [] == messages;
    r := Ok(messages);
  }

  /** The component failures, or the error message, of a failed deployment. */
  method CollectFailures(body: Node) returns (r: Result<(seq<string>, Option<string>)>)
    ensures r == FailuresReport(body)
  {
    var details :- Index(body, "details");
    var hasFailures :- In("componentFailures", details);
    if hasFailures {
      var componentFailures :- Index(details, "componentFailures");
      var failures :- Iterate(OneOrMany(componentFailures));
      var messages :- ComponentMessages(failures);
      return Ok((messages, None));
    }
    // `body` is a dictionary, since `body["details"]` was found
    if !HasKey(body.entries, "errorMessage") {
      return Ok(([], None));
    }
    var message :- AsStr(Get(body.entries, "errorMessage"));
    r := Ok(([], Some(message)));
  }

  /** The coverage warnings of a failed deployment. */
  method CollectWarnings(body: Node) returns (r: Result<seq<string>>)
    ensures r == WarningsReport(body)
  {
    var details :- Index(body, "details");
    var hasResult :- In("runTestResult", details);
    if !hasResult {
      return Ok([]);
    }
    var runTestResult :- Index(details, "runTestResult");
    var hasWarnings :- In("codeCoverageWarnings", runTestResult);
    if !hasWarnings {
      return Ok([]);
    }
    var coverageWarnings :- Index(runTestResult, "codeCoverageWarnings");
    var warnings :- Iterate(OneOrMany(coverageWarnings));
    r := CoverageMessages(warnings);
  }

  class MetadataApi {
    const apiVersion: nat
    var metadataUrl: Option<string>
    var result: Node
    var logins: seq<Node>
    var loginCalls: seq<bool>
    var replies: seq<Reply>
    var posts: seq<Post>
    var sleeps: seq<nat>
    var log: seq<LogEntry>

    function State(): World
      reads this
    {
      World(metadataUrl, result, logins, loginCalls, replies, posts, sleeps, log)
    }

    /** A client for API version `apiVersion` that has not logged in yet. */
    constructor(apiVersion: nat, logins: seq<Node>, replies: seq<Reply>)
      ensures this.apiVersion == apiVersion
      ensures State() == World(None, Null, logins, [], replies, [], [], [])
    {
      this.apiVersion := apiVersion;
      metadataUrl := None;
      result := Null;
      this.logins := logins;
      loginCalls := [];
      this.replies := replies;
      posts := [];
      sleeps := [];
      log := [];
    }

    method Login(expired: bool) returns (c: Call<Node>)
      modifies this
      ensures (c, State()) == LoginSpec(old(State()), apiVersion, expired)
    {
      if |logins| == 0 {
        return RanOut;
      }
      var reply := logins[0];
      logins, loginCalls := logins[1..], loginCalls + [expired];
      var success := Index(reply, "success");
      if success.Err? {
        return Threw(success.exc);
      }
      if !Truthy(success.value) {
        result := reply;
        return Got(reply);
      }
      var instanceUrl := Index(reply, "instance_url");
      if instanceUrl.Err? {
        return Threw(instanceUrl.exc);
      }
      var url := AsStr(instanceUrl.value);
      if url.Err? {
        return Threw(url.exc);
      }
      metadataUrl := Some(url.value + "/services/Soap/m/" + DecimalString(apiVersion) + ".0");
      result := reply;
      c := Got(reply);
    }

    method Send(request: Post) returns (c: Call<Reply>)
      modifies this
      ensures (c, State()) == PostSpec(old(State()), request)
    {
      if metadataUrl.None? {
        return Threw(AttributeError(NO_ENDPOINT));
      }
      if |replies| == 0 {
        return RanOut;
      }
      c := Got(replies[0]);
      replies, posts := replies[1..], posts + [request];
    }

    method StoreError(reply: Reply) returns (c: Call<Node>)
      requires reply.Answer?
      modifies this
      ensures (c, State()) == ErrorResult(old(State()), reply)
    {
      var error := ResponseError(reply);
      if error.Err? {
        return Threw(error.exc);
      }
      result := error.value;
      c := Got(error.value);
    }

    method CheckStatus(id: string) returns (c: Call<Node>)
      modifies this
      ensures (c, State()) == CheckStatusSpec(old(State()), id)
    {
      var sent := Send(Post("check_status", id));
      if !sent.Got? {
        return Relay(sent);
      }
      var reply := sent.value;
      if reply.NetworkFailure? {
        return Threw(Transport(reply.message));
      }
      if reply.statusCode > 399 {
        c := StoreError(reply);
        return;
      }
      var answer := ResultOf(reply, "checkStatusResponse");
      if answer.Err? {
        return Threw(answer.exc);
      }
      result := answer.value;
      var marked := SetItem(answer.value, "success", Bool(true));
      if marked.Err? {
        return Threw(marked.exc);
      }
      result := marked.value;
      c := Got(marked.value);
    }

    method CheckRetrieveStatus(id: string) returns (c: Call<Node>)
      modifies this
      ensures (c, State()) == CheckRetrieveStatusSpec(old(State()), id)
    {
      var sent := Send(Post("check_retrieve_status", id));
      if !sent.Got? {
        return Relay(sent);
      }
      var reply := sent.value;
      if reply.NetworkFailure? {
        var error := NetworkError(reply.message, metadataUrl.value, "RETRIEVE");
        result := error;
        return Got(error);
      }
      if reply.statusCode > 399 {
        c := StoreError(reply);
        return;
      }
      var answer := ResultOf(reply, "checkRetrieveStatusResponse");
      if answer.Err? {
        return Threw(answer.exc);
      }
      var marked := SetItem(answer.value, "success", Bool(reply.statusCode < 399));
      if marked.Err? {
        return Threw(marked.exc);
      }
      c := Got(marked.value);
    }

    method CheckDeployStatus(id: string) returns (c: Call<Node>)
      modifies this
      ensures (c, State()) == CheckDeployStatusSpec(old(State()), id)
    {
      var sent := Send(Post("check_deploy_status", id));
      if !sent.Got? {
        return Relay(sent);
      }
      var reply := sent.value;
      if reply.NetworkFailure? {
        return Threw(Transport(reply.message));
      }
      if reply.statusCode > 399 {
        c := StoreError(reply);
        return;
      }
      var status := DeployStatusOf(reply);
      if status.Ok? {
        return Got(status.value);
      }
      if status.exc.KeyError? {
        return Got(ConvertError(status.exc.key));
      }
      c := Threw(status.exc);
    }

    method CancelDeployment(id: string) returns (c: Call<Node>)
      modifies this
      ensures (c, State()) == CancelDeploymentSpec(old(State()), apiVersion, id)
    {
      var login := Login(false);
      if !login.Got? {
        return login;
      }
      var success := Index(login.value, "success");
      if success.Err? {
        return Threw(success.exc);
      }
      if !Truthy(success.value) {
        result := login.value;
        return login;
      }
      var sent := Send(Post("cancel_deployment", id));
      if !sent.Got? {
        return Relay(sent);
      }
      var reply := sent.value;
      if reply.NetworkFailure? {
        return Threw(Transport(reply.message));
      }
      if reply.statusCode > 399 {
        c := StoreError(reply);
        return;
      }
      var answer := ResultOf(reply, "cancelDeployResponse");
      if answer.Err? {
        if answer.exc.KeyError? {
          result := ConvertError(answer.exc.key);
          return Got(result);
        }
        return Threw(answer.exc);
      }
      var marked := SetItem(answer.value, "success", Bool(true));
      if marked.Err? {
        return Threw(marked.exc);
      }
      result := marked.value;
      c := Got(marked.value);
    }

    // ----- retrieve -----

    /** Polls `check_status` while the job is not done (metadata.py:221-226). */
    method AwaitRetrieve(id: string, status: Node) returns (c: Call<Node>)
      modifies this
      ensures (c, State()) == PollStatus(old(State()), id, status)
    {
      var current := status;
      while true
        invariant PollStatus(State(), id, current) == PollStatus(old(State()), id, status)
        decreases |replies|
      {
        var done := Index(current, "done");
        if done.Err? {
          return Threw(done.exc);
        }
        if done.value != Str("false") {
          return Got(current);
        }
        var state := Index(current, "state");
        if state.Err? {
          return Threw(state.exc);
        }
        sleeps := sleeps + [RetrieveDelay(state.value)];
        var polled := CheckStatus(id);
        if !polled.Got? {
          return polled;
        }
        var next := Index(polled.value, "state");
        if next.Err? {
          return Threw(next.exc);
        }
        log := log + [RetrieveStatus(next.value)];
        current := polled.value;
      }
    }

    /** Prints the messages of a finished retrieve (metadata.py:247-256). */
    method PrintMessages(messages: seq<Node>) returns (error: Option<Exc>)
      modifies this
      ensures State() == old(State()).(log := MessagesLog(messages, old(log)).log)
      ensures error == MessagesLog(messages, old(log)).error
    {
      var i := 0;
      while i < |messages|
        invariant 0 <= i <= |messages|
        invariant State() == old(State()).(log := log)
        invariant MessagesLog(messages[i..], log) == MessagesLog(messages, old(log))
        decreases |messages| - i
      {
        assert messages[i..][0] == messages[i] && messages[i..][1..] == messages[i + 1..];
        var fileName := Index(messages[i], "fileName");
        if fileName.Err? {
          return Some(fileName.exc);
        }
        var problem := Index(messages[i], "problem");
        if problem.Err? {
          return Some(problem.exc);
        }
        log := log + [RetrieveMessage(fileName.value, problem.value)];
        i := i + 1;
      }
      error := None;
    }

    method Download(answer: Node) returns (c: Call<Node>)
      modifies this
      ensures (c, State()) == DownloadSpec(old(State()), answer)
    {
      var success := Index(answer, "success");
      if success.Err? {
        return Threw(success.exc);
      }
      var status := if !Truthy(success.value) then Ok(Str("Failed")) else Index(answer, "status");
      if status.Err? {
        return Threw(status.exc);
      }
      if status.value == Str("Failed") {
        result := Map(Put(answer.entries, "success", Bool(false)));
        return Got(result);
      }
      if !HasKey(answer.entries, "messages") {
        result := answer;
        return Got(Null);
      }
      var messages := Iterate(OneOrMany(Get(answer.entries, "messages")));
      if messages.Err? {
        return Threw(messages.exc);
      }
      var error := PrintMessages(messages.value);
      if error.Some? {
        return Threw(error.value);
      }
      result := answer;
      c := Got(Null);
    }

    method AfterPoll(id: string, status: Node) returns (c: Call<Node>)
      modifies this
      ensures (c, State()) == AfterPollSpec(old(State()), id, status)
    {
      var state := Index(status, "state");
      if state.Err? {
        return Threw(state.exc);
      }
      if state.value == Str("Failed") {
        result := status;
        return Got(Null);
      }
      var answer := CheckRetrieveStatus(id);
      if !answer.Got? {
        return answer;
      }
      c := Download(answer.value);
    }

    method RetrieveJob(id: string) returns (c: Call<Node>)
      modifies this
      ensures (c, State()) == RetrieveJobSpec(old(State()), id)
    {
      var status := CheckStatus(id);
      if !status.Got? {
        return status;
      }
      var success := Index(status.value, "success");
      if success.Err? {
        return Threw(success.exc);
      }
      if !Truthy(success.value) {
        result := status.value;
        return status;
      }
      var state := Index(status.value, "state");
      if state.Err? {
        return Threw(state.exc);
      }
      log := log + [RetrieveStatus(state.value)];
      var final := AwaitRetrieve(id, status.value);
      if !final.Got? {
        return final;
      }
      c := AfterPoll(id, final.value);
    }

    /** `retrieve(options)`. */
    method Retrieve(options: string) returns (c: Call<Node>)
      modifies this
      ensures (c, State()) == RetrieveSpec(old(State()), apiVersion, options)
      decreases |replies|
    {
      var login := Login(false);
      if !login.Got? {
        return login;
      }
      var loggedIn := LoggedIn(login.value);
      if loggedIn.Err? {
        return Threw(loggedIn.exc);
      }
      if !loggedIn.value {
        return Got(Null);
      }
      var sent := Send(Post("retrieve", options));
      if !sent.Got? {
        return Relay(sent);
      }
      var reply := sent.value;
      if reply.NetworkFailure? {
        result := NetworkError(reply.message, metadataUrl.value, "RETRIEVE");
        return Got(result);
      }
      if Contains(reply.text, SESSION_EXPIRED) {
        var again := Login(true);
        if !again.Got? {
          return again;
        }
        c := Retrieve(options);
        return;
      }
      if reply.statusCode > 399 {
        c := StoreError(reply);
        return;
      }
      var id := ElementValue(reply, "id");
      if id.Err? {
        return Threw(id.exc);
      }
      c := RetrieveJob(id.value);
    }

    // ----- deploy -----

    /** Prints the status line and the new test failures of one poll (metadata.py:434-489). */
    method ReportRound(body: Node, status: Node, p: Progress) returns (next: Progress, error: Option<Exc>)
      modifies this
      ensures State() == old(State()).(log := PollRound(body, status, p, old(log)).log)
      ensures Step(next, log, error) == PollRound(body, status, p, old(log))
    {
      var line := StatusLine(body, status);
      if line.Err? {
        return p, Some(line.exc);
      }
      log := log + [line.value];
      next, error := ReportTestFailures(body, p);
    }

    /** Prints the new test failures of one poll (metadata.py:457-489). */
    method ReportTestFailures(body: Node, p: Progress) returns (next: Progress, error: Option<Exc>)
      modifies this
      ensures State() == old(State()).(log := ProcessFailures(body, p, old(log)).log)
      ensures Step(next, log, error) == ProcessFailures(body, p, old(log))
    {
      var failures := TestFailures(body);
      if failures.Err? {
        return p, Some(failures.exc);
      }
      if failures.value.None? {
        return p, None;
      }
      var f := failures.value.value;
      if f.Map? {
        next, error := ReportLoneFailure(f, p);
      } else if f.List? {
        next, error := ReportFailureList(f.items, p);
      } else {
        next, error := p, None;
      }
    }

    method ReportLoneFailure(f: Node, p: Progress) returns (next: Progress, error: Option<Exc>)
      requires f.Map?
      modifies this
      ensures State() == old(State()).(log := LoneFailure(f, p, old(log)).log)
      ensures Step(next, log, error) == LoneFailure(f, p, old(log))
    {
      if !HasKey(f.entries, "id") {
        return p, Some(KeyError("id"));
      }
      var id := Get(f.entries, "id");
      var key := Hashable(id);
      if key.Err? {
        return p, Some(key.exc);
      }
      if HasKey(p.seen, id) {
        return p, None;
      }
      var seen := Put(p.seen, id, f);
      var message := Index(f, "message");
      if message.Err? {
        return p.(seen := seen), Some(message.exc);
      }
      var trace := Index(f, "stackTrace");
      log := log + [TestFailure(p.index, id, message.value, TraceLines(trace))];
      if trace.Err? {
        return p.(seen := seen), Some(trace.exc);
      }
      if !trace.value.Str? {
        return p.(seen := seen), Some(AttributeError("split"));
      }
      next, error := Progress(p.index + p.index, seen), None;
    }

    method ReportFailureList(items: seq<Node>, p: Progress) returns (next: Progress, error: Option<Exc>)
      modifies this
      ensures State() == old(State()).(log := FailuresFrom(items, 0, p, old(log)).log)
      ensures Step(next, log, error) == FailuresFrom(items, 0, p, old(log))
    {
      next := p;
      var i := 0;
      while i < |items|
        invariant 0 <= i <= |items|
        invariant State() == old(State()).(log := log)
        invariant FailuresFrom(items, i, next, log) == FailuresFrom(items, 0, p, old(log))
        decreases |items| - i
      {
        var id := Index(items[i], "id");
        if id.Err? {
          return next, Some(id.exc);
        }
        var key := Hashable(id.value);
        if key.Err? {
          return next, Some(key.exc);
        }
        if !HasKey(next.seen, id.value) {
          var seen := Put(next.seen, id.value, items[i]);
          var message := Index(items[i], "message");
          if message.Err? {
            return next.(seen := seen), Some(message.exc);
          }
          var trace := Index(items[i], "stackTrace");
          log := log + [TestFailure(next.index, id.value, message.value, TraceLines(trace))];
          if trace.Err? {
            return next.(seen := seen), Some(trace.exc);
          }
          next := Progress(next.index + 1, seen);
        }
        i := i + 1;
      }
      error := None;
    }

    /** The report of a failed deployment (metadata.py:507-563). */
    method ReportFailed(body: Node) returns (c: Call<Node>)
      modifies this
      ensures (c, State()) == FailedSpec(old(State()), body)
    {
      var failures := CollectFailures(body);
      if failures.Err? {
        return Threw(failures.exc);
      }
      var (messages, error) := failures.value;
      if error.Some? {
        log := log + [ErrorMessage(error.value)];
      }
      var warnings := CollectWarnings(body);
      if warnings.Err? {
        return Threw(warnings.exc);
      }
      var report := (if |messages| > 0 then [ComponentFailures(messages)] else [])
        + (if |warnings.value| > 0 then [CoverageWarnings(warnings.value)] else []);
      log := log + report;
      c := Got(Null);
    }

    /** Polls `check_deploy_status` while the deployment is busy, then reports, and gives back
        the last answer (metadata.py:433-570). */
    method AwaitDeploy(id: string, answer: Node, body: Node, p: Progress) returns (c: Call<Node>)
      modifies this
      ensures (c, State()) == DeployPoll(old(State()), id, answer, body, p)
    {
      var current, currentBody, progress := answer, body, p;
      while true
        invariant DeployPoll(State(), id, current, currentBody, progress) == DeployPoll(old(State()), id, answer, body, p)
        decreases |replies|
      {
        var status := Index(currentBody, "status");
        if status.Err? {
          return Threw(status.exc);
        }
        if status.value !in BUSY {
          if status.value == Str("Failed") {
            c := ReportFailed(currentBody);
            if c.Got? {
              c := Got(current);
            }
            return;
          }
          return Got(current);
        }
        var error;
        progress, error := ReportRound(currentBody, status.value, progress);
        if error.Some? {
          return Threw(error.value);
        }
        sleeps := sleeps + [DeployDelay(status.value)];
        var polled := CheckDeployStatus(id);
        if !polled.Got? {
          return polled;
        }
        var next := Index(polled.value, "body");
        if next.Err? {
          return Threw(next.exc);
        }
        current, currentBody := polled.value, next.value;
      }
    }

    method DeployJob(id: string) returns (c: Call<Node>)
      modifies this
      ensures (c, State()) == DeployJobSpec(old(State()), id)
    {
      var status := CheckDeployStatus(id);
      if !status.Got? {
        return status;
      }
      var body := Index(status.value, "body");
      if body.Err? {
        return Threw(body.exc);
      }
      c := AwaitDeploy(id, status.value, body.value, Progress(1, []));
      if c.Got? {
        var debug := HasDebugLog(c.value);
        if debug.Err? {
          return Threw(debug.exc);
        }
        var debugLog := if debug.value then Path(c.value, ["header", "debugLog"]) else Ok(Null);
        if debugLog.Err? {
          return Threw(debugLog.exc);
        }
        result := c.value;
        c := Got(Null);
      }
    }

    /** `deploy(base64_zip)`. */
    method Deploy(zip: string) returns (c: Call<Node>)
      modifies this
      ensures (c, State()) == DeploySpec(old(State()), apiVersion, zip)
      decreases |replies|
    {
      var login := Login(false);
      if !login.Got? {
        return login;
      }
      var loggedIn := LoggedIn(login.value);
      if loggedIn.Err? {
        return Threw(loggedIn.exc);
      }
      if !loggedIn.value {
        return Got(Null);
      }
      var sent := Send(Post("deploy", zip));
      if !sent.Got? {
        return Relay(sent);
      }
      var reply := sent.value;
      if reply.NetworkFailure? {
        result := NetworkError(reply.message, metadataUrl.value, "DEPLOY");
        return Got(result);
      }
      if Contains(reply.text, SESSION_EXPIRED) {
        var again := Login(true);
        if !again.Got? {
          return again;
        }
        c := Deploy(zip);
        return;
      }
      if reply.statusCode > 399 {
        c := StoreError(reply);
        return;
      }
      var id := ElementValue(reply, "id");
      if id.Err? {
        return Threw(id.exc);
      }
      c := DeployJob(id.value);
    }
  }
}
