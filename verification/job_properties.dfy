/** What the retrieve and deploy jobs promise, proved of the functions of `Jobs` (and so of the
    methods of `Client.MetadataApi`, which are equal to them). */
module JobProperties {
  import opened Strings
  import opened Values
  import opened Jobs

  // ----- error results -----

  /** An answer with an error status becomes a failure carrying the fault code and string of a
      SOAP fault (status 500) or the error code and message otherwise; it exists exactly when
      both elements are present. */
  lemma ResponseErrorShape(reply: Reply)
    requires reply.Answer?
    ensures var (code, message) := if reply.statusCode == 500 then ("faultcode", "faultstring") else ("errorCode", "message");
      && (ResponseError(reply).Ok? <==> code in reply.elements && message in reply.elements)
      && (ResponseError(reply).Ok? ==>
            && Index(ResponseError(reply).value, "success") == Ok(Bool(false))
            && Index(ResponseError(reply).value, "Error Code") == Ok(Str(reply.elements[code]))
            && Index(ResponseError(reply).value, "Error Message") == Ok(Str(reply.elements[message])))
  {
    if ResponseError(reply).Ok? {
      var entries := ResponseError(reply).value.entries;
      GetAt(entries, 0);
      GetAt(entries, 1);
      GetAt(entries, 2);
    }
  }

  /** The failure made of a `KeyError` says so and carries the missing key. */
  lemma ConvertErrorShape(key: string)
    ensures Index(ConvertError(key), "success") == Ok(Bool(false))
    ensures Index(ConvertError(key), "Message") == Ok(Str("Convert Xml to JSON Exception"))
    ensures Index(ConvertError(key), "Detail") == Ok(Str("body[\"checkDeployStatusResponse\"][\"result\"] KeyError'" + key + "'"))
  {
    var entries := ConvertError(key).entries;
    GetAt(entries, 0);
    GetAt(entries, 1);
    GetAt(entries, 2);
  }

  // ----- retrieve -----

  /** `check_status` stores the decoded result before it marks it: a result that is a
      dictionary is returned and stored marked as a success, with every other entry as it came;
      any other result stays stored as it came while the marking raises `TypeError`. */
  lemma CheckStatusStoresResult(w: World, id: string)
    requires w.metadataUrl.Some? && |w.replies| > 0 && w.replies[0].Answer? && w.replies[0].statusCode <= 399
    requires ResultOf(w.replies[0], "checkStatusResponse").Ok?
    ensures var (c, w') := CheckStatusSpec(w, id);
      var answer := ResultOf(w.replies[0], "checkStatusResponse").value;
      && w'.posts == w.posts + [Post("check_status", id)]
      && (answer.Map? ==>
            && c.Got? && w'.result == c.value && Index(c.value, "success") == Ok(Bool(true))
            && forall k :: k != "success" ==> Index(c.value, k) == Index(answer, k))
      && (!answer.Map? ==> c.Threw? && c.exc.TypeError? && w'.result == answer)
  {
    var answer := ResultOf(w.replies[0], "checkStatusResponse").value;
    if answer.Map? {
      var marked := Map(Put(answer.entries, "success", Bool(true)));
      forall k
        ensures Index(marked, k) == if k == "success" then Ok(Bool(true)) else Index(answer, k)
      {
        PutGet(answer.entries, "success", Bool(true), k);
      }
    }
  }

  /** The polling loop of `retrieve` stops exactly when `done` is no longer "false": it returns
      a status whose `done` is something else, and a status like that is returned at once. Every
      request it sends is a `check_status` for the job, and a loop that completes has waited
      once per request. */
  lemma {:induction false} PollStatusExit(w: World, id: string, status: Node)
    ensures var (c, w') := PollStatus(w, id, status);
      && (c.Got? ==> Index(c.value, "done").Ok? && Index(c.value, "done").value != Str("false"))
      && (Index(status, "done").Ok? && Index(status, "done").value != Str("false") ==> c == Got(status) && w' == w)
    decreases |w.replies|
  {
    var done := Index(status, "done");
    if done.Ok? && done.value == Str("false") {
      var state := Index(status, "state");
      if state.Ok? {
        var w1 := w.(sleeps := w.sleeps + [RetrieveDelay(state.value)]);
        var (c, w2) := CheckStatusSpec(w1, id);
        if c.Got? {
          var next := Index(c.value, "state");
          if next.Ok? {
            PollStatusStep(w, id, status, state.value, c.value, w2, next.value);
            PollStatusExit(w2.(log := w2.log + [RetrieveStatus(next.value)]), id, c.value);
          }
        }
      }
    }
  }

  /** Every request the polling loop of `retrieve` sends is a `check_status` for the job, and a
      loop that completes has waited once per request. */
  lemma {:induction false} PollStatusRequests(w: World, id: string, status: Node)
    ensures var (c, w') := PollStatus(w, id, status);
      && (forall k | |w.posts| <= k < |w'.posts| :: w'.posts[k] == Post("check_status", id))
      && (c.Got? ==> |w'.posts| - |w.posts| == |w'.sleeps| - |w.sleeps|)
    decreases |w.replies|
  {
    var done := Index(status, "done");
    if done.Ok? && done.value == Str("false") {
      var state := Index(status, "state");
      if state.Ok? {
        var w1 := w.(sleeps := w.sleeps + [RetrieveDelay(state.value)]);
        var (c, w2) := CheckStatusSpec(w1, id);
        if c.Got? {
          var next := Index(c.value, "state");
          if next.Ok? {
            var w3 := w2.(log := w2.log + [RetrieveStatus(next.value)]);
            PollStatusStep(w, id, status, state.value, c.value, w2, next.value);
            PollStatusRequests(w3, id, c.value);
            var w' := PollStatus(w3, id, c.value).1;
            assert w3.posts == w.posts + [Post("check_status", id)];
            assert |w3.sleeps| == |w.sleeps| + 1;
            forall k | |w.posts| <= k < |w'.posts| ensures w'.posts[k] == Post("check_status", id) {
              if k == |w.posts| {
                assert w'.posts[k] == w3.posts[k];
              }
            }
          }
        }
      }
    }
  }


  /** One round of the polling loop of `retrieve`: wait, poll, print the new state, go on from
      the new status. */
  lemma PollStatusStep(w: World, id: string, status: Node, state: Node, polled: Node, w2: World, next: Node)
    requires Index(status, "done") == Ok(Str("false")) && Index(status, "state") == Ok(state)
    requires CheckStatusSpec(w.(sleeps := w.sleeps + [RetrieveDelay(state)]), id) == (Got(polled), w2)
    requires Index(polled, "state") == Ok(next)
    ensures PollStatus(w, id, status) == PollStatus(w2.(log := w2.log + [RetrieveStatus(next)]), id, polled)
    ensures w2.sleeps == w.sleeps + [RetrieveDelay(state)] && w2.log == w.log
  {
  }

  /** The first wait of the polling loop follows the state it started from: 2 seconds while
      the job is "Queued", 1 otherwise; after that, at most one wait goes without a printed
      state. */
  lemma {:induction false} PollStatusFirstWait(w: World, id: string, status: Node)
    ensures var w' := PollStatus(w, id, status).1;
      && |w'.log| - |w.log| >= |w'.sleeps| - |w.sleeps| - 1
      && (|w'.sleeps| > |w.sleeps| ==>
            Index(status, "state").Ok? && w'.sleeps[|w.sleeps|] == RetrieveDelay(Index(status, "state").value))
    decreases |w.replies|
  {
    var done := Index(status, "done");
    if done.Ok? && done.value == Str("false") {
      var state := Index(status, "state");
      if state.Ok? {
        var w1 := w.(sleeps := w.sleeps + [RetrieveDelay(state.value)]);
        var (c, w2) := CheckStatusSpec(w1, id);
        if c.Got? {
          var next := Index(c.value, "state");
          if next.Ok? {
            var w3 := w2.(log := w2.log + [RetrieveStatus(next.value)]);
            PollStatusStep(w, id, status, state.value, c.value, w2, next.value);
            PollStatusFirstWait(w3, id, c.value);
          }
        }
      }
    }
  }

  /** Each wait of `later` follows the printed state at the same position of `states`. */
  ghost predicate Follows(later: seq<nat>, states: seq<LogEntry>) {
    && |later| <= |states|
    && forall k | 0 <= k < |later| :: states[k].RetrieveStatus? && later[k] == RetrieveDelay(states[k].state)
  }

  /** Every wait after position `s0` of `sleeps` follows the state printed at the matching
      position from `l0` on of `log`. */
  ghost predicate WaitsFollow(sleeps: seq<nat>, log: seq<LogEntry>, s0: nat, l0: nat) {
    |sleeps| <= s0 + 1 || (l0 <= |log| && Follows(sleeps[s0 + 1..], log[l0..]))
  }

  lemma WaitsShift(sleeps: seq<nat>, log: seq<LogEntry>, s0: nat, l0: nat, next: Node)
    requires WaitsFollow(sleeps, log, s0 + 1, l0 + 1)
    requires |sleeps| > s0 + 1 ==> l0 < |log| && log[l0] == RetrieveStatus(next) && sleeps[s0 + 1] == RetrieveDelay(next)
    ensures WaitsFollow(sleeps, log, s0, l0)
  {
    if |sleeps| > s0 + 1 {
      var later, states := sleeps[s0 + 1..], log[l0..];
      assert later[0] == sleeps[s0 + 1] && states[0] == log[l0];
      if |sleeps| > s0 + 2 {
        var later', states' := sleeps[s0 + 2..], log[l0 + 1..];
        assert Follows(later', states');
        forall k | 0 <= k < |later|
          ensures states[k].RetrieveStatus? && later[k] == RetrieveDelay(states[k].state)
        {
          if k > 0 {
            assert later[k] == later'[k - 1] && states[k] == states'[k - 1];
          }
        }
      }
    }
  }

  /** Each later wait of the polling loop follows the state printed after the poll before it:
      2 seconds while the job is "Queued", 1 otherwise. */
  lemma {:induction false} PollStatusWaits(w: World, id: string, status: Node)
    ensures var w' := PollStatus(w, id, status).1;
      WaitsFollow(w'.sleeps, w'.log, |w.sleeps|, |w.log|)
    decreases |w.replies|
  {
    var w' := PollStatus(w, id, status).1;
    var done := Index(status, "done");
    var state := Index(status, "state");
    if done == Ok(Str("false")) && state.Ok? {
      var w1 := w.(sleeps := w.sleeps + [RetrieveDelay(state.value)]);
      var (c, w2) := CheckStatusSpec(w1, id);
      var next := if c.Got? then Index(c.value, "state") else Err(KeyError("state"));
      if c.Got? && next.Ok? {
        var w3 := w2.(log := w2.log + [RetrieveStatus(next.value)]);
        PollStatusStep(w, id, status, state.value, c.value, w2, next.value);
        PollStatusFirstWait(w3, id, c.value);
        PollStatusWaits(w3, id, c.value);
        assert w3.sleeps <= w'.sleeps && w3.log <= w'.log;
        if |w'.sleeps| > |w3.sleeps| {
          assert w'.log[|w.log|] == w3.log[|w.log|];
        }
        WaitsShift(w'.sleeps, w'.log, |w.sleeps|, |w.log|, next.value);
      } else {
        assert |w'.sleeps| <= |w.sleeps| + 1;
      }
    } else {
      assert w' == w;
    }
  }

  /** Once polling stops, a job whose state is "Failed" is stored as the result and nothing is
      downloaded; any other state sends `check_retrieve_status` for the job next. */
  lemma AfterPollDownloadsUnlessFailed(w: World, id: string, status: Node)
    requires Index(status, "state").Ok? && w.metadataUrl.Some? && |w.replies| > 0
    ensures var (c, w') := AfterPollSpec(w, id, status);
      && (Index(status, "state").value == Str("Failed") ==> c == Got(Null) && w' == w.(result := status))
      && (Index(status, "state").value != Str("Failed") <==> |w'.posts| > |w.posts|)
      && (|w'.posts| > |w.posts| ==> w'.posts[|w.posts|] == Post("check_retrieve_status", id))
  {
    if Index(status, "state").value != Str("Failed") {
      var (c, w1) := CheckRetrieveStatusSpec(w, id);
      assert w1.posts == w.posts + [Post("check_retrieve_status", id)];
    }
  }

  /** A download that is not a success, or whose status is "Failed", is returned and stored
      with `success` forced to false and every other entry as it was; otherwise the result is
      stored as it came. */
  lemma DownloadForcesFailure(w: World, answer: Node)
    requires Index(answer, "success").Ok?
    ensures var (c, w') := DownloadSpec(w, answer);
      var success := Index(answer, "success").value;
      && ((!Truthy(success) || Index(answer, "status") == Ok(Str("Failed"))) ==>
            && c.Got? && w'.result == c.value && Index(c.value, "success") == Ok(Bool(false))
            && forall k :: k != "success" ==> Index(c.value, k) == Index(answer, k))
      && (Truthy(success) && Index(answer, "status").Ok? && Index(answer, "status").value != Str("Failed") && c.Got? ==>
            c.value == Null && w'.result == answer)
  {
    var success := Index(answer, "success").value;
    if !Truthy(success) || Index(answer, "status") == Ok(Str("Failed")) {
      var failed := Map(Put(answer.entries, "success", Bool(false)));
      forall k
        ensures Index(failed, k) == if k == "success" then Ok(Bool(false)) else Index(answer, k)
      {
        PutGet(answer.entries, "success", Bool(false), k);
      }
    }
  }

  /** The first request `retrieve` sends is the retrieve request with the caller's options. */
  lemma RetrieveFirstPost(w: World, apiVersion: nat, options: string)
    ensures var w' := RetrieveSpec(w, apiVersion, options).1;
      |w'.posts| > |w.posts| ==> w'.posts[|w.posts|] == Post("retrieve", options)
  {
    var (login, w1) := LoginSpec(w, apiVersion, false);
    if login.Got? && LoggedIn(login.value) == Ok(true) {
      var (c, w2) := PostSpec(w1, Post("retrieve", options));
      if c.Got? {
        assert w2.posts == w.posts + [Post("retrieve", options)];
      }
    }
  }

  /** An answer that reports an expired session is not read for a job id: the client logs in
      again with the expiry flag set and sends the same retrieve request again. */
  lemma RetrieveSessionExpiry(w: World, apiVersion: nat, options: string, url: string)
    requires |w.logins| >= 2 && |w.replies| >= 1
    requires Index(w.logins[0], "success") == Ok(Bool(true)) && Index(w.logins[0], "instance_url") == Ok(Str(url))
    requires w.replies[0].Answer? && Contains(w.replies[0].text, SESSION_EXPIRED)
    ensures var w' := RetrieveSpec(w, apiVersion, options).1;
      && |w'.loginCalls| >= |w.loginCalls| + 2
      && w'.loginCalls[|w.loginCalls|] == false && w'.loginCalls[|w.loginCalls| + 1] == true
      && |w'.posts| >= |w.posts| + 1 && w'.posts[|w.posts|] == Post("retrieve", options)
      && (|w'.posts| > |w.posts| + 1 ==> w'.posts[|w.posts| + 1] == Post("retrieve", options))
  {
    var (login, w1) := LoginSpec(w, apiVersion, false);
    assert HasKey(w.logins[0].entries, "success");
    assert LoggedIn(login.value) == Ok(true);
    var (c, w2) := PostSpec(w1, Post("retrieve", options));
    var (again, w3) := LoginSpec(w2, apiVersion, true);
    assert w3.loginCalls == w.loginCalls + [false, true];
    assert w3.posts == w.posts + [Post("retrieve", options)];
    if again.Got? {
      RetrieveFirstPost(w3, apiVersion, options);
    }
  }

  // ----- deploy -----

  /** The first request `deploy` sends is the deploy request with the caller's zip file. */
  lemma DeployFirstPost(w: World, apiVersion: nat, zip: string)
    ensures var w' := DeploySpec(w, apiVersion, zip).1;
      |w'.posts| > |w.posts| ==> w'.posts[|w.posts|] == Post("deploy", zip)
  {
    var (login, w1) := LoginSpec(w, apiVersion, false);
    if login.Got? && LoggedIn(login.value) == Ok(true) {
      var (c, w2) := PostSpec(w1, Post("deploy", zip));
      if c.Got? {
        assert w2.posts == w.posts + [Post("deploy", zip)];
      }
    }
  }

  /** An answer that reports an expired session is not read for a job id: the client logs in
      again with the expiry flag set and sends the same deploy request again. */
  lemma DeploySessionExpiry(w: World, apiVersion: nat, zip: string, url: string)
    requires |w.logins| >= 2 && |w.replies| >= 1
    requires Index(w.logins[0], "success") == Ok(Bool(true)) && Index(w.logins[0], "instance_url") == Ok(Str(url))
    requires w.replies[0].Answer? && Contains(w.replies[0].text, SESSION_EXPIRED)
    ensures var w' := DeploySpec(w, apiVersion, zip).1;
      && |w'.loginCalls| >= |w.loginCalls| + 2
      && w'.loginCalls[|w.loginCalls|] == false && w'.loginCalls[|w.loginCalls| + 1] == true
      && |w'.posts| >= |w.posts| + 1 && w'.posts[|w.posts|] == Post("deploy", zip)
      && (|w'.posts| > |w.posts| + 1 ==> w'.posts[|w.posts| + 1] == Post("deploy", zip))
  {
    var (login, w1) := LoginSpec(w, apiVersion, false);
    assert HasKey(w.logins[0].entries, "success");
    assert LoggedIn(login.value) == Ok(true);
    var (c, w2) := PostSpec(w1, Post("deploy", zip));
    var (again, w3) := LoginSpec(w2, apiVersion, true);
    assert w3.loginCalls == w.loginCalls + [false, true];
    assert w3.posts == w.posts + [Post("deploy", zip)];
    if again.Got? {
      DeployFirstPost(w3, apiVersion, zip);
    }
  }

  /** One round of the polling loop of `deploy`: print new test failures, wait, poll, go on
      from the new answer. */
  lemma DeployPollStep(w: World, id: string, result: Node, body: Node, p: Progress, polled: Node, w3: World, next: Node)
    requires Index(body, "status").Ok? && Index(body, "status").value in BUSY
    requires PollRound(body, Index(body, "status").value, p, w.log).error.None?
    requires var step := PollRound(body, Index(body, "status").value, p, w.log);
      CheckDeployStatusSpec(w.(log := step.log, sleeps := w.sleeps + [DeployDelay(Index(body, "status").value)]), id) == (Got(polled), w3)
    requires Index(polled, "body") == Ok(next)
    ensures DeployPoll(w, id, result, body, p) == DeployPoll(w3, id, polled, next, PollRound(body, Index(body, "status").value, p, w.log).progress)
  {
  }

  /** The polling loop of `deploy` goes on exactly while the status is "Pending", "InProgress"
      or "Canceling": a loop that completes gives back an answer whose status is none of them,
      and an answer like that ends the loop at once, without a request or a wait. */
  lemma {:induction false} DeployPollExit(w: World, id: string, result: Node, body: Node, p: Progress)
    requires Index(result, "body") == Ok(body)
    ensures var (c, w') := DeployPoll(w, id, result, body, p);
      && (c.Got? ==>
            && Index(c.value, "body").Ok?
            && Index(Index(c.value, "body").value, "status").Ok?
            && Index(Index(c.value, "body").value, "status").value !in BUSY)
      && (Index(body, "status").Ok? && Index(body, "status").value !in BUSY ==> w'.posts == w.posts && w'.sleeps == w.sleeps)
    decreases |w.replies|
  {
    var status := Index(body, "status");
    if status.Ok? && status.value in BUSY {
      var step := PollRound(body, status.value, p, w.log);
      if step.error.None? {
        var w2 := w.(log := step.log, sleeps := w.sleeps + [DeployDelay(status.value)]);
        var (c, w3) := CheckDeployStatusSpec(w2, id);
        if c.Got? {
          var next := Index(c.value, "body");
          if next.Ok? {
            DeployPollStep(w, id, result, body, p, c.value, w3, next.value);
            DeployPollExit(w3, id, c.value, next.value, step.progress);
          }
        }
      }
    }
  }

  /** Every request the polling loop of `deploy` sends is a `check_deploy_status` for the job. */
  lemma {:induction false} DeployPollRequests(w: World, id: string, result: Node, body: Node, p: Progress)
    ensures var w' := DeployPoll(w, id, result, body, p).1;
      forall k | |w.posts| <= k < |w'.posts| :: w'.posts[k] == Post("check_deploy_status", id)
    decreases |w.replies|
  {
    var status := Index(body, "status");
    if status.Ok? && status.value in BUSY {
      var step := PollRound(body, status.value, p, w.log);
      if step.error.None? {
        var w2 := w.(log := step.log, sleeps := w.sleeps + [DeployDelay(status.value)]);
        var (c, w3) := CheckDeployStatusSpec(w2, id);
        if c.Got? {
          var next := Index(c.value, "body");
          if next.Ok? {
            DeployPollStep(w, id, result, body, p, c.value, w3, next.value);
            DeployPollRequests(w3, id, c.value, next.value, step.progress);
            var w' := DeployPoll(w3, id, c.value, next.value, step.progress).1;
            assert w3.posts == w.posts + [Post("check_deploy_status", id)];
            forall k | |w.posts| <= k < |w'.posts| ensures w'.posts[k] == Post("check_deploy_status", id) {
              if k == |w.posts| {
                assert w'.posts[k] == w3.posts[k];
              }
            }
          }
        }
      }
    }
  }

  /** A polling loop of `deploy` that completes has waited once per request. */
  lemma {:induction false} DeployPollWaits(w: World, id: string, result: Node, body: Node, p: Progress)
    ensures var (c, w') := DeployPoll(w, id, result, body, p);
      c.Got? ==> |w'.posts| - |w.posts| == |w'.sleeps| - |w.sleeps|
    decreases |w.replies|
  {
    var status := Index(body, "status");
    if status.Ok? && status.value in BUSY {
      var step := PollRound(body, status.value, p, w.log);
      if step.error.None? {
        var w2 := w.(log := step.log, sleeps := w.sleeps + [DeployDelay(status.value)]);
        var (c, w3) := CheckDeployStatusSpec(w2, id);
        if c.Got? {
          var next := Index(c.value, "body");
          if next.Ok? {
            DeployPollStep(w, id, result, body, p, c.value, w3, next.value);
            DeployPollWaits(w3, id, c.value, next.value, step.progress);
            assert |w3.posts| == |w.posts| + 1 && |w3.sleeps| == |w.sleeps| + 1;
          }
        }
      }
    }
  }


  /** The first wait of the polling loop of `deploy` is 2 seconds while the deployment is
      "Pending" and 1 while it is "InProgress" or "Canceling". */
  lemma DeployPollFirstWait(w: World, id: string, result: Node, body: Node, p: Progress)
    requires Index(body, "status").Ok? && Index(body, "status").value in BUSY
    requires PollRound(body, Index(body, "status").value, p, w.log).error.None?
    ensures var w' := DeployPoll(w, id, result, body, p).1;
      && |w'.sleeps| > |w.sleeps|
      && w'.sleeps[|w.sleeps|] == if Index(body, "status").value == Str("Pending") then 2 else 1
  {
    var step := PollRound(body, Index(body, "status").value, p, w.log);
    var w2 := w.(log := step.log, sleeps := w.sleeps + [DeployDelay(Index(body, "status").value)]);
    assert w2.sleeps <= DeployPoll(w, id, result, body, p).1.sleeps;
  }

  /** The deployment statuses printed in `log`, in order. */
  function Statuses(log: seq<LogEntry>): (r: seq<Node>)
    ensures |r| <= |log|
  {
    if |log| == 0 then []
    else (if log[0].DeployStatus? then [log[0].status] else []) + Statuses(log[1..])
  }

  lemma {:induction false} StatusesAppend(a: seq<LogEntry>, b: seq<LogEntry>)
    ensures Statuses(a + b) == Statuses(a) + Statuses(b)
    decreases |a|
  {
    if |a| > 0 {
      assert (a + b)[0] == a[0] && (a + b)[1..] == a[1..] + b;
      StatusesAppend(a[1..], b);
    } else {
      assert a + b == b;
    }
  }

  lemma {:induction false} NoStatuses(log: seq<LogEntry>)
    requires forall k | 0 <= k < |log| :: !log[k].DeployStatus?
    ensures Statuses(log) == []
  {
    if |log| > 0 {
      assert forall k | 0 <= k < |log[1..]| :: log[1..][k] == log[k + 1];
      NoStatuses(log[1..]);
    }
  }

  /** The waits that follow a list of printed statuses. */
  function Delays(statuses: seq<Node>): (r: seq<nat>)
    ensures |r| == |statuses| && forall k | 0 <= k < |statuses| :: r[k] == DeployDelay(statuses[k])
  {
    MapSeq(DeployDelay, statuses)
  }

  /** Lines that start with one status and go on with test failures print that status only. */
  lemma RoundStatuses(log: seq<LogEntry>, log': seq<LogEntry>, status: Node)
    requires log <= log' && |log'| > |log| && log'[|log|].DeployStatus? && log'[|log|].status == status
    requires forall k | |log| < k < |log'| :: log'[k].TestFailure?
    ensures Statuses(log'[|log|..]) == [status]
  {
    var added := log'[|log| + 1..];
    assert log'[|log|..] == [log'[|log|]] + added;
    forall k | 0 <= k < |added|
      ensures !added[k].DeployStatus?
    {
      assert added[k] == log'[|log| + 1 + k];
    }
    NoStatuses(added);
    StatusesAppend([log'[|log|]], added);
    assert [log'[|log|]][1..] == [];
  }

  /** One printed status and its wait, put in front of the statuses and waits that follow. */
  lemma WaitsFollowStep(sleeps: seq<nat>, sleeps3: seq<nat>, sleeps': seq<nat>,
                        log: seq<LogEntry>, log3: seq<LogEntry>, log': seq<LogEntry>, status: Node, all: bool)
    requires sleeps3 == sleeps + [DeployDelay(status)] && sleeps3 <= sleeps'
    requires log <= log3 <= log' && Statuses(log3[|log|..]) == [status]
    requires sleeps'[|sleeps3|..] <= Delays(Statuses(log'[|log3|..]))
    requires all ==> sleeps'[|sleeps3|..] == Delays(Statuses(log'[|log3|..]))
    ensures sleeps'[|sleeps|..] <= Delays(Statuses(log'[|log|..]))
    ensures all ==> sleeps'[|sleeps|..] == Delays(Statuses(log'[|log|..]))
  {
    assert log'[|log|..] == log3[|log|..] + log'[|log3|..];
    StatusesAppend(log3[|log|..], log'[|log3|..]);
    DelaysCons(status, Statuses(log'[|log3|..]));
    assert sleeps'[|sleeps|..] == [DeployDelay(status)] + sleeps'[|sleeps3|..];
  }

  lemma DelaysCons(x: Node, s: seq<Node>)
    ensures Delays([x] + s) == [DeployDelay(x)] + Delays(s)
  {
    assert forall k | 0 < k <= |s| :: ([x] + s)[k] == s[k - 1];
  }

  /** Every wait of the polling loop of `deploy` follows the status printed just before it: 2
      seconds after "Pending", 1 after "InProgress" or "Canceling". The waits are the delays of
      the printed statuses, all of them when the loop completes, and all but the last when a
      round raises after printing its status. */
  lemma {:induction false} DeployPollWaitsFollow(w: World, id: string, result: Node, body: Node, p: Progress)
    ensures WaitsFollowPrinted(w, DeployPoll(w, id, result, body, p))
    decreases |w.replies|
  {
    var status := Index(body, "status");
    if status.Ok? && status.value in BUSY {
      var step := PollRound(body, status.value, p, w.log);
      if step.error.None? {
        var w2 := w.(log := step.log, sleeps := w.sleeps + [DeployDelay(status.value)]);
        var (c, w3) := CheckDeployStatusSpec(w2, id);
        if c.Got? && Index(c.value, "body").Ok? {
          var next := Index(c.value, "body").value;
          DeployPollWaitsFollow(w3, id, c.value, next, step.progress);
          DeployPollWaitsRound(w, id, result, body, p, c.value, w3, next);
        } else {
          DeployPollWaitsStopped(w, id, result, body, p);
        }
      } else {
        assert DeployPoll(w, id, result, body, p).1.sleeps == w.sleeps;
      }
    } else if status.Ok? && status.value == Str("Failed") {
      DeployReportPrintsNoStatus(w, body);
    }
  }

  /** The waits of a polling loop of `deploy` that started from `w` and ended in `r` are the
      delays of the statuses it printed: all of them when it completed, all but the last when a
      round raised after printing its status. */
  ghost predicate WaitsFollowPrinted(w: World, r: (Call<Node>, World)) {
    && |w.sleeps| <= |r.1.sleeps| && |w.log| <= |r.1.log|
    && r.1.sleeps[|w.sleeps|..] <= Delays(Statuses(r.1.log[|w.log|..]))
    && (r.0.Got? ==> r.1.sleeps[|w.sleeps|..] == Delays(Statuses(r.1.log[|w.log|..])))
  }

  lemma DeployPollWaitsRound(w: World, id: string, result: Node, body: Node, p: Progress, polled: Node, w3: World, next: Node)
    requires Index(body, "status").Ok? && Index(body, "status").value in BUSY
    requires PollRound(body, Index(body, "status").value, p, w.log).error.None?
    requires var step := PollRound(body, Index(body, "status").value, p, w.log);
      CheckDeployStatusSpec(w.(log := step.log, sleeps := w.sleeps + [DeployDelay(Index(body, "status").value)]), id) == (Got(polled), w3)
    requires Index(polled, "body") == Ok(next)
    requires WaitsFollowPrinted(w3, DeployPoll(w3, id, polled, next, PollRound(body, Index(body, "status").value, p, w.log).progress))
    ensures WaitsFollowPrinted(w, DeployPoll(w, id, result, body, p))
  {
    var status := Index(body, "status").value;
    var step := PollRound(body, status, p, w.log);
    DeployPollStep(w, id, result, body, p, polled, w3, next);
    var (c', w') := DeployPoll(w3, id, polled, next, step.progress);
    RoundStatuses(w.log, step.log, status);
    WaitsFollowStep(w.sleeps, w3.sleeps, w'.sleeps, w.log, w3.log, w'.log, status, c'.Got?);
  }

  lemma DeployPollWaitsStopped(w: World, id: string, result: Node, body: Node, p: Progress)
    requires Index(body, "status").Ok? && Index(body, "status").value in BUSY
    requires PollRound(body, Index(body, "status").value, p, w.log).error.None?
    requires var step := PollRound(body, Index(body, "status").value, p, w.log);
      var (c, w3) := CheckDeployStatusSpec(w.(log := step.log, sleeps := w.sleeps + [DeployDelay(Index(body, "status").value)]), id);
      !(c.Got? && Index(c.value, "body").Ok?)
    ensures WaitsFollowPrinted(w, DeployPoll(w, id, result, body, p))
  {
    var status := Index(body, "status").value;
    var step := PollRound(body, status, p, w.log);
    var w2 := w.(log := step.log, sleeps := w.sleeps + [DeployDelay(status)]);
    var (c, w3) := CheckDeployStatusSpec(w2, id);
    assert DeployPoll(w, id, result, body, p).1 == w3;
    RoundStatuses(w.log, step.log, status);
    assert w3.log[|w3.log|..] == [] && w3.sleeps[|w3.sleeps|..] == [];
    WaitsFollowStep(w.sleeps, w3.sleeps, w3.sleeps, w.log, w3.log, w3.log, status, false);
  }

  /** The report of a failed deployment prints no status. */
  lemma DeployReportPrintsNoStatus(w: World, body: Node)
    ensures var w' := FailedSpec(w, body).1;
      |w.log| <= |w'.log| && Statuses(w'.log[|w.log|..]) == [] && w'.sleeps == w.sleeps
  {
    var w' := FailedSpec(w, body).1;
    var added := w'.log[|w.log|..];
    forall k | 0 <= k < |added|
      ensures !added[k].DeployStatus?
    {
      assert added[k] == w'.log[|w.log| + k];
    }
    NoStatuses(added);
  }

  /** The failure `get_response_error` makes has no `body`. */
  lemma ResponseErrorHasNoBody(reply: Reply)
    requires reply.Answer? && ResponseError(reply).Ok?
    ensures Index(ResponseError(reply).value, "body") == Err(KeyError("body"))
  {
    var (codeTag, messageTag) := if reply.statusCode == 500 then ("faultcode", "faultstring") else ("errorCode", "message");
    var code, message := ElementValue(reply, codeTag), ElementValue(reply, messageTag);
    var entries := [("success", Bool(false)), ("Error Code", Str(code.value)), ("Error Message", Str(message.value))];
    assert ResponseError(reply) == Ok(Map(entries));
    assert Keys(entries[2..]) == ["Error Message"] by {
      assert entries[2..][1..] == [];
    }
    assert entries[1..][1..] == entries[2..];
    assert Keys(entries) == ["success", "Error Code", "Error Message"];
  }

  /** The failure made of a `KeyError` has no `body` either. */
  lemma ConvertErrorHasNoBody(key: string)
    ensures Index(ConvertError(key), "body") == Err(KeyError("body"))
  {
    var entries := ConvertError(key).entries;
    assert entries[1..][1..] == entries[2..];
    assert Keys(entries[2..]) == ["success"] by {
      assert entries[2..][1..] == [];
    }
    assert Keys(entries) == ["Message", "Detail", "success"];
  }

  /** `check_deploy_status` stores only the failure of an error status, and an answer with a
      `body` for `deploy` to go on with is a decoded status, marked as a success. */
  lemma CheckDeployStatusKeepsResult(w: World, id: string)
    ensures var (c, w') := CheckDeployStatusSpec(w, id);
      c.Got? && Index(c.value, "body").Ok? ==> w'.result == w.result && Index(c.value, "success") == Ok(Bool(true))
  {
    var (c, w1) := PostSpec(w, Post("check_deploy_status", id));
    if c.Got? && c.value.Answer? {
      if c.value.statusCode > 399 {
        if ResponseError(c.value).Ok? {
          ResponseErrorHasNoBody(c.value);
        }
      } else {
        var status := DeployStatusOf(c.value);
        if status.Ok? {
          DeployStatusShape(c.value);
        } else if status.exc.KeyError? {
          ConvertErrorHasNoBody(status.exc.key);
        }
      }
    }
  }

  /** A polling loop of `deploy` that completes leaves `self.result` as it found it. */
  lemma {:induction false} DeployPollKeepsResult(w: World, id: string, result: Node, body: Node, p: Progress)
    ensures var (c, w') := DeployPoll(w, id, result, body, p);
      c.Got? ==> w'.result == w.result
    decreases |w.replies|
  {
    var status := Index(body, "status");
    if status.Ok? && status.value in BUSY {
      var step := PollRound(body, status.value, p, w.log);
      if step.error.None? {
        var w2 := w.(log := step.log, sleeps := w.sleeps + [DeployDelay(status.value)]);
        var (c, w3) := CheckDeployStatusSpec(w2, id);
        if c.Got? {
          var next := Index(c.value, "body");
          if next.Ok? {
            CheckDeployStatusKeepsResult(w2, id);
            DeployPollStep(w, id, result, body, p, c.value, w3, next.value);
            DeployPollKeepsResult(w3, id, c.value, next.value, step.progress);
          }
        }
      }
    }
  }

  /** A polling loop of `deploy` that starts from an answer marked as a success gives back an
      answer marked as a success. */
  lemma {:induction false} DeployPollAnswer(w: World, id: string, result: Node, body: Node, p: Progress)
    requires Index(result, "success") == Ok(Bool(true))
    ensures var c := DeployPoll(w, id, result, body, p).0;
      c.Got? ==> Index(c.value, "success") == Ok(Bool(true))
    decreases |w.replies|
  {
    var status := Index(body, "status");
    if status.Ok? && status.value in BUSY {
      var step := PollRound(body, status.value, p, w.log);
      if step.error.None? {
        var w2 := w.(log := step.log, sleeps := w.sleeps + [DeployDelay(status.value)]);
        var (c, w3) := CheckDeployStatusSpec(w2, id);
        if c.Got? {
          var next := Index(c.value, "body");
          if next.Ok? {
            CheckDeployStatusKeepsResult(w2, id);
            DeployPollStep(w, id, result, body, p, c.value, w3, next.value);
            DeployPollAnswer(w3, id, c.value, next.value, step.progress);
          }
        }
      }
    }
  }

  /** A submitted deployment that completes returns `None` and stores its last status answer
      as `self.result`: a success-marked answer whose deployment status is no longer "Pending",
      "InProgress" or "Canceling". When the first answer already has such a status, that
      answer is the one stored, after a single request. */
  lemma DeployJobStoresLastAnswer(w: World, id: string)
    ensures var (c, w') := DeployJobSpec(w, id);
      c.Got? ==>
        && c.value == Null
        && Index(w'.result, "success") == Ok(Bool(true))
        && Index(w'.result, "body").Ok?
        && Index(Index(w'.result, "body").value, "status").Ok?
        && Index(Index(w'.result, "body").value, "status").value !in BUSY
    ensures var (c, w') := DeployJobSpec(w, id);
      var first := CheckDeployStatusSpec(w, id).0;
      c.Got? && first.Got? && Index(first.value, "body").Ok? &&
      Index(Index(first.value, "body").value, "status").Ok? && Index(Index(first.value, "body").value, "status").value !in BUSY ==>
        w'.result == first.value && w'.posts == w.posts + [Post("check_deploy_status", id)]
  {
    if DeployJobSpec(w, id).0.Got? {
      DeployJobCompleted(w, id);
      var (c, w1) := CheckDeployStatusSpec(w, id);
      var body := Index(c.value, "body").value;
      CheckDeployStatusKeepsResult(w, id);
      DeployPollExit(w1, id, c.value, body, Progress(1, []));
      DeployPollAnswer(w1, id, c.value, body, Progress(1, []));
    }
  }

  /** A deployment that completes has read a body from its first answer, and stores the
      answer its poll loop returned. */
  lemma DeployJobCompleted(w: World, id: string)
    requires DeployJobSpec(w, id).0.Got?
    ensures var (c, w1) := CheckDeployStatusSpec(w, id);
      && c.Got? && Index(c.value, "body").Ok?
      && var (d, w2) := DeployPoll(w1, id, c.value, Index(c.value, "body").value, Progress(1, []));
         d.Got? && DeployJobSpec(w, id) == (Got(Null), w2.(result := d.value))
  {
  }

  /** The ids of the test failures printed in `log`, in order. */
  function FailureIds(log: seq<LogEntry>): (r: seq<Node>)
    ensures |r| <= |log|
  {
    if |log| == 0 then []
    else (if log[0].TestFailure? then [log[0].id] else []) + FailureIds(log[1..])
  }

  lemma {:induction false} FailureIdsAppend(a: seq<LogEntry>, b: seq<LogEntry>)
    ensures FailureIds(a + b) == FailureIds(a) + FailureIds(b)
    decreases |a|
  {
    if |a| > 0 {
      assert (a + b)[0] == a[0] && (a + b)[1..] == a[1..] + b;
      FailureIdsAppend(a[1..], b);
    } else {
      assert a + b == b;
    }
  }

  /** The bookkeeping of `deploy` matches what it printed since position `n` of the log: the
      ids it has seen are the ids it printed, each once. */
  ghost predicate Tracked(p: Progress, log: seq<LogEntry>, n: nat) {
    n <= |log| && Keys(p.seen) == FailureIds(log[n..]) && NoDuplicates(Keys(p.seen))
  }

  /** Printing a failure with a new id keeps the bookkeeping in step with the log. */
  lemma RecordNew(p: Progress, log: seq<LogEntry>, n: nat, id: Node, f: Node, index: nat, message: Node, trace: seq<string>)
    requires Tracked(p, log, n) && !HasKey(p.seen, id)
    ensures Tracked(Progress(index, Put(p.seen, id, f)), log + [TestFailure(p.index, id, message, trace)], n)
  {
    PutKeys(p.seen, id, f);
    var entry := TestFailure(p.index, id, message, trace);
    assert (log + [entry])[n..] == log[n..] + [entry];
    FailureIdsAppend(log[n..], [entry]);
    assert FailureIds([entry]) == [id];
  }

  /** A list of test failures prints no id twice, counting the ids printed before. */
  lemma {:induction false} FailuresFromDedup(items: seq<Node>, i: nat, p: Progress, log: seq<LogEntry>, n: nat)
    requires i <= |items| && Tracked(p, log, n)
    ensures var s := FailuresFrom(items, i, p, log);
      && NoDuplicates(FailureIds(s.log[n..]))
      && (s.error.None? ==> Tracked(s.progress, s.log, n))
    decreases |items| - i
  {
    if i < |items| {
      var f := items[i];
      var id := Index(f, "id");
      if id.Ok? {
        if HasKey(p.seen, id.value) {
          FailuresFromDedup(items, i + 1, p, log, n);
        } else {
          var message := Index(f, "message");
          if message.Ok? {
            var lines := TraceLines(Index(f, "stackTrace"));
            RecordNew(p, log, n, id.value, f, p.index + 1, message.value, lines);
            var printed := log + [TestFailure(p.index, id.value, message.value, lines)];
            if Index(f, "stackTrace").Ok? {
              FailuresFromDedup(items, i + 1, Progress(p.index + 1, Put(p.seen, id.value, f)), printed, n);
            }
          }
        }
      }
    }
  }

  /** A lone test failure is printed only when its id is new. */
  lemma LoneFailureDedup(f: Node, p: Progress, log: seq<LogEntry>, n: nat)
    requires f.Map? && Tracked(p, log, n)
    ensures var s := LoneFailure(f, p, log);
      && NoDuplicates(FailureIds(s.log[n..]))
      && (s.error.None? ==> Tracked(s.progress, s.log, n))
  {
    if HasKey(f.entries, "id") {
      var id := Get(f.entries, "id");
      var message := Index(f, "message");
      if !HasKey(p.seen, id) && message.Ok? {
        RecordNew(p, log, n, id, f, p.index + p.index, message.value, TraceLines(Index(f, "stackTrace")));
      }
    }
  }

  lemma ProcessFailuresDedup(body: Node, p: Progress, log: seq<LogEntry>, n: nat)
    requires Tracked(p, log, n)
    ensures var s := ProcessFailures(body, p, log);
      && NoDuplicates(FailureIds(s.log[n..]))
      && (s.error.None? ==> Tracked(s.progress, s.log, n))
  {
    var failures := TestFailures(body);
    if failures.Ok? && failures.value.Some? {
      var f := failures.value.value;
      if f.Map? {
        LoneFailureDedup(f, p, log, n);
      } else if f.List? {
        FailuresFromDedup(f.items, 0, p, log, n);
      }
    }
  }

  /** The status line of a poll: the status alone when the answer has no `stateDetail`; with
      one, the counts of components while fewer are deployed than there are and the counts of
      tests otherwise, then the detail. A count of components that `int()` cannot read makes the
      round raise what `int()` raises. */
  lemma StatusLineCounts(body: Node, status: Node)
    requires body.Map?
    ensures !HasKey(body.entries, "stateDetail") ==> StatusLine(body, status) == Ok(DeployStatus(status, None))
    ensures var deployed := Index(body, "numberComponentsDeployed");
      HasKey(body.entries, "stateDetail") && deployed.Ok? && IntOf(deployed.value).Err? ==>
        StatusLine(body, status) == Err(IntOf(deployed.value).exc)
    ensures var r := StatusLine(body, status);
      r.Ok? && HasKey(body.entries, "stateDetail") ==>
        var deployed := Index(body, "numberComponentsDeployed");
        var total := Index(body, "numberComponentsTotal");
        && deployed.Ok? && total.Ok? && IntOf(deployed.value).Ok? && IntOf(total.value).Ok?
        && r.value.progress.Some?
        && Ok(r.value.progress.value.2) == Index(body, "stateDetail")
        && (IntOf(deployed.value).value < IntOf(total.value).value ==>
              Ok(r.value.progress.value.0) == deployed && Ok(r.value.progress.value.1) == total)
        && (IntOf(deployed.value).value >= IntOf(total.value).value ==>
              Ok(r.value.progress.value.0) == Index(body, "numberTestsCompleted")
              && Ok(r.value.progress.value.1) == Index(body, "numberTestsTotal"))
  {
  }

  /** A status line adds no failure id, so the bookkeeping stays in step. */
  lemma StatusTracked(p: Progress, log: seq<LogEntry>, n: nat, e: LogEntry)
    requires Tracked(p, log, n) && !e.TestFailure?
    ensures Tracked(p, log + [e], n)
  {
    assert (log + [e])[n..] == log[n..] + [e];
    FailureIdsAppend(log[n..], [e]);
    assert FailureIds([e]) == [];
  }

  lemma PollRoundDedup(body: Node, status: Node, p: Progress, log: seq<LogEntry>, n: nat)
    requires Tracked(p, log, n)
    ensures var s := PollRound(body, status, p, log);
      && NoDuplicates(FailureIds(s.log[n..]))
      && (s.error.None? ==> Tracked(s.progress, s.log, n))
  {
    var line := StatusLine(body, status);
    if line.Ok? {
      StatusTracked(p, log, n, line.value);
      ProcessFailuresDedup(body, p, log + [line.value], n);
    }
  }

  lemma {:induction false} NoFailureIds(log: seq<LogEntry>)
    requires forall k | 0 <= k < |log| :: !log[k].TestFailure?
    ensures FailureIds(log) == []
  {
    if |log| > 0 {
      assert forall k | 0 <= k < |log[1..]| :: log[1..][k] == log[k + 1];
      NoFailureIds(log[1..]);
    }
  }

  /** Lines added after `log` that are not test failures add no failure ids. */
  lemma AppendedNoFailures(log: seq<LogEntry>, log': seq<LogEntry>, n: nat)
    requires n <= |log| && log <= log'
    requires forall k | |log| <= k < |log'| :: !log'[k].TestFailure?
    ensures FailureIds(log'[n..]) == FailureIds(log[n..])
  {
    var extra := log'[|log|..];
    assert log' == log + extra;
    assert log'[n..] == log[n..] + extra;
    FailureIdsAppend(log[n..], extra);
    forall k | 0 <= k < |extra|
      ensures !extra[k].TestFailure?
    {
      assert extra[k] == log'[|log| + k];
    }
    NoFailureIds(extra);
  }

  lemma FailedReportIds(w: World, body: Node, n: nat)
    requires n <= |w.log|
    ensures var w' := FailedSpec(w, body).1;
      n <= |w'.log| && FailureIds(w'.log[n..]) == FailureIds(w.log[n..])
  {
    AppendedNoFailures(w.log, FailedSpec(w, body).1.log, n);
  }


  /** The polling loop of `deploy` prints no test failure id twice. */
  lemma {:induction false} DeployPollDedup(w: World, id: string, result: Node, body: Node, p: Progress, n: nat)
    requires Tracked(p, w.log, n)
    ensures var w' := DeployPoll(w, id, result, body, p).1;
      n <= |w'.log| && NoDuplicates(FailureIds(w'.log[n..]))
    decreases |w.replies|
  {
    var status := Index(body, "status");
    if status.Ok? {
      if status.value in BUSY {
        var step := PollRound(body, status.value, p, w.log);
        PollRoundDedup(body, status.value, p, w.log, n);
        if step.error.None? {
          var w2 := w.(log := step.log, sleeps := w.sleeps + [DeployDelay(status.value)]);
          var (c, w3) := CheckDeployStatusSpec(w2, id);
          if c.Got? {
            var next := Index(c.value, "body");
            if next.Ok? {
              DeployPollStep(w, id, result, body, p, c.value, w3, next.value);
              DeployPollDedup(w3, id, c.value, next.value, step.progress, n);
            }
          }
        }
      } else if status.value == Str("Failed") {
        FailedReportIds(w, body, n);
      }
    }
  }

  /** After its first answer, a deployment prints only what its poll loop prints. */
  lemma DeployJobLog(w: World, id: string)
    ensures var (s, w1) := CheckDeployStatusSpec(w, id);
      s.Got? && Index(s.value, "body").Ok? ==>
        DeployJobSpec(w, id).1.log == DeployPoll(w1, id, s.value, Index(s.value, "body").value, Progress(1, [])).1.log
  {
    var (s, w1) := CheckDeployStatusSpec(w, id);
    if s.Got? && Index(s.value, "body").Ok? {
      var w2 := DeployPoll(w1, id, s.value, Index(s.value, "body").value, Progress(1, [])).1;
      assert DeployJobSpec(w, id).1 in {w2, w2.(result := DeployJobSpec(w, id).1.result)};
    }
  }

  /** A submitted deployment prints each failed test once. */
  lemma DeployJobPrintsFailuresOnce(w: World, id: string)
    ensures var w' := DeployJobSpec(w, id).1;
      |w.log| <= |w'.log| && NoDuplicates(FailureIds(w'.log[|w.log|..]))
  {
    var w' := DeployJobSpec(w, id).1;
    var (s, w1) := CheckDeployStatusSpec(w, id);
    if s.Got? && Index(s.value, "body").Ok? {
      assert w1.log[|w1.log|..] == [];
      DeployJobLog(w, id);
      DeployPollDedup(w1, id, s.value, Index(s.value, "body").value, Progress(1, []), |w.log|);
    } else {
      assert w'.log[|w.log|..] == [];
    }
  }

  /** A whole deployment, polls and replays included, prints each failed test once: no test
      failure id appears twice among the lines it adds to the log. */
  lemma {:induction false} DeployPrintsFailuresOnce(w: World, apiVersion: nat, zip: string)
    ensures var w' := DeploySpec(w, apiVersion, zip).1;
      |w.log| <= |w'.log| && NoDuplicates(FailureIds(w'.log[|w.log|..]))
    decreases |w.replies|
  {
    var w' := DeploySpec(w, apiVersion, zip).1;
    var (login, w1) := LoginSpec(w, apiVersion, false);
    if login.Got? && LoggedIn(login.value) == Ok(true) {
      var (c, w2) := PostSpec(w1, Post("deploy", zip));
      if c.Got? && c.value.Answer? {
        var reply := c.value;
        if Contains(reply.text, SESSION_EXPIRED) {
          var (again, w3) := LoginSpec(w2, apiVersion, true);
          if again.Got? {
            DeployPrintsFailuresOnce(w3, apiVersion, zip);
          }
        } else if reply.statusCode <= 399 && ElementValue(reply, "id").Ok? {
          DeployJobPrintsFailuresOnce(w2, ElementValue(reply, "id").value);
        }
      }
    }
    if w'.log == w.log {
      assert w'.log[|w.log|..] == [];
    }
  }

  /** The test failures of a list are printed under consecutive numbers from the current one,
      which ends one past the last number printed. */
  lemma {:induction false} FailuresFromNumbering(items: seq<Node>, i: nat, p: Progress, log: seq<LogEntry>)
    requires i <= |items|
    ensures var s := FailuresFrom(items, i, p, log);
      && (forall k | |log| <= k < |s.log| :: s.log[k].TestFailure? && s.log[k].index == p.index + (k - |log|))
      && (s.error.None? ==> s.progress.index == p.index + (|s.log| - |log|))
    decreases |items| - i
  {
    if i < |items| {
      var f := items[i];
      var id := Index(f, "id");
      if id.Ok? {
        if HasKey(p.seen, id.value) {
          FailuresFromNumbering(items, i + 1, p, log);
        } else {
          var message := Index(f, "message");
          if message.Ok? && Index(f, "stackTrace").Ok? {
            var printed := log + [TestFailure(p.index, id.value, message.value, TraceLines(Index(f, "stackTrace")))];
            var q := Progress(p.index + 1, Put(p.seen, id.value, f));
            FailuresFromNumbering(items, i + 1, q, printed);
            var s := FailuresFrom(items, i + 1, q, printed);
            assert printed <= s.log;
            assert s.log[|log|] == printed[|log|];
          }
        }
      }
    }
  }

  /** A new lone test failure with a message is printed as one entry: its number, id and message,
      and the lines of its stack trace, which join back to the stack trace when it is a string
      and are none otherwise. */
  lemma LoneFailureTrace(f: Node, p: Progress, log: seq<LogEntry>)
    requires f.Map? && HasKey(f.entries, "id") && !HasKey(p.seen, Get(f.entries, "id"))
    requires Hashable(Get(f.entries, "id")).Ok? && Index(f, "message").Ok?
    ensures var s := LoneFailure(f, p, log);
      var trace := Index(f, "stackTrace");
      && |s.log| == |log| + 1 && s.log[|log|].TestFailure?
      && s.log[|log|].index == p.index && s.log[|log|].id == Get(f.entries, "id")
      && s.log[|log|].message == Index(f, "message").value
      && (trace.Ok? && trace.value.Str? ==> Join("\n", s.log[|log|].trace) == trace.value.s)
      && (!(trace.Ok? && trace.value.Str?) ==> s.log[|log|].trace == [])
  {
  }

  /** The same for a failure of a list. */
  lemma FailureListTrace(items: seq<Node>, i: nat, p: Progress, log: seq<LogEntry>)
    requires i < |items| && Index(items[i], "id").Ok? && !HasKey(p.seen, Index(items[i], "id").value)
    requires Hashable(Index(items[i], "id").value).Ok? && Index(items[i], "message").Ok?
    ensures var s := FailuresFrom(items, i, p, log);
      var trace := Index(items[i], "stackTrace");
      && |s.log| > |log| && s.log[|log|].TestFailure?
      && s.log[|log|].index == p.index && s.log[|log|].id == Index(items[i], "id").value
      && s.log[|log|].message == Index(items[i], "message").value
      && (trace.Ok? && trace.value.Str? ==> Join("\n", s.log[|log|].trace) == trace.value.s)
      && (!(trace.Ok? && trace.value.Str?) ==> s.log[|log|].trace == [])
  {
    var f := items[i];
    var trace := Index(f, "stackTrace");
    var printed := log + [TestFailure(p.index, Index(f, "id").value, Index(f, "message").value, TraceLines(trace))];
    if trace.Ok? {
      var s := FailuresFrom(items, i + 1, Progress(p.index + 1, Put(p.seen, Index(f, "id").value, f)), printed);
      assert printed <= s.log;
      assert s.log[|log|] == printed[|log|];
    }
  }

  /** Looking up an id that is a dictionary or a list in the ids printed before raises
      `TypeError`, before anything is printed, for a lone failure and for a failure of a list. */
  lemma UnhashableIdRaises(f: Node, items: seq<Node>, i: nat, p: Progress, log: seq<LogEntry>)
    requires f.Map? && HasKey(f.entries, "id") && (Get(f.entries, "id").Map? || Get(f.entries, "id").List?)
    requires i < |items| && items[i] == f
    ensures var s := LoneFailure(f, p, log);
      s.log == log && s.progress == p && s.error.Some? && s.error.value.TypeError?
    ensures var s := FailuresFrom(items, i, p, log);
      s.log == log && s.progress == p && s.error.Some? && s.error.value.TypeError?
  {
  }

  /** A lone test failure is printed like a one-element list of it, but it DOUBLES the number
      of the next failure where the list adds one, and it fails on a stack trace that is not a
      string where the list does not. */
  lemma LoneFailureAgainstList(f: Node, p: Progress, log: seq<LogEntry>)
    requires f.Map?
    ensures var (lone, list) := (LoneFailure(f, p, log), FailuresFrom([f], 0, p, log));
      && lone.log == list.log && lone.progress.seen == list.progress.seen
      && (lone.error.None? ==> list.error.None?)
      && (list.error.Some? ==> lone.error == list.error)
      && (lone.error.None? && |lone.log| > |log| ==>
            lone.progress.index == 2 * p.index && list.progress.index == p.index + 1)
  {
    assert [f][0] == f;
  }

  // ----- the report of a failed deployment -----

  /** The component failures get one message each, in order, numbered from 1; the report
      exists exactly when every failure has its file name, problem type and problem. */
  lemma ComponentMessagesNumbered(failures: seq<Node>)
    ensures var r := Collect(ComponentOutcomes(failures));
      && (r.Ok? <==> forall k | 0 <= k < |failures| :: ComponentMessage(failures[k], k + 1).Ok?)
      && (r.Ok? ==> |r.value| == |failures|)
      && (r.Ok? ==> forall k | 0 <= k < |failures| :: r.value[k] == ComponentMessage(failures[k], k + 1).value)
  {
    CollectAll(ComponentOutcomes(failures));
  }

  /** Every component message starts with its number. */
  lemma ComponentMessageNumbered(failure: Node, n: nat)
    ensures ComponentMessage(failure, n).Ok? ==> StartsWith(ComponentMessage(failure, n).value, DecimalString(n) + ". ")
  {
    if ComponentMessage(failure, n).Ok? {
      var line := if In("lineNumber", failure).value then Index(failure, "lineNumber").value else Str("0");
      var column := if In("columnNumber", failure).value then Index(failure, "columnNumber").value else Str("0");
      var head := DecimalString(n) + ". ";
      assert head[..|head|] == head;
      var s1 := head + Show(Index(failure, "fileName").value);
      StartsWithAppend(head, head, Show(Index(failure, "fileName").value));
      var s2 := s1 + " -- " + Show(Index(failure, "problemType").value);
      StartsWithAppend(s1, head, " -- ");
      StartsWithAppend(s1 + " -- ", head, Show(Index(failure, "problemType").value));
      var s3 := s2 + ": " + Show(Index(failure, "problem").value);
      StartsWithAppend(s2, head, ": ");
      StartsWithAppend(s2 + ": ", head, Show(Index(failure, "problem").value));
      var s4 := s3 + " (line " + Show(line);
      StartsWithAppend(s3, head, " (line ");
      StartsWithAppend(s3 + " (line ", head, Show(line));
      var s5 := s4 + " column " + Show(column);
      StartsWithAppend(s4, head, " column ");
      StartsWithAppend(s4 + " column ", head, Show(column));
      StartsWithAppend(s5, head, ")");
      assert ComponentMessage(failure, n).value == s5 + ")";
    }
  }




  /** The text shown for the line or the column of a component failure: its value when the
      failure has one, 0 otherwise. */
  function PositionText(failure: Node, key: string): string
    requires failure.Map?
  {
    if HasKey(failure.entries, key) then Show(Get(failure.entries, key)) else "0"
  }

  /** A component failure has a message exactly when it has a file name, a problem type and a
      problem; the message ends with its line and its column, each shown as 0 when missing. */
  lemma ComponentPosition(failure: Node, n: nat)
    requires failure.Map?
    ensures ComponentMessage(failure, n).Ok? <==>
      HasKey(failure.entries, "fileName") && HasKey(failure.entries, "problemType") && HasKey(failure.entries, "problem")
    ensures ComponentMessage(failure, n).Ok? ==>
      EndsWith(ComponentMessage(failure, n).value,
               " (line " + PositionText(failure, "lineNumber") + " column " + PositionText(failure, "columnNumber") + ")")
  {
    var es := failure.entries;
    if HasKey(es, "fileName") && HasKey(es, "problemType") && HasKey(es, "problem") {
      var head := DecimalString(n) + ". " + Show(Get(es, "fileName")) + " -- "
        + Show(Get(es, "problemType")) + ": " + Show(Get(es, "problem"));
      ComponentMessageText(failure, n);
      SuffixOfParts(head, " (line ", PositionText(failure, "lineNumber"), " column ", PositionText(failure, "columnNumber"), ")");
    }
  }

  /** The message of a component failure that has its file name, problem type and problem. */
  lemma ComponentMessageText(failure: Node, n: nat)
    requires failure.Map?
    requires HasKey(failure.entries, "fileName") && HasKey(failure.entries, "problemType") && HasKey(failure.entries, "problem")
    ensures ComponentMessage(failure, n) == Ok(DecimalString(n) + ". " + Show(Get(failure.entries, "fileName")) + " -- "
      + Show(Get(failure.entries, "problemType")) + ": " + Show(Get(failure.entries, "problem"))
      + " (line " + PositionText(failure, "lineNumber") + " column " + PositionText(failure, "columnNumber") + ")")
  {
  }

  lemma SuffixOfParts(h: string, a: string, b: string, c: string, d: string, e: string)
    ensures EndsWith(h + a + b + c + d + e, a + b + c + d + e)
  {
    var t := a + b + c + d + e;
    assert h + a + b + c + d + e == h + t;
    assert (h + t)[|h + t| - |t|..] == t;
  }

  /** A lone component failure (a dictionary, not a list) is reported as the single message
      numbered 1, and the report fails as that message does. */
  lemma LoneComponentFailure(body: Node, details: Node, f: Node)
    requires Index(body, "details") == Ok(details) && Index(details, "componentFailures") == Ok(f) && f.Map?
    ensures ComponentMessage(f, 1).Ok? ==> FailuresReport(body) == Ok(([ComponentMessage(f, 1).value], None))
    ensures ComponentMessage(f, 1).Err? ==> FailuresReport(body) == Err(ComponentMessage(f, 1).exc)
  {
    assert In("componentFailures", details) == Ok(true);
    assert Iterate(OneOrMany(f)) == Ok([f]);
    assert ComponentOutcomes([f]) == [ComponentMessage(f, 1)];
    if ComponentMessage(f, 1).Ok? {
      var message := ComponentMessage(f, 1).value;
      assert Collect(ComponentOutcomes([f])[1..]) == Ok([]);
      assert [message] + [] == [message];
      assert Collect(ComponentOutcomes([f])) == Ok([message]);
    }
  }

  /** The coverage warnings from position `i` on whose name is a string, in order. */
  function Named(warnings: seq<Node>, i: nat): (r: seq<Node>)
    requires i <= |warnings|
    ensures |r| <= |warnings| - i
    decreases |warnings| - i
  {
    if i == |warnings| then []
    else
      var head := if Index(warnings[i], "name").Ok? && Index(warnings[i], "name").value.Str? then [warnings[i]] else [];
      head + Named(warnings, i + 1)
  }

  /** The line printed for a warning with a string name: `name -- message`. */
  function WarningLine(w: Node): string {
    var name := Index(w, "name");
    var message := Index(w, "message");
    (if name.Ok? && name.value.Str? then name.value.s else "") + " -- " + (if message.Ok? then Show(message.value) else "")
  }

  /** The coverage report succeeds exactly when every warning has a name, and a message when
      that name is a string; it then lists `name -- message` for the warnings named by a string,
      in order, and passes over the others. */
  lemma WarningsListed(warnings: seq<Node>, i: nat)
    requires i <= |warnings|
    ensures WarningsFrom(warnings, i).Ok? <==> forall k | i <= k < |warnings| ::
      Index(warnings[k], "name").Ok? && (Index(warnings[k], "name").value.Str? ==> Index(warnings[k], "message").Ok?)
    ensures WarningsFrom(warnings, i).Ok? ==> WarningsFrom(warnings, i).value == MapSeq(WarningLine, Named(warnings, i))
  {
    WarningsOk(warnings, i);
    if WarningsFrom(warnings, i).Ok? {
      WarningsLines(warnings, i);
    }
  }

  lemma {:induction false} WarningsOk(warnings: seq<Node>, i: nat)
    requires i <= |warnings|
    ensures WarningsFrom(warnings, i).Ok? <==> forall k | i <= k < |warnings| ::
      Index(warnings[k], "name").Ok? && (Index(warnings[k], "name").value.Str? ==> Index(warnings[k], "message").Ok?)
    decreases |warnings| - i
  {
    if i < |warnings| {
      WarningsOk(warnings, i + 1);
    }
  }

  lemma {:induction false} WarningsLines(warnings: seq<Node>, i: nat)
    requires i <= |warnings| && WarningsFrom(warnings, i).Ok?
    ensures WarningsFrom(warnings, i).value == MapSeq(WarningLine, Named(warnings, i))
    decreases |warnings| - i
  {
    if i < |warnings| {
      WarningsLines(warnings, i + 1);
      var name := Index(warnings[i], "name");
      if name.value.Str? {
        var named := Named(warnings, i);
        assert named[0] == warnings[i] && named[1..] == Named(warnings, i + 1);
        MapSeqTail(WarningLine, named);
      }
    }
  }

  // ----- the status of a deployment -----

  /** A decoded status carries `success` set to true, the debugging header (`None` when the
      envelope has none) and the deployment result. */
  lemma DeployStatusShape(reply: Reply)
    requires reply.Answer?
    ensures var r := DeployStatusOf(reply);
      r.Ok? ==>
        && Keys(r.value.entries) == ["success", "header", "body"]
        && Index(r.value, "success") == Ok(Bool(true))
        && Index(r.value, "body") == Path(reply.document, ["soapenv:Envelope", "soapenv:Body", "checkDeployStatusResponse", "result"])
        && (Index(reply.document, "soapenv:Envelope").Ok? && In("soapenv:Header", Index(reply.document, "soapenv:Envelope").value) == Ok(false) ==>
              Index(r.value, "header") == Ok(Null))
  {
    var r := DeployStatusOf(reply);
    if r.Ok? {
      var entries := r.value.entries;
      GetAt(entries, 0);
      GetAt(entries, 1);
      GetAt(entries, 2);
      var envelope := Index(reply.document, "soapenv:Envelope").value;
      var path := ["soapenv:Envelope", "soapenv:Body", "checkDeployStatusResponse", "result"];
      assert path[1..] == ["soapenv:Body", "checkDeployStatusResponse", "result"];
      assert Path(reply.document, path) == Path(envelope, path[1..]);
    }
  }

  /** An answer whose result cannot be found under `checkDeployStatusResponse` is not an
      exception: `check_deploy_status` returns the "Convert Xml to JSON Exception" failure
      naming the missing key, and leaves the stored result alone. (The debugging header, when
      there is one, is read first, so it must be readable for the missing result to show.) */
  lemma CheckDeployStatusKeyError(w: World, id: string, key: string)
    requires w.metadataUrl.Some? && |w.replies| > 0 && w.replies[0].Answer? && w.replies[0].statusCode <= 399
    requires ResultOf(w.replies[0], "checkDeployStatusResponse") == Err(KeyError(key))
    requires Index(w.replies[0].document, "soapenv:Envelope").Ok? ==>
      DebuggingHeader(Index(w.replies[0].document, "soapenv:Envelope").value).Ok?
    ensures var (c, w') := CheckDeployStatusSpec(w, id);
      && c == Got(ConvertError(key))
      && w'.result == w.result
      && w'.posts == w.posts + [Post("check_deploy_status", id)]
  {
    var reply := w.replies[0];
    var path := ["soapenv:Envelope", "soapenv:Body", "checkDeployStatusResponse", "result"];
    assert path[1..] == ["soapenv:Body", "checkDeployStatusResponse", "result"];
    var envelope := Index(reply.document, "soapenv:Envelope");
    if envelope.Ok? {
      assert Path(reply.document, path) == Path(envelope.value, path[1..]);
    }
    assert DeployStatusOf(reply) == Err(KeyError(key));
  }

  /** The login `cancel_deployment` starts with succeeds. */
  ghost predicate LoginSucceeds(w: World) {
    && |w.logins| > 0 && Index(w.logins[0], "success") == Ok(Bool(true))
    && Index(w.logins[0], "instance_url").Ok? && Index(w.logins[0], "instance_url").value.Str?
  }

  /** A cancellation whose login fails sends nothing and returns and stores the login result. */
  lemma CancelDeploymentLoginFails(w: World, apiVersion: nat, id: string)
    requires |w.logins| > 0 && Index(w.logins[0], "success").Ok? && !Truthy(Index(w.logins[0], "success").value)
    ensures var (c, w') := CancelDeploymentSpec(w, apiVersion, id);
      c == Got(w.logins[0]) && w'.result == w.logins[0] && w'.posts == w.posts
  {
  }

  /** A cancellation answer whose result cannot be found under `cancelDeployResponse` becomes
      the "Convert Xml to JSON Exception" failure naming the missing key, returned and stored. */
  lemma CancelDeploymentKeyError(w: World, apiVersion: nat, id: string, key: string)
    requires LoginSucceeds(w)
    requires |w.replies| > 0 && w.replies[0].Answer? && w.replies[0].statusCode <= 399
    requires ResultOf(w.replies[0], "cancelDeployResponse") == Err(KeyError(key))
    ensures var (c, w') := CancelDeploymentSpec(w, apiVersion, id);
      && c == Got(ConvertError(key))
      && w'.result == ConvertError(key)
      && w'.posts == w.posts + [Post("cancel_deployment", id)]
  {
    assert HasKey(w.logins[0].entries, "success");
  }

  /** A cancellation answer with a result returns and stores that result marked as a success,
      with every other entry as it came. */
  lemma CancelDeploymentMarksSuccess(w: World, apiVersion: nat, id: string)
    requires LoginSucceeds(w)
    requires |w.replies| > 0 && w.replies[0].Answer? && w.replies[0].statusCode <= 399
    requires ResultOf(w.replies[0], "cancelDeployResponse").Ok? && ResultOf(w.replies[0], "cancelDeployResponse").value.Map?
    ensures var (c, w') := CancelDeploymentSpec(w, apiVersion, id);
      var answer := ResultOf(w.replies[0], "cancelDeployResponse").value;
      && c.Got? && w'.result == c.value
      && Index(c.value, "success") == Ok(Bool(true))
      && (forall k :: k != "success" ==> Index(c.value, k) == Index(answer, k))
      && w'.posts == w.posts + [Post("cancel_deployment", id)]
  {
    assert HasKey(w.logins[0].entries, "success");
    var answer := ResultOf(w.replies[0], "cancelDeployResponse").value;
    var marked := Map(Put(answer.entries, "success", Bool(true)));
    forall k
      ensures Index(marked, k) == if k == "success" then Ok(Bool(true)) else Index(answer, k)
    {
      PutGet(answer.entries, "success", Bool(true), k);
    }
  }

  /** `check_retrieve_status` marks an answer that is not an error as a success only when its
      status is below 399, and does not store it. */
  lemma CheckRetrieveStatusSuccess(w: World, id: string)
    requires w.metadataUrl.Some? && |w.replies| > 0 && w.replies[0].Answer? && w.replies[0].statusCode <= 399
    requires ResultOf(w.replies[0], "checkRetrieveStatusResponse").Ok?
    requires ResultOf(w.replies[0], "checkRetrieveStatusResponse").value.Map?
    ensures var (c, w') := CheckRetrieveStatusSpec(w, id);
      && c.Got? && w'.result == w.result
      && Index(c.value, "success") == Ok(Bool(w.replies[0].statusCode < 399))
  {
    var answer := ResultOf(w.replies[0], "checkRetrieveStatusResponse").value;
    PutGet(answer.entries, "success", Bool(w.replies[0].statusCode < 399), "success");
  }
}
