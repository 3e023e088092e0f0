/** What doWork promises, stated over the traces of `Worker`: for one
    delivery, the order and content of the status reports and the condition
    for acknowledgement; for a stream, acknowledgement in arrival order and
    the end of all work at the first crash. */
module WorkerProperties {
  import opened Outcomes
  import PerfData
  import Task
  import opened Api
  import opened Worker

  // ---------------------------------------------------------------------------
  // Views of a trace

  /** The statuses reported by the update requests of a trace, in order. */
  function Statuses(es: seq<Event>): seq<TaskStatus>
  {
    if es == [] then []
    else
      var e := es[0];
      (if e.SendUpdate? && e.request.body.Update? then [e.request.body.update.taskStatus] else [])
        + Statuses(es[1..])
  }

  /** The tags acknowledged in a trace, in order. */
  function AckTags(es: seq<Event>): seq<nat>
  {
    if es == [] then [] else (if es[0].Ack? then [es[0].tag] else []) + AckTags(es[1..])
  }

  function Tags(ds: seq<Delivery>): (ts: seq<nat>)
    ensures |ts| == |ds| && forall i :: 0 <= i < |ds| ==> ts[i] == ds[i].tag
  {
    seq(|ds|, i requires 0 <= i < |ds| => ds[i].tag)
  }

  /** A step that is neither the end of a delivery nor a crash. */
  predicate Intermediate(e: Event)
  {
    e.SendLogin? || e.SendUpdate? || e.Call?
  }

  /** An update request reporting SUCCESS or FAILURE. */
  predicate TerminalReport(e: Event)
  {
    e.SendUpdate? && e.request.body.Update? && e.request.body.update.taskStatus.IsTerminal()
  }

  /** An update request to the task's status resource under the base URL,
      authorised by the token. */
  predicate AddressedTo(r: Request, baseUrl: string, taskUuid: string, token: string)
  {
    && r.verb == "PATCH"
    && |r.url| >= |baseUrl| && r.url[..|baseUrl|] == baseUrl
    && TaskUuidOf(r.url[|baseUrl|..]) == Some(taskUuid)
    && "Authorization" in r.headers && BearerToken(r.headers["Authorization"]) == Some(token)
  }

  // ---------------------------------------------------------------------------
  // Trace algebra

  lemma {:induction false} StatusesAppend(a: seq<Event>, b: seq<Event>)
    ensures Statuses(a + b) == Statuses(a) + Statuses(b)
    decreases |a|
  {
    if a != [] {
      assert (a + b)[0] == a[0] && (a + b)[1..] == a[1..] + b;
      StatusesAppend(a[1..], b);
      var e := a[0];
      PerfData.AppendAssociates(if e.SendUpdate? && e.request.body.Update? then [e.request.body.update.taskStatus] else [],
                                Statuses(a[1..]), Statuses(b));
    } else {
      assert a + b == b;
    }
  }

  lemma {:induction false} AckTagsAppend(a: seq<Event>, b: seq<Event>)
    ensures AckTags(a + b) == AckTags(a) + AckTags(b)
    decreases |a|
  {
    if a != [] {
      assert (a + b)[0] == a[0] && (a + b)[1..] == a[1..] + b;
      AckTagsAppend(a[1..], b);
      PerfData.AppendAssociates(if a[0].Ack? then [a[0].tag] else [], AckTags(a[1..]), AckTags(b));
    } else {
      assert a + b == b;
    }
  }

  /** Steps that are not acknowledgements acknowledge nothing and steps that
      are not update requests report nothing. */
  lemma {:induction false} NothingReported(es: seq<Event>)
    requires forall e :: e in es ==> e.Call?
    ensures Statuses(es) == [] && AckTags(es) == []
    decreases |es|
  {
    if es != [] {
      assert es[0] in es;
      assert forall e :: e in es[1..] ==> e in es;
      NothingReported(es[1..]);
    }
  }

  lemma {:induction false} NoAckTags(es: seq<Event>)
    requires forall e :: e in es ==> Intermediate(e)
    ensures AckTags(es) == []
    decreases |es|
  {
    if es != [] {
      assert es[0] in es;
      assert forall e :: e in es[1..] ==> e in es;
      NoAckTags(es[1..]);
    }
  }

  /** Everything before the final update request. */
  function Steps(lc: Lifecycle): seq<Event>
  {
    LoginEvents(lc.login) + (UpdateEvents(lc.received) + (UpdateEvents(lc.started) + Calls(lc.probes)))
  }

  /** A delivery's trace is intermediate steps followed by exactly one end:
      an acknowledgement or a crash. */
  lemma EventsShape(lc: Lifecycle)
    ensures Events(lc) == (Steps(lc) + UpdateEvents(lc.terminal)) + [EndEvent(lc.end)]
    ensures forall e :: e in Steps(lc) + UpdateEvents(lc.terminal) ==> Intermediate(e)
  {
    var a, b, c, p := LoginEvents(lc.login), UpdateEvents(lc.received), UpdateEvents(lc.started), Calls(lc.probes);
    var t, e := UpdateEvents(lc.terminal), [EndEvent(lc.end)];
    PerfData.AppendAssociates(p, t, e);
    PerfData.AppendAssociates(c, p + t, e);
    PerfData.AppendAssociates(b, c + (p + t), e);
    PerfData.AppendAssociates(a, b + (c + (p + t)), e);
    PerfData.AppendAssociates(c, p, t);
    PerfData.AppendAssociates(b, c + p, t);
    PerfData.AppendAssociates(a, b + (c + p), t);
    assert forall x :: x in p ==> x.Call?;
  }

  /** The statuses a delivery's trace reports come from its three update
      requests, in order. */
  lemma StatusesOfEvents(lc: Lifecycle)
    ensures Statuses(Events(lc))
         == Statuses(UpdateEvents(lc.received)) + Statuses(UpdateEvents(lc.started)) + Statuses(UpdateEvents(lc.terminal))
  {
    var a, b, c, p := LoginEvents(lc.login), UpdateEvents(lc.received), UpdateEvents(lc.started), Calls(lc.probes);
    var t, e := UpdateEvents(lc.terminal), [EndEvent(lc.end)];
    assert forall x :: x in p ==> x.Call?;
    NothingReported(p);
    assert Statuses(a) == [] && Statuses(e) == [];
    StatusesOfParts(a, b, c, p, t, e);
  }

  lemma StatusesOfParts(a: seq<Event>, b: seq<Event>, c: seq<Event>, p: seq<Event>, t: seq<Event>, e: seq<Event>)
    requires Statuses(a) == [] && Statuses(p) == [] && Statuses(e) == []
    ensures Statuses(a + (b + (c + (p + (t + e))))) == Statuses(b) + Statuses(c) + Statuses(t)
  {
    StatusesAppend(t, e);
    StatusesAppend(p, t + e);
    StatusesAppend(c, p + (t + e));
    StatusesAppend(b, c + (p + (t + e)));
    StatusesAppend(a, b + (c + (p + (t + e))));
  }

  /** A delivery's trace acknowledges its own tag when it ends acknowledged,
      and nothing otherwise. */
  lemma AckTagsOfEvents(lc: Lifecycle)
    ensures AckTags(Events(lc)) == if lc.end.Acked? then [lc.end.tag] else []
  {
    EventsShape(lc);
    NoAckTags(Steps(lc) + UpdateEvents(lc.terminal));
    AckTagsAppend(Steps(lc) + UpdateEvents(lc.terminal), [EndEvent(lc.end)]);
  }

  // ---------------------------------------------------------------------------
  // One delivery

  /** RECEIVED and STARTED carry no result; the final report is SUCCESS or
      FAILURE and carries one. */
  lemma ReportBodies(d: Delivery, env: Environment)
    ensures var lc := Handle(d, env);
      && (lc.received.Some? ==> lc.received.value.body == Update(StatusUpdate(Received, None)))
      && (lc.started.Some? ==> lc.started.value.body == Update(StatusUpdate(Started, None)))
      && (lc.terminal.Some? ==> && lc.terminal.value.body.Update?
                                && lc.terminal.value.body.update.taskStatus.IsTerminal()
                                && lc.terminal.value.body.update.result.Some?)
  {
  }

  /** A delivery is acknowledged exactly when its message decodes, the
      authority accepts the login and all three status updates, the task does
      not crash and the broker takes the acknowledgement. */
  lemma AckedIff(d: Delivery, env: Environment)
    ensures Handle(d, env).end.Acked? <==>
      && Decode(d).Ok?
      && Accepted(env.loginReply(d.tag), LoginSucceeded) && env.loginReply(d.tag).access.Some?
      && Accepted(env.updateReply(d.tag, Received), UpdateSucceeded)
      && Accepted(env.updateReply(d.tag, Started), UpdateSucceeded)
      && (var task := Task.StartTask(Decode(d).value.message, env.metrics(d.tag));
          && !task.outcome.Panic?
          && Accepted(env.updateReply(d.tag, TerminalUpdate(task.outcome).taskStatus), UpdateSucceeded))
      && env.ackSucceeds(d.tag)
  {
  }

  /** The final report states the task's outcome: SUCCESS with the task's
      data, or FAILURE with the task's error and no data. */
  lemma TerminalReportsTask(d: Delivery, env: Environment)
    requires Handle(d, env).terminal.Some?
    ensures Decode(d).Ok?
    ensures var task := Task.StartTask(Decode(d).value.message, env.metrics(d.tag));
      var u := Handle(d, env).terminal.value.body.update;
      && Handle(d, env).terminal.value.body.Update?
      && !task.outcome.Panic?
      && (u.taskStatus == Success <==> task.outcome.Ok?)
      && (forall data :: task.outcome == Ok(data) <==> u.result == Some(TaskResult(true, Some(data), TaskSucceeded)))
      && (forall error :: task.outcome == Fail(error) <==> u.result == Some(TaskResult(false, None, error)))
  {
  }

  /** The requests a lifecycle's trace sends are the ones it records. */
  lemma RequestsOfEvents(lc: Lifecycle)
    ensures forall e :: e in Events(lc) && e.SendLogin? ==> lc.login == Some(e.request)
    ensures forall e :: e in Events(lc) && e.SendUpdate? ==>
      lc.received == Some(e.request) || lc.started == Some(e.request) || lc.terminal == Some(e.request)
  {
    EventsShape(lc);
    assert forall x :: x in Calls(lc.probes) ==> x.Call?;
  }

  /** Each request a delivery records is addressed as doWork builds it. */
  lemma RecordedRequests(d: Delivery, env: Environment)
    ensures var lc := Handle(d, env);
      && (lc.login.Some? ==>
            && Decode(d).Ok?
            && lc.login.value == LoginRequest(Decode(d).value.baseUrl, Decode(d).value.username, Decode(d).value.password))
      && (lc.received.Some? ==>
            && Decode(d).Ok? && UserLogin(env.loginReply(d.tag)).Ok?
            && AddressedTo(lc.received.value, Decode(d).value.baseUrl, Decode(d).value.taskUuid, UserLogin(env.loginReply(d.tag)).value))
      && (lc.started.Some? ==>
            && Decode(d).Ok? && UserLogin(env.loginReply(d.tag)).Ok?
            && AddressedTo(lc.started.value, Decode(d).value.baseUrl, Decode(d).value.taskUuid, UserLogin(env.loginReply(d.tag)).value))
      && (lc.terminal.Some? ==>
            && Decode(d).Ok? && UserLogin(env.loginReply(d.tag)).Ok?
            && AddressedTo(lc.terminal.value, Decode(d).value.baseUrl, Decode(d).value.taskUuid, UserLogin(env.loginReply(d.tag)).value))
  {
  }

  /** The reports go to the task's own status resource, under the base URL
      the message names, with the token the login returned; the login goes to
      the same base URL with the message's credentials. */
  lemma RequestsAddressTheTask(d: Delivery, env: Environment)
    ensures forall e :: e in Events(Handle(d, env)) && e.SendLogin? ==>
      && Decode(d).Ok?
      && e.request == LoginRequest(Decode(d).value.baseUrl, Decode(d).value.username, Decode(d).value.password)
    ensures forall e :: e in Events(Handle(d, env)) && e.SendUpdate? ==>
      && Decode(d).Ok? && UserLogin(env.loginReply(d.tag)).Ok?
      && AddressedTo(e.request, Decode(d).value.baseUrl, Decode(d).value.taskUuid, UserLogin(env.loginReply(d.tag)).value)
  {
    RequestsOfEvents(Handle(d, env));
    RecordedRequests(d, env);
  }

  /** The reports of one delivery are a prefix of RECEIVED, STARTED, then
      SUCCESS or FAILURE; an acknowledged delivery made all three. */
  lemma StatusOrder(d: Delivery, env: Environment)
    ensures var st := Statuses(Events(Handle(d, env)));
      && |st| <= 3
      && (|st| >= 1 ==> st[0] == Received)
      && (|st| >= 2 ==> st[1] == Started)
      && (|st| == 3 ==> st[2].IsTerminal())
      && (Handle(d, env).end.Acked? ==> |st| == 3)
  {
    StatusesOfEvents(Handle(d, env));
    ReportBodies(d, env);
  }

  /** A rejected or unreadable login ends the agent before any report. */
  lemma LoginRejectedReportsNothing(d: Delivery, env: Environment)
    requires Decode(d).Ok? && !UserLogin(env.loginReply(d.tag)).Ok?
    ensures var j := Decode(d).value;
      var login := UserLogin(env.loginReply(d.tag));
      Events(Handle(d, env)) == [SendLogin(LoginRequest(j.baseUrl, j.username, j.password)), Halt(HaltReason(login, LoginFailed))]
  {
  }

  /** A rejected or unreadable RECEIVED report ends the agent before STARTED. */
  lemma ReceivedRejectedStops(d: Delivery, env: Environment)
    requires Decode(d).Ok? && UserLogin(env.loginReply(d.tag)).Ok?
    requires !UpdateTaskStatus(env.updateReply(d.tag, Received)).Ok?
    ensures var j := Decode(d).value;
      var token := UserLogin(env.loginReply(d.tag)).value;
      var reply := UpdateTaskStatus(env.updateReply(d.tag, Received));
      Events(Handle(d, env)) == [SendLogin(LoginRequest(j.baseUrl, j.username, j.password)),
                                 SendUpdate(UpdateRequest(j.baseUrl, j.taskUuid, token, StatusUpdate(Received, None))),
                                 Halt(HaltReason(reply, UpdateFailed))]
  {
  }

  /** A rejected or unreadable STARTED report ends the agent before the task
      runs: no metrics call and no final report. */
  lemma StartedRejectedStops(d: Delivery, env: Environment)
    requires Decode(d).Ok? && UserLogin(env.loginReply(d.tag)).Ok?
    requires UpdateTaskStatus(env.updateReply(d.tag, Received)).Ok?
    requires !UpdateTaskStatus(env.updateReply(d.tag, Started)).Ok?
    ensures var j := Decode(d).value;
      var token := UserLogin(env.loginReply(d.tag)).value;
      var reply := UpdateTaskStatus(env.updateReply(d.tag, Started));
      Events(Handle(d, env)) == [SendLogin(LoginRequest(j.baseUrl, j.username, j.password)),
                                 SendUpdate(UpdateRequest(j.baseUrl, j.taskUuid, token, StatusUpdate(Received, None))),
                                 SendUpdate(UpdateRequest(j.baseUrl, j.taskUuid, token, StatusUpdate(Started, None))),
                                 Halt(HaltReason(reply, UpdateFailed))]
  {
  }

  /** A task type other than 0 is still reported, as a FAILURE whose message is
      "task type not supported", without any call to the metrics library. */
  lemma UnsupportedTaskReportsFailure(d: Delivery, env: Environment)
    requires Decode(d).Ok? && Task.Dispatchable(d.message.value)
    requires d.message.value.taskType.value != Task.PerfDataTaskType
    requires UserLogin(env.loginReply(d.tag)).Ok?
    requires UpdateTaskStatus(env.updateReply(d.tag, Received)).Ok?
    requires UpdateTaskStatus(env.updateReply(d.tag, Started)).Ok?
    ensures var lc := Handle(d, env);
      && lc.probes == []
      && lc.terminal.Some?
      && lc.terminal.value.body == Update(StatusUpdate(Failure, Some(TaskResult(false, None, Task.TaskTypeNotSupported))))
  {
    Task.UnsupportedTypeDoesNoWork(d.message.value, env.metrics(d.tag));
  }

  // ---------------------------------------------------------------------------
  // A stream of deliveries

  /** The acknowledgements of a stream of lifecycles are the tags of its
      completed prefix, in order. */
  lemma {:induction false} StreamAckTags(lcs: seq<Lifecycle>)
    ensures var a := AckTags(Stream(lcs));
      && |a| == CompletedOf(lcs)
      && forall i :: 0 <= i < |a| ==> a[i] == lcs[i].end.tag
    decreases |lcs|
  {
    if lcs != [] {
      AckTagsOfEvents(lcs[0]);
      if !lcs[0].end.Halted? {
        var rest := Stream(lcs[1..]);
        assert Stream(lcs) == Events(lcs[0]) + rest;
        StreamAckTags(lcs[1..]);
        AckTagsAppend(Events(lcs[0]), rest);
        var a := AckTags(Stream(lcs));
        assert a == [lcs[0].end.tag] + AckTags(rest);
        forall i | 0 <= i < |a| ensures a[i] == lcs[i].end.tag {
          if i > 0 {
            assert a[i] == AckTags(rest)[i - 1] && lcs[i] == lcs[1..][i - 1];
          }
        }
      }
    }
  }

  /** The agent acknowledges deliveries in the order they arrive, each once,
      up to the first crash. */
  lemma AcksInArrivalOrder(ds: seq<Delivery>, env: Environment)
    ensures AckTags(Trace(ds, env)) == Tags(ds[..Completed(ds, env)])
  {
    StreamAckTags(Lifecycles(ds, env));
  }

  /** No event of a trace but its last is a crash. */
  predicate HaltOnlyLast(t: seq<Event>)
  {
    forall i :: 0 <= i < |t| - 1 ==> !t[i].Halt?
  }

  /** Appending to a trace that does not end in a crash keeps crashes last,
      and the result ends as the appended part does. */
  lemma HaltOnlyLastAppend(a: seq<Event>, b: seq<Event>)
    requires HaltOnlyLast(a) && (a != [] ==> !a[|a| - 1].Halt?) && HaltOnlyLast(b)
    ensures HaltOnlyLast(a + b)
    ensures b != [] ==> (a + b)[|a + b| - 1] == b[|b| - 1]
  {
    forall i | 0 <= i < |a + b| - 1 ensures !(a + b)[i].Halt? {
      if i >= |a| {
        assert (a + b)[i] == b[i - |a|];
      }
    }
  }

  /** A lifecycle's trace is never empty and only its last event can be a
      crash. */
  lemma HaltOnlyAtEnd(lc: Lifecycle)
    ensures var es := Events(lc);
      && es != [] && (es[|es| - 1].Halt? <==> lc.end.Halted?)
      && HaltOnlyLast(es)
  {
    var es := Events(lc);
    EventsShape(lc);
    forall i | 0 <= i < |es| - 1 ensures !es[i].Halt? {
      assert es[i] in Steps(lc) + UpdateEvents(lc.terminal);
    }
  }

  /** In a stream of lifecycles a crash is the last event, and there is one
      exactly when some lifecycle did not end acknowledged. */
  lemma {:induction false} StreamCrash(lcs: seq<Lifecycle>)
    ensures var t := Stream(lcs);
      && HaltOnlyLast(t)
      && (CompletedOf(lcs) < |lcs| <==> t != [] && t[|t| - 1].Halt?)
    decreases |lcs|
  {
    if lcs != [] {
      HaltOnlyAtEnd(lcs[0]);
      if !lcs[0].end.Halted? {
        var rest := Stream(lcs[1..]);
        assert Stream(lcs) == Events(lcs[0]) + rest;
        StreamCrash(lcs[1..]);
        if lcs[1..] != [] {
          HaltOnlyAtEnd(lcs[1..][0]);
        }
        HaltOnlyLastAppend(Events(lcs[0]), rest);
      }
    }
  }

  /** A crash is the last thing the agent does, and it crashes exactly when
      some delivery was not handled to acknowledgement. */
  lemma CrashEndsTrace(ds: seq<Delivery>, env: Environment)
    ensures var t := Trace(ds, env);
      && HaltOnlyLast(t)
      && (Completed(ds, env) < |ds| <==> t != [] && t[|t| - 1].Halt?)
  {
    StreamCrash(Lifecycles(ds, env));
  }

  /** Every acknowledgement in a trace immediately follows a final report. */
  predicate AcksFollowReports(t: seq<Event>)
  {
    forall i :: 0 <= i < |t| && t[i].Ack? ==> i > 0 && TerminalReport(t[i - 1])
  }

  lemma AcksFollowReportsAppend(a: seq<Event>, b: seq<Event>)
    requires AcksFollowReports(a) && AcksFollowReports(b)
    ensures AcksFollowReports(a + b)
  {
    forall i | 0 <= i < |a + b| && (a + b)[i].Ack? ensures i > 0 && TerminalReport((a + b)[i - 1]) {
      if i >= |a| {
        assert (a + b)[i] == b[i - |a|];
        if i > |a| {
          assert (a + b)[i - 1] == b[i - |a| - 1];
        }
      }
    }
  }

  lemma {:induction false} StreamAcksFollowReports(lcs: seq<Lifecycle>)
    requires forall i :: 0 <= i < |lcs| ==> AcksFollowReports(Events(lcs[i]))
    ensures AcksFollowReports(Stream(lcs))
    decreases |lcs|
  {
    if lcs != [] && !lcs[0].end.Halted? {
      assert forall i :: 0 <= i < |lcs[1..]| ==> lcs[1..][i] == lcs[i + 1];
      StreamAcksFollowReports(lcs[1..]);
      AcksFollowReportsAppend(Events(lcs[0]), Stream(lcs[1..]));
    }
  }

  /** Every acknowledgement immediately follows the delivery's final report:
      no delivery is acknowledged before the authority accepted its SUCCESS
      or FAILURE. */
  lemma AckFollowsTerminalReport(ds: seq<Delivery>, env: Environment)
    ensures AcksFollowReports(Trace(ds, env))
  {
    var lcs := Lifecycles(ds, env);
    forall i | 0 <= i < |lcs| ensures AcksFollowReports(Events(lcs[i])) {
      AckOnlyAfterReport(ds[i], env);
    }
    StreamAcksFollowReports(lcs);
  }

  /** In a lifecycle whose final request is a SUCCESS or FAILURE report, the
      only acknowledgement is the last event and follows that report. */
  lemma AckIsLast(lc: Lifecycle)
    requires WellFormed(lc)
    requires lc.terminal.Some? ==> TerminalReport(SendUpdate(lc.terminal.value))
    ensures var es := Events(lc);
      && AcksFollowReports(es)
      && forall i :: 0 <= i < |es| - 1 ==> !es[i].Ack?
  {
    var es := Events(lc);
    EventsShape(lc);
    forall i | 0 <= i < |es| && es[i].Ack? ensures i == |es| - 1 && i > 0 && TerminalReport(es[i - 1]) {
      if i == |es| - 1 {
        assert es[i - 1] == SendUpdate(lc.terminal.value);
      }
    }
  }

  /** Within one delivery's trace the only acknowledgement is the last event,
      and the event before it is the final report. */
  lemma AckOnlyAfterReport(d: Delivery, env: Environment)
    ensures var es := Events(Handle(d, env));
      && AcksFollowReports(es)
      && forall i :: 0 <= i < |es| - 1 ==> !es[i].Ack?
  {
    ReportBodies(d, env);
    AckIsLast(Handle(d, env));
  }
}
