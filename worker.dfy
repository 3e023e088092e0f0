/** The delivery loop: `doWork` in cmd/main.go.

    The broker hands the agent one delivery at a time (prefetch 1, manual
    acknowledgement). For each one the agent decodes the message, logs in to
    the task authority, reports RECEIVED and STARTED, runs the task, reports
    SUCCESS or FAILURE with the result, and acknowledges the delivery. A
    message that does not decode, and every failed login, report or
    acknowledgement (through `FailOnError`), panics and ends the process: no
    later delivery is handled. An error from the task is reported as
    FAILURE instead.

    What the agent does is recorded as a trace of events. What the outside
    world answers (the authority's replies, the metrics library, the broker's
    acknowledgement) is an `Environment` of functions indexed by the
    delivery tag, which the broker keeps unique within a channel. */
module Worker {
  import opened Outcomes
  import PerfData
  import Task
  import opened Api

  const LoginFailed := "Failed to login"
  const UpdateFailed := "Failed to update task status"
  const AckFailed := "Failed to ack message"
  const TaskSucceeded := "everything is ok"

  /** One broker delivery: its tag and its body, `None` when the body is not
      a JSON object. */
  datatype Delivery = Delivery(tag: nat, message: Option<Task.TaskMessage>)

  datatype Environment = Environment(
    loginReply: nat -> Reply,
    updateReply: (nat, TaskStatus) -> Reply,
    metrics: nat -> PerfData.Metrics,
    ackSucceeds: nat -> bool)

  /** What the agent does, in order: a request to the authority, a call into
      the metrics library (or a sleep), an acknowledgement to the broker, or a
      crash with the reason `FailOnError` (or the runtime) reports. */
  datatype Event =
    | SendLogin(request: Request)
    | SendUpdate(request: Request)
    | Call(probe: PerfData.Probe)
    | Ack(tag: nat)
    | Halt(reason: string)

  // ---------------------------------------------------------------------------
  // Decoding the delivery (lines 24-28)

  /** The fields doWork itself reads; the task reads the message again. */
  datatype Job = Job(baseUrl: string, taskUuid: string,
                     username: Option<string>, password: Option<string>,
                     message: Task.TaskMessage)

  /** A body that is not JSON, or a `metadata` / `base_url` / `task_uuid` of
      the wrong type, crashes the agent; the credentials are passed on as they
      are, missing or not. */
  function Decode(d: Delivery): (r: Outcome<Job>)
    ensures !r.Fail?
    ensures r.Ok? <==> d.message.Some? && d.message.value.metadata.Some?
                       && d.message.value.metadata.value.baseUrl.Some?
                       && d.message.value.metadata.value.taskUuid.Some?
    ensures r.Ok? ==> var meta := d.message.value.metadata.value;
      && r.value.baseUrl == meta.baseUrl.value && r.value.taskUuid == meta.taskUuid.value
      && r.value.username == meta.username && r.value.password == meta.password
      && r.value.message == d.message.value
  {
    if d.message.None? then Panic("Failed to unmarshal message")
    else
      var msg := d.message.value;
      if msg.metadata.None? then Panic("interface conversion: metadata is not an object")
      else if msg.metadata.value.baseUrl.None? then Panic("interface conversion: base_url is not a string")
      else if msg.metadata.value.taskUuid.None? then Panic("interface conversion: task_uuid is not a string")
      else
        var meta := msg.metadata.value;
        Ok(Job(meta.baseUrl.value, meta.taskUuid.value, meta.username, meta.password, msg))
  }

  /** The crash reason for a failed step: `FailOnError`'s message for an
      error, the callee's own reason for a panic. */
  function HaltReason<T>(o: Outcome<T>, context: string): string
    requires !o.Ok?
  {
    if o.Fail? then context else o.reason
  }

  /** The final status update (lines 56-78): SUCCESS with the data, or
      FAILURE with the error text and no data. */
  function TerminalUpdate(outcome: Outcome<PerfData.PerfData>): (u: StatusUpdate)
    requires !outcome.Panic?
    ensures u.taskStatus.IsTerminal() && u.result.Some?
    ensures u.taskStatus == Success <==> outcome.Ok?
    ensures u.result.value.status <==> outcome.Ok?
    ensures outcome.Ok? ==> u.result.value.data == Some(outcome.value) && u.result.value.msg == TaskSucceeded
    ensures outcome.Fail? ==> u.result.value.data == None && u.result.value.msg == outcome.error
  {
    match outcome
    case Ok(data) => StatusUpdate(Success, Some(TaskResult(true, Some(data), TaskSucceeded)))
    case Fail(error) => StatusUpdate(Failure, Some(TaskResult(false, None, error)))
  }

  // ---------------------------------------------------------------------------
  // One delivery

  datatype End = Acked(tag: nat) | Halted(reason: string)

  /** What handling one delivery did: the requests sent (`None` when the agent
      crashed before sending it), the metrics calls of the task, and how it
      ended. */
  datatype Lifecycle = Lifecycle(
    login: Option<Request>,
    received: Option<Request>,
    started: Option<Request>,
    probes: seq<PerfData.Probe>,
    terminal: Option<Request>,
    end: End)

  /** No step happens unless the step before it completed. */
  predicate WellFormed(lc: Lifecycle)
  {
    && (lc.received.Some? ==> lc.login.Some?)
    && (lc.started.Some? ==> lc.received.Some?)
    && (lc.probes != [] ==> lc.started.Some?)
    && (lc.terminal.Some? ==> lc.started.Some?)
    && (lc.end.Acked? ==> lc.terminal.Some?)
  }

  /** The last two steps (lines 79-83): the final status update is checked,
      then the delivery is acknowledged. */
  function Finish(terminalReply: Outcome<()>, ackSucceeds: bool, tag: nat): (end: End)
    ensures end.Acked? <==> terminalReply.Ok? && ackSucceeds
    ensures end.Acked? ==> end.tag == tag
  {
    if !terminalReply.Ok? then Halted(HaltReason(terminalReply, UpdateFailed))
    else if ackSucceeds then Acked(tag)
    else Halted(AckFailed)
  }

  /** The body of doWork's loop (lines 22-83) for one delivery. */
  function Handle(d: Delivery, env: Environment): (lc: Lifecycle)
    ensures WellFormed(lc)
    ensures lc.login.Some? <==> Decode(d).Ok?
    ensures lc.end.Acked? ==> lc.end.tag == d.tag
  {
    var job := Decode(d);
    if !job.Ok? then Lifecycle(None, None, None, [], None, Halted(job.reason))
    else
      var j := job.value;
      var login := LoginRequest(j.baseUrl, j.username, j.password);
      var token := UserLogin(env.loginReply(d.tag));
      if !token.Ok? then
        Lifecycle(Some(login), None, None, [], None, Halted(HaltReason(token, LoginFailed)))
      else
        var received := UpdateRequest(j.baseUrl, j.taskUuid, token.value, StatusUpdate(Received, None));
        var receivedReply := UpdateTaskStatus(env.updateReply(d.tag, Received));
        if !receivedReply.Ok? then
          Lifecycle(Some(login), Some(received), None, [], None, Halted(HaltReason(receivedReply, UpdateFailed)))
        else
          var started := UpdateRequest(j.baseUrl, j.taskUuid, token.value, StatusUpdate(Started, None));
          var startedReply := UpdateTaskStatus(env.updateReply(d.tag, Started));
          if !startedReply.Ok? then
            Lifecycle(Some(login), Some(received), Some(started), [], None, Halted(HaltReason(startedReply, UpdateFailed)))
          else
            var task := Task.StartTask(j.message, env.metrics(d.tag));
            if task.outcome.Panic? then
              Lifecycle(Some(login), Some(received), Some(started), task.probes, None, Halted(task.outcome.reason))
            else
              var update := TerminalUpdate(task.outcome);
              var terminal := UpdateRequest(j.baseUrl, j.taskUuid, token.value, update);
              var terminalReply := UpdateTaskStatus(env.updateReply(d.tag, update.taskStatus));
              var end := Finish(terminalReply, env.ackSucceeds(d.tag), d.tag);
              Lifecycle(Some(login), Some(received), Some(started), task.probes, Some(terminal), end)
  }

  /** Each report is sent only after the step before it was accepted: the
      RECEIVED report after a successful login (line 36), STARTED after the
      server took RECEIVED (line 43), and the task and its final report after
      the server took STARTED (line 52). */
  lemma AcceptedBeforeNext(d: Delivery, env: Environment)
    ensures var lc := Handle(d, env);
      && (lc.received.Some? ==> UserLogin(env.loginReply(d.tag)).Ok?)
      && (lc.started.Some? ==> UpdateTaskStatus(env.updateReply(d.tag, Received)).Ok?)
      && (lc.probes != [] || lc.terminal.Some? ==> UpdateTaskStatus(env.updateReply(d.tag, Started)).Ok?)
  {
  }

  function LoginEvents(r: Option<Request>): seq<Event>
  {
    if r.Some? then [SendLogin(r.value)] else []
  }

  function UpdateEvents(r: Option<Request>): seq<Event>
  {
    if r.Some? then [SendUpdate(r.value)] else []
  }

  function Calls(probes: seq<PerfData.Probe>): (es: seq<Event>)
    ensures |es| == |probes|
    ensures forall i :: 0 <= i < |es| ==> es[i] == Call(probes[i])
  {
    seq(|probes|, i requires 0 <= i < |probes| => Call(probes[i]))
  }

  function EndEvent(end: End): Event
  {
    match end
    case Acked(tag) => Ack(tag)
    case Halted(reason) => Halt(reason)
  }

  /** The lifecycle as the trace of what the agent did, in order. */
  function Events(lc: Lifecycle): seq<Event>
  {
    LoginEvents(lc.login) + (UpdateEvents(lc.received) + (UpdateEvents(lc.started)
      + (Calls(lc.probes) + (UpdateEvents(lc.terminal) + [EndEvent(lc.end)]))))
  }

  /** The trace of a delivery whose STARTED update was sent, in the order the
      steps append to it. */
  lemma EventsAfterStart(lc: Lifecycle)
    requires lc.login.Some? && lc.received.Some? && lc.started.Some?
    ensures Events(lc) == [SendLogin(lc.login.value), SendUpdate(lc.received.value), SendUpdate(lc.started.value)]
                          + Calls(lc.probes) + (UpdateEvents(lc.terminal) + [EndEvent(lc.end)])
  {
    PerfData.AppendAssociates([SendLogin(lc.login.value), SendUpdate(lc.received.value), SendUpdate(lc.started.value)],
                              Calls(lc.probes), UpdateEvents(lc.terminal) + [EndEvent(lc.end)]);
  }

  /** doWork's loop body, step by step: each step appends what it did to the
      trace and a failed step ends it with the crash. */
  method HandleDelivery(d: Delivery, env: Environment) returns (trace: seq<Event>, halted: bool)
    ensures trace == Events(Handle(d, env))
    ensures halted <==> Handle(d, env).end.Halted?
  {
    ghost var lc := Handle(d, env);
    var job := Decode(d);
    if !job.Ok? {
      assert lc == Lifecycle(None, None, None, [], None, Halted(job.reason));
      return [Halt(job.reason)], true;
    }
    var j := job.value;
    var login := LoginRequest(j.baseUrl, j.username, j.password);
    trace := [SendLogin(login)];
    var token := UserLogin(env.loginReply(d.tag));
    if !token.Ok? {
      assert lc == Lifecycle(Some(login), None, None, [], None, Halted(HaltReason(token, LoginFailed)));
      return trace + [Halt(HaltReason(token, LoginFailed))], true;
    }
    var received := UpdateRequest(j.baseUrl, j.taskUuid, token.value, StatusUpdate(Received, None));
    trace := trace + [SendUpdate(received)];
    var reply := UpdateTaskStatus(env.updateReply(d.tag, Received));
    if !reply.Ok? {
      assert lc == Lifecycle(Some(login), Some(received), None, [], None, Halted(HaltReason(reply, UpdateFailed)));
      return trace + [Halt(HaltReason(reply, UpdateFailed))], true;
    }
    var started := UpdateRequest(j.baseUrl, j.taskUuid, token.value, StatusUpdate(Started, None));
    trace := trace + [SendUpdate(started)];
    reply := UpdateTaskStatus(env.updateReply(d.tag, Started));
    if !reply.Ok? {
      assert lc == Lifecycle(Some(login), Some(received), Some(started), [], None, Halted(HaltReason(reply, UpdateFailed)));
      return trace + [Halt(HaltReason(reply, UpdateFailed))], true;
    }
    var task := Task.StartTask(j.message, env.metrics(d.tag));
    var head := trace;
    assert head == [SendLogin(login), SendUpdate(received), SendUpdate(started)];
    trace := trace + Calls(task.probes);
    if task.outcome.Panic? {
      assert lc == Lifecycle(Some(login), Some(received), Some(started), task.probes, None, Halted(task.outcome.reason));
      EventsAfterStart(lc);
      assert UpdateEvents(lc.terminal) + [EndEvent(lc.end)] == [Halt(task.outcome.reason)];
      return trace + [Halt(task.outcome.reason)], true;
    }
    var taskStatus, resultDesc, resultStatus := Success, TaskSucceeded, true;
    if task.outcome.Fail? {
      taskStatus, resultDesc, resultStatus := Failure, task.outcome.error, false;
    }
    var data := if task.outcome.Ok? then Some(task.outcome.value) else None;
    var update := StatusUpdate(taskStatus, Some(TaskResult(resultStatus, data, resultDesc)));
    assert update == TerminalUpdate(task.outcome);
    var terminal := UpdateRequest(j.baseUrl, j.taskUuid, token.value, update);
    reply := UpdateTaskStatus(env.updateReply(d.tag, update.taskStatus));
    var end := Finish(reply, env.ackSucceeds(d.tag), d.tag);
    assert lc == Lifecycle(Some(login), Some(received), Some(started), task.probes, Some(terminal), end);
    EventsAfterStart(lc);
    assert UpdateEvents(lc.terminal) + [EndEvent(lc.end)] == [SendUpdate(terminal), EndEvent(end)];
    trace := trace + [SendUpdate(terminal), EndEvent(end)];
    halted := end.Halted?;
  }

  // ---------------------------------------------------------------------------
  // The stream of deliveries

  /** What handling each delivery, on its own, would do. */
  function Lifecycles(ds: seq<Delivery>, env: Environment): (lcs: seq<Lifecycle>)
    ensures |lcs| == |ds|
    ensures forall i :: 0 <= i < |ds| ==> lcs[i] == Handle(ds[i], env)
  {
    seq(|ds|, i requires 0 <= i < |ds| => Handle(ds[i], env))
  }

  /** The lifecycles of successive deliveries as one trace: each is handled to
      its end before the next, and a crash ends the stream. */
  function Stream(lcs: seq<Lifecycle>): seq<Event>
    decreases |lcs|
  {
    if lcs == [] then []
    else if lcs[0].end.Halted? then Events(lcs[0])
    else Events(lcs[0]) + Stream(lcs[1..])
  }

  /** How many lifecycles, from the first, end acknowledged. */
  function CompletedOf(lcs: seq<Lifecycle>): (k: nat)
    ensures k <= |lcs|
    ensures forall i :: 0 <= i < k ==> lcs[i].end.Acked?
    ensures k < |lcs| ==> lcs[k].end.Halted?
    decreases |lcs|
  {
    if lcs == [] || lcs[0].end.Halted? then 0 else 1 + CompletedOf(lcs[1..])
  }

  /** doWork over a stream of deliveries. */
  function Trace(ds: seq<Delivery>, env: Environment): seq<Event>
  {
    Stream(Lifecycles(ds, env))
  }

  /** How many deliveries, from the first, were handled to acknowledgement
      before the agent crashed (all of them if it did not). */
  function Completed(ds: seq<Delivery>, env: Environment): (k: nat)
    ensures k <= |ds|
  {
    CompletedOf(Lifecycles(ds, env))
  }

  /** The first delivery of a stream is handled first, then the rest unless
      it crashed the agent. */
  lemma TraceStep(ds: seq<Delivery>, env: Environment)
    requires ds != []
    ensures var lc := Handle(ds[0], env);
      && Trace(ds, env) == (if lc.end.Halted? then Events(lc) else Events(lc) + Trace(ds[1..], env))
      && Completed(ds, env) == (if lc.end.Halted? then 0 else 1 + Completed(ds[1..], env))
  {
    assert Lifecycles(ds, env)[1..] == Lifecycles(ds[1..], env);
  }

  /** The agent process: what it has done so far, and whether it has crashed. */
  class Agent {
    var trace: seq<Event>
    var crashed: bool

    constructor()
      ensures trace == [] && !crashed
    {
      trace := [];
      crashed := false;
    }

    /** doWork (lines 20-85): the `for d := range messages` loop over the
        deliveries the broker hands out, until the stream ends or the agent
        crashes. */
    method DoWork(ds: seq<Delivery>, env: Environment)
      requires !crashed
      modifies this
      ensures trace == old(trace) + Trace(ds, env)
      ensures crashed <==> Completed(ds, env) < |ds|
    {
      var i := 0;
      while i < |ds|
        invariant 0 <= i <= |ds| && !crashed
        invariant trace + Trace(ds[i..], env) == old(trace) + Trace(ds, env)
        invariant Completed(ds, env) == i + Completed(ds[i..], env)
      {
        TraceStep(ds[i..], env);
        assert ds[i..][0] == ds[i] && ds[i..][1..] == ds[i + 1..];
        var events, halted := HandleDelivery(ds[i], env);
        PerfData.AppendAssociates(trace, events, Trace(ds[i + 1..], env));
        trace := trace + events;
        if halted {
          crashed := true;
          return;
        }
        i := i + 1;
      }
    }
  }
}
