/** Task dispatch: `StartTask` in pkg/task/task.go.

    The message is the broker payload after JSON decoding. Go reads it as an
    untyped map and casts each field where it is used; here a field is `None`
    when it is missing or of the wrong JSON type, which makes that cast panic. */
module Task {
  import opened Outcomes
  import opened PerfData

  /** `metadata.task_config`; the numbers as `uint64(x.(float64))` gives them. */
  datatype TaskConfig = TaskConfig(intervals: Option<nat>, count: Option<nat>)

  datatype Metadata = Metadata(
    baseUrl: Option<string>, taskUuid: Option<string>,
    username: Option<string>, password: Option<string>,
    taskConfig: Option<TaskConfig>)

  /** A decoded delivery body: `{"task_type": <number>, "metadata": {...}}`. */
  datatype TaskMessage = TaskMessage(taskType: Option<int>, metadata: Option<Metadata>)

  const PerfDataTaskType := 0
  const TaskTypeNotSupported := "task type not supported"
  const PerfDataTaskFailed := "get perf data task failed"

  /** StartTask (lines 11-34): `task_type` and `task_config` are read first (a
      panic if either is missing, whatever the type); type 0 runs the
      performance-data task with the configured `intervals` and `count`;
      every other type fails without doing any work. */
  function StartTask(msg: TaskMessage, metrics: Metrics): (r: Run<PerfData>)
    ensures r.outcome.Fail? ==> r.outcome.error in {TaskTypeNotSupported, PerfDataTaskFailed}
    ensures r.probes != [] ==> msg.taskType == Some(PerfDataTaskType)
  {
    if msg.taskType.None? then Run(Panic("interface conversion: task_type is not a number"), [])
    else if msg.metadata.None? || msg.metadata.value.taskConfig.None? then
      Run(Panic("interface conversion: task_config is not an object"), [])
    else if msg.taskType.value == PerfDataTaskType then
      var config := msg.metadata.value.taskConfig.value;
      if config.intervals.None? then Run(Panic("interface conversion: intervals is not a number"), [])
      else if config.count.None? then Run(Panic("interface conversion: count is not a number"), [])
      else
        var perf := PerfRun(metrics, config.intervals.value, config.count.value);
        match perf.outcome
        case Ok(data) => Run(Ok(data), perf.probes)
        case Fail(_) => Run(Fail(PerfDataTaskFailed), perf.probes)
        case Panic(reason) => Run(Panic(reason), perf.probes)
    else Run(Fail(TaskTypeNotSupported), [])
  }

  /** The message is well formed for dispatch: `task_type` is a number and
      `task_config` an object. */
  predicate Dispatchable(msg: TaskMessage)
  {
    msg.taskType.Some? && msg.metadata.Some? && msg.metadata.value.taskConfig.Some?
  }

  /** Any type but 0 fails with "task type not supported", returns no data and
      makes no call to the metrics library. */
  lemma UnsupportedTypeDoesNoWork(msg: TaskMessage, metrics: Metrics)
    requires Dispatchable(msg) && msg.taskType.value != PerfDataTaskType
    ensures StartTask(msg, metrics) == Run(Fail(TaskTypeNotSupported), [])
  {
  }

  /** Type 0 runs the performance-data task with `intervals` and `count` from
      `task_config`: its calls are the task's calls, its data on success is
      exactly the task's data, and any failure of the task becomes the single
      error "get perf data task failed". */
  lemma PerfDataTypeRunsPerfTask(msg: TaskMessage, metrics: Metrics)
    requires Dispatchable(msg) && msg.taskType.value == PerfDataTaskType
    requires msg.metadata.value.taskConfig.value.intervals.Some?
    requires msg.metadata.value.taskConfig.value.count.Some?
    ensures var config := msg.metadata.value.taskConfig.value;
      var perf := PerfRun(metrics, config.intervals.value, config.count.value);
      var r := StartTask(msg, metrics);
      && r.probes == perf.probes
      && (forall d :: r.outcome == Ok(d) <==> perf.outcome == Ok(d))
      && (r.outcome.Fail? <==> perf.outcome.Fail?)
      && (r.outcome.Fail? ==> r.outcome.error == PerfDataTaskFailed)
  {
  }
}
