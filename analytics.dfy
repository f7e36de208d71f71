/**
  The mock analytics servicer of the gRPC demo. Its only state is the
  dictionary `mock_tasks`; `BatchUpdateTasks` rewrites statuses in it, the
  other three RPCs only read it or nothing at all. Every `random` call is an
  oracle input: a "roll" picks `xs[roll % |xs|]` for `random.choice(xs)` and
  `lo + roll % (hi - lo + 1)` for `random.randint(lo, hi)`, and the test
  `random.random() < 0.2` is one boolean per request. Clock readings
  (`int(time.time())`) are inputs too.
 */
module Analytics {
  import opened Wrappers
  import opened Store
  import opened Ids

  /** One value of `mock_tasks`: `{"title": ..., "status": ..., "assigned_to": ...}`. */
  datatype MockTask = MockTask(title: string, status: string, assignedTo: string)

  /** `TeamRequest`; `days_back` is only logged. */
  datatype TeamRequest = TeamRequest(teamId: string, daysBack: int)

  datatype TaskMetric = TaskMetric(taskId: string, title: string, daysToComplete: int, complexity: string)

  /** `TeamPerformance` without the constant float `velocity = 12.5`. */
  datatype TeamPerformance = TeamPerformance(teamId: string, completedTasks: int, overdueTasks: int,
                                             taskMetrics: seq<TaskMetric>)

  datatype TaskUpdate = TaskUpdate(taskId: string, status: string, assignedTo: string, timestamp: int)

  datatype TaskUpdateRequest = TaskUpdateRequest(taskId: string, newStatus: string, userId: string)

  datatype BatchResponse = BatchResponse(successfulUpdates: nat, failedUpdates: nat, errorMessages: seq<string>)

  datatype TaskCollaboration = TaskCollaboration(taskId: string, userId: string, action: string,
                                                 data: string, timestamp: int)

  /** The random draws of one metric: `randint(1, 10)` and a complexity choice. */
  datatype MetricRoll = MetricRoll(days: nat, complexity: nat)

  /** What one round of the update stream observes: `context.is_active()`,
      the two choices and the clock. */
  datatype StreamDraw = StreamDraw(active: bool, status: nat, assignee: nat, time: int)

  const Complexities: seq<string> := ["low", "medium", "high"]
  const StreamStatuses: seq<string> := ["pending", "in_progress", "completed"]
  const Assignees: seq<string> := ["alice", "bob", "charlie", "diana"]

  /** `random.choice(xs)` driven by `roll`. */
  function Choice<T>(xs: seq<T>, roll: nat): (x: T)
    requires |xs| > 0
    ensures x in xs
  {
    xs[roll % |xs|]
  }

  /** `random.randint(lo, hi)` driven by `roll`; both bounds are included. */
  function RandInt(lo: int, hi: int, roll: nat): (n: int)
    requires lo <= hi
    ensures lo <= n <= hi
  {
    lo + roll % (hi - lo + 1)
  }

  /** The oracle can produce every allowed value, so no outcome of the source is excluded. */
  lemma RandIntCovers(lo: int, hi: int, n: int)
    requires lo <= n <= hi
    ensures RandInt(lo, hi, n - lo) == n
  {
    assert (n - lo) % (hi - lo + 1) == n - lo;
  }

  /** The initial `mock_tasks`. */
  function SeedMockTasks(): (d: Dict<MockTask>)
    ensures d.Valid() && d.Size() == 4
    ensures d.keys == ["task_001", "task_002", "task_003", "task_004"]
  {
    Quad("task_001", MockTask("Implement API", "in_progress", "alice"),
         "task_002", MockTask("Write tests", "completed", "bob"),
         "task_003", MockTask("Code review", "pending", "charlie"),
         "task_004", MockTask("Deploy to staging", "overdue", "diana"))
  }

  /** The metric `GetTeamPerformance` builds for one mock task. */
  function Metric(taskId: string, task: MockTask, roll: MetricRoll): (m: TaskMetric)
    ensures m.taskId == taskId && m.title == task.title
    ensures 1 <= m.daysToComplete <= 10 && m.complexity in Complexities
  {
    TaskMetric(taskId, task.title, RandInt(1, 10, roll.days), Choice(Complexities, roll.complexity))
  }

  // ---------------------------------------------------------------------------
  // StreamTaskUpdates: `for i in range(5): if context.is_active(): yield ... else: break`

  /** The update yielded in round `i`, for `task_{i+1:03d}`. */
  function StreamUpdate(i: nat, draw: StreamDraw): (u: TaskUpdate)
    ensures u.taskId == TaskId(i + 1)
    ensures u.status in StreamStatuses && u.assignedTo in Assignees && u.timestamp == draw.time
  {
    TaskUpdate(TaskId(i + 1), Choice(StreamStatuses, draw.status), Choice(Assignees, draw.assignee), draw.time)
  }

  /** How many rounds run: the rounds before the first one whose context is inactive. */
  function ActiveRounds(ds: seq<StreamDraw>): (n: nat)
    ensures n <= |ds|
    ensures forall j :: 0 <= j < n ==> ds[j].active
    ensures n < |ds| ==> !ds[n].active
  {
    if ds == [] || !ds[0].active then 0
    else
      var n := 1 + ActiveRounds(ds[1..]);
      assert forall j :: 1 <= j < n ==> ds[j] == ds[1..][j - 1];
      n
  }

  /**
    The server stream: at most five updates, for task_001, task_002, ... in
    order, each with a status from the three listed and a known assignee; it
    ends early exactly at the first round whose context is no longer active.
   */
  function StreamTaskUpdates(draws: seq<StreamDraw>): (us: seq<TaskUpdate>)
    requires |draws| == 5
    ensures |us| <= 5
    ensures forall j :: 0 <= j < |us| ==> draws[j].active && us[j].taskId == TaskId(j + 1)
    ensures forall j :: 0 <= j < |us| ==> us[j].status in StreamStatuses && us[j].assignedTo in Assignees
    ensures forall j :: 0 <= j < |us| ==> us[j].timestamp == draws[j].time
    ensures |us| < 5 ==> !draws[|us|].active
  {
    var n := ActiveRounds(draws);
    seq(n, j requires 0 <= j < n => StreamUpdate(j, draws[j]))
  }

  // ---------------------------------------------------------------------------
  // CollaborateOnTask: one acknowledgement per incoming message

  /** The echo for one collaboration message, stamped with the clock reading `time`. */
  function Acknowledge(request: TaskCollaboration, time: int): (r: TaskCollaboration)
    ensures r.taskId == request.taskId && r.userId == "server" && r.action == "acknowledge"
    ensures |r.data| == |request.data| + 10 && r.data[..10] == "Received: " && r.data[10..] == request.data
    ensures r.timestamp == time
  {
    TaskCollaboration(request.taskId, "server", "acknowledge", "Received: " + request.data, time)
  }

  /** The bidirectional stream: exactly one response per request, in order. */
  function CollaborateOnTask(requests: seq<TaskCollaboration>, times: seq<int>): (rs: seq<TaskCollaboration>)
    requires |times| == |requests|
    ensures |rs| == |requests|
    ensures forall i :: 0 <= i < |rs| ==>
              && rs[i].taskId == requests[i].taskId && rs[i].userId == "server"
              && rs[i].action == "acknowledge" && rs[i].data == "Received: " + requests[i].data
              && rs[i].timestamp == times[i]
  {
    if requests == [] then []
    else [Acknowledge(requests[0], times[0])] + CollaborateOnTask(requests[1..], times[1..])
  }

  // ---------------------------------------------------------------------------
  // BatchUpdateTasks, as functions of the requests and the failure decisions

  /** One request's effect: a success on a known ID sets that task's status. */
  function ApplyOne(tasks: Dict<MockTask>, request: TaskUpdateRequest, failed: bool): (d: Dict<MockTask>)
    requires tasks.Valid()
    ensures d.Valid() && d.keys == tasks.keys && d.entries.Keys == tasks.entries.Keys
  {
    if !failed && request.taskId in tasks.entries then
      tasks.Set(request.taskId, tasks.entries[request.taskId].(status := request.newStatus))
    else tasks
  }

  /** The requests applied in order. */
  function ApplyBatch(tasks: Dict<MockTask>, requests: seq<TaskUpdateRequest>, failures: seq<bool>): (d: Dict<MockTask>)
    requires tasks.Valid() && |failures| == |requests|
    ensures d.Valid() && d.keys == tasks.keys && d.entries.Keys == tasks.entries.Keys
    decreases |requests|
  {
    if requests == [] then tasks
    else ApplyBatch(ApplyOne(tasks, requests[0], failures[0]), requests[1..], failures[1..])
  }

  /**
    The status of the last successful request for `k`: there is none exactly
    when every request naming `k` failed, and otherwise it comes from a
    successful request for `k` after which no successful request names `k`.
   */
  function LastStatus(requests: seq<TaskUpdateRequest>, failures: seq<bool>, k: string): (s: Option<string>)
    requires |failures| == |requests|
    ensures s.None? <==> forall i :: 0 <= i < |requests| ==> failures[i] || requests[i].taskId != k
    ensures s.Some? ==>
              exists i :: 0 <= i < |requests| && !failures[i] && requests[i].taskId == k
                          && requests[i].newStatus == s.value
                          && forall j :: i < j < |requests| ==> failures[j] || requests[j].taskId != k
  {
    if requests == [] then None
    else
      match LastStatus(requests[1..], failures[1..], k)
      case Some(s) => Some(s)
      case None => if !failures[0] && requests[0].taskId == k then Some(requests[0].newStatus) else None
  }

  function CountFailed(failures: seq<bool>): (n: nat)
    ensures n <= |failures|
  {
    if failures == [] then 0 else (if failures[0] then 1 else 0) + CountFailed(failures[1..])
  }

  function CountSucceeded(failures: seq<bool>): (n: nat)
    ensures n + CountFailed(failures) == |failures|
  {
    if failures == [] then 0 else (if failures[0] then 0 else 1) + CountSucceeded(failures[1..])
  }

  /** `f"Failed to update {request.task_id}"` for each failed request, in order. */
  function ErrorMessages(requests: seq<TaskUpdateRequest>, failures: seq<bool>): (ms: seq<string>)
    requires |failures| == |requests|
    ensures |ms| == CountFailed(failures)
  {
    if requests == [] then []
    else (if failures[0] then ["Failed to update " + requests[0].taskId] else []) + ErrorMessages(requests[1..], failures[1..])
  }

  /** The reply of a whole batch: the two counters and the failure messages. */
  function BatchResult(requests: seq<TaskUpdateRequest>, failures: seq<bool>): (r: BatchResponse)
    requires |failures| == |requests|
    ensures r.successfulUpdates == CountSucceeded(failures) && r.failedUpdates == CountFailed(failures)
    ensures r.errorMessages == ErrorMessages(requests, failures)
    ensures r.successfulUpdates + r.failedUpdates == |requests| && |r.errorMessages| == r.failedUpdates
  {
    BatchResponse(CountSucceeded(failures), CountFailed(failures), ErrorMessages(requests, failures))
  }

  /** Processing a suffix of the batch is one request followed by the rest. */
  lemma BatchStep(tasks: Dict<MockTask>, requests: seq<TaskUpdateRequest>, failures: seq<bool>, i: nat)
    requires tasks.Valid() && |failures| == |requests| && i < |requests|
    ensures ApplyBatch(tasks, requests[i..], failures[i..])
         == ApplyBatch(ApplyOne(tasks, requests[i], failures[i]), requests[i + 1..], failures[i + 1..])
    ensures CountFailed(failures[i..]) == (if failures[i] then 1 else 0) + CountFailed(failures[i + 1..])
    ensures CountSucceeded(failures[i..]) == (if failures[i] then 0 else 1) + CountSucceeded(failures[i + 1..])
    ensures ErrorMessages(requests[i..], failures[i..])
         == (if failures[i] then ["Failed to update " + requests[i].taskId] else [])
            + ErrorMessages(requests[i + 1..], failures[i + 1..])
  {
    assert requests[i..][1..] == requests[i + 1..] && failures[i..][1..] == failures[i + 1..];
  }

  /** Every error message names a request that failed, and every failed request has its message. */
  lemma {:induction false} ErrorMessagesExact(requests: seq<TaskUpdateRequest>, failures: seq<bool>, m: string)
    requires |failures| == |requests|
    ensures m in ErrorMessages(requests, failures) <==>
              exists i :: 0 <= i < |requests| && failures[i] && m == "Failed to update " + requests[i].taskId
  {
    if requests != [] {
      ErrorMessagesExact(requests[1..], failures[1..], m);
      var first := if failures[0] then ["Failed to update " + requests[0].taskId] else [];
      assert ErrorMessages(requests, failures) == first + ErrorMessages(requests[1..], failures[1..]);
      if exists i :: 0 <= i < |requests| && failures[i] && m == "Failed to update " + requests[i].taskId {
        var i :| 0 <= i < |requests| && failures[i] && m == "Failed to update " + requests[i].taskId;
        if i > 0 {
          assert requests[1..][i - 1] == requests[i] && failures[1..][i - 1] == failures[i];
        }
      }
      if m in ErrorMessages(requests[1..], failures[1..]) {
        var i :| 0 <= i < |requests| - 1 && failures[1..][i] && m == "Failed to update " + requests[1..][i].taskId;
        assert failures[i + 1] && requests[i + 1] == requests[1..][i];
      }
    }
  }

  /** Splitting a batch splits its error messages: they come in request order. */
  lemma {:induction false} ErrorMessagesAppend(r1: seq<TaskUpdateRequest>, f1: seq<bool>,
                                               r2: seq<TaskUpdateRequest>, f2: seq<bool>)
    requires |f1| == |r1| && |f2| == |r2|
    ensures ErrorMessages(r1 + r2, f1 + f2) == ErrorMessages(r1, f1) + ErrorMessages(r2, f2)
  {
    if r1 == [] {
      assert r1 + r2 == r2 && f1 + f2 == f2;
    } else {
      assert (r1 + r2)[0] == r1[0] && (f1 + f2)[0] == f1[0];
      assert (r1 + r2)[1..] == r1[1..] + r2 && (f1 + f2)[1..] == f1[1..] + f2;
      ErrorMessagesAppend(r1[1..], f1[1..], r2, f2);
    }
  }

  /**
    After a batch each task keeps its title and assignee, and its status is the
    new status of the last successful request naming it, or the old status when
    no successful request names it.
   */
  lemma {:induction false} ApplyBatchAt(tasks: Dict<MockTask>, requests: seq<TaskUpdateRequest>,
                                        failures: seq<bool>, k: string)
    requires tasks.Valid() && |failures| == |requests| && k in tasks.entries
    ensures var t := ApplyBatch(tasks, requests, failures).entries[k];
            && t.title == tasks.entries[k].title && t.assignedTo == tasks.entries[k].assignedTo
            && t.status == match LastStatus(requests, failures, k)
                           case Some(s) => s
                           case None => tasks.entries[k].status
    decreases |requests|
  {
    if requests != [] {
      ApplyBatchAt(ApplyOne(tasks, requests[0], failures[0]), requests[1..], failures[1..], k);
    }
  }

  /** A batch whose every request fails leaves `mock_tasks` as it was. */
  lemma {:induction false} AllFailedChangesNothing(tasks: Dict<MockTask>, requests: seq<TaskUpdateRequest>,
                                                   failures: seq<bool>)
    requires tasks.Valid() && |failures| == |requests|
    requires forall i :: 0 <= i < |failures| ==> failures[i]
    ensures ApplyBatch(tasks, requests, failures) == tasks
  {
    if requests != [] {
      AllFailedChangesNothing(tasks, requests[1..], failures[1..]);
    }
  }

  // ---------------------------------------------------------------------------
  // The servicer

  class TaskAnalyticsServicer {
    var mockTasks: Dict<MockTask>

    ghost predicate Valid()
      reads this
    {
      mockTasks.Valid()
    }

    constructor ()
      ensures Valid() && mockTasks == SeedMockTasks()
    {
      mockTasks := SeedMockTasks();
    }

    /** Unary RPC: one metric per mock task in dictionary order, and the fixed counts. */
    method GetTeamPerformance(request: TeamRequest, rolls: seq<MetricRoll>) returns (p: TeamPerformance)
      requires Valid() && |rolls| == |mockTasks.keys|
      ensures p.teamId == request.teamId && p.completedTasks == 1 && p.overdueTasks == 1
      ensures |p.taskMetrics| == mockTasks.Size()
      ensures forall i :: 0 <= i < |p.taskMetrics| ==>
                p.taskMetrics[i] == Metric(mockTasks.keys[i], mockTasks.entries[mockTasks.keys[i]], rolls[i])
    {
      var metrics: seq<TaskMetric> := [];
      var i := 0;
      while i < |mockTasks.keys|
        invariant 0 <= i <= |mockTasks.keys| && |metrics| == i
        invariant forall j :: 0 <= j < i ==>
                    metrics[j] == Metric(mockTasks.keys[j], mockTasks.entries[mockTasks.keys[j]], rolls[j])
      {
        var taskId := mockTasks.keys[i];
        metrics := metrics + [Metric(taskId, mockTasks.entries[taskId], rolls[i])];
        i := i + 1;
      }
      p := TeamPerformance(request.teamId, 1, 1, metrics);
    }

    /** Writes the new status into the named mock task; an unknown task ID changes nothing. */
    method UpdateStatus(request: TaskUpdateRequest)
      requires Valid()
      modifies this
      ensures Valid() && mockTasks == ApplyOne(old(mockTasks), request, false)
    {
      if request.taskId in mockTasks.entries {
        mockTasks := mockTasks.Set(request.taskId, mockTasks.entries[request.taskId].(status := request.newStatus));
      }
    }

    /** Client-streaming RPC: counts the outcomes and writes the successful statuses. */
    method BatchUpdateTasks(requests: seq<TaskUpdateRequest>, failures: seq<bool>) returns (r: BatchResponse)
      requires Valid() && |failures| == |requests|
      modifies this
      ensures Valid()
      ensures mockTasks == ApplyBatch(old(mockTasks), requests, failures)
      ensures r == BatchResult(requests, failures)
    {
      var successful := 0;
      var failed := 0;
      var errors: seq<string> := [];
      var i := 0;
      while i < |requests|
        invariant 0 <= i <= |requests|
        invariant mockTasks.Valid()
        invariant ApplyBatch(mockTasks, requests[i..], failures[i..]) == ApplyBatch(old(mockTasks), requests, failures)
        invariant failed + CountFailed(failures[i..]) == CountFailed(failures)
        invariant successful + CountSucceeded(failures[i..]) == CountSucceeded(failures)
        invariant successful + failed == i
        invariant errors + ErrorMessages(requests[i..], failures[i..]) == ErrorMessages(requests, failures)
      {
        var request := requests[i];
        BatchStep(mockTasks, requests, failures, i);
        if failures[i] {
          failed := failed + 1;
          errors := errors + ["Failed to update " + request.taskId];
        } else {
          successful := successful + 1;
          UpdateStatus(request);
        }
        i := i + 1;
      }
      assert requests[i..] == [] && failures[i..] == [];
      r := BatchResponse(successful, failed, errors);
    }
  }
}
