# Taskflow: task store and analytics servicer, modelled in Dafny

This project models two small in-memory services from the tutorial repository.

**The Taskflow REST API** (`taskflow-api/src/main.py`). Two module-level
dictionaries, `tasks_db` and `user_stories_db`, become the fields of the class
`TaskflowApi.Api`.
- The read handlers (`get_tasks`, `get_task`, `get_user_stories`,
  `get_user_story`) are functions that read the object.
- The handlers that change the dictionaries (`create_task`, `update_task`,
  `delete_task`, `create_user_story`) are methods with `modifies this`.
- `update_task` keeps its loop over the update items.
- Every handler answers with an envelope (module `Envelope`): an
  `ApiResponse` for success, or an `ErrorResponse` with a 404 status where the
  handler raises `HTTPException`.

A Python `dict` is modelled by `Store.Dict`: a map plus the current insertion
order of its keys. Assigning to an existing key keeps its position, assigning
to an absent key appends it, and `del` cuts the key out of that order, so a
key deleted and stored again moves to the end. This is the order that
`list(d.values())` and `for ... in d.items()` follow. IDs are `f"task_{len+1:03d}"` and
`f"story_{len+1:03d}"` (module `Ids`). Their round trip through a decimal
parser shows that different numbers never produce the same ID.

IDs come from the store's size, so a create that follows a delete can pick the
ID of a live task and overwrite it. `Tasks.DeleteThenCreateOverwritesNewest`
proves this for every store no task was ever deleted from (keys task_001 …
task_n in order), when the deleted task is not the newest one.
`TaskflowSeed.SeedDeleteThenCreate` proves it on the seed data.

**The gRPC analytics servicer** (`Day-1/demos/grpc-demo/server.py`). The
class `Analytics.TaskAnalyticsServicer` holds `mock_tasks`.
- `BatchUpdateTasks` is a method whose loop keeps the two counters and the
  error list and rewrites statuses in place. Its result and new state are
  tied to the functions `ApplyBatch` and `BatchResult`, and the properties of
  the batch are lemmas about those functions.
- `GetTeamPerformance` keeps its loop but changes nothing.
- `StreamTaskUpdates` and `CollaborateOnTask` are functions over sequences.

Every random draw is an oracle argument:
- `random.choice(xs)` becomes `Choice(xs, roll)`.
- `random.randint(lo, hi)` becomes `RandInt(lo, hi, roll)`.
- `random.random() < 0.2` becomes one boolean per request.
- `context.is_active()` and the clock readings are oracle arguments too.

A PUT overwrites `id` like any other existing field, while the dictionary key
stays the same; `Tasks.PatchPreservesIds` states when ids still match keys.
The size-derived ID can equal a live key after a delete, and the model keeps
this.

## Model

| member | source | states |
|---|---|---|
| `Store.Dict.Size` | taskflow-api/src/main.py:185 | `len(d)`: the number of keys, which equals both the size of the map and the length of the insertion order |
| `Store.Dict.Set` | taskflow-api/src/main.py:196 | `d[k] = v`: afterwards `k` maps to `v` and every other key keeps its value. An existing key keeps its place and the size. A new key is appended and the size grows by one |
| `Store.Dict.Remove` | taskflow-api/src/main.py:247 | `del d[k]` on a present key: exactly `k` is removed, the other values are kept, the key order loses exactly `k`'s position, and the size drops by one |
| `Store.Dict.Values` | taskflow-api/src/main.py:155 | `list(d.values())`: one value per key in insertion order, and every stored value occurs |
| `Ids.DecimalRoundTrip` | taskflow-api/src/main.py:185 | the decimal rendering of `n` is a non-empty digit string without a leading zero that parses back to `n` |
| `Ids.Pad3` | taskflow-api/src/main.py:185 | `f"{n:03d}"`: at least three characters, the decimal digits of `n` at the end and only zeros before them |
| `Ids.FormatId` | taskflow-api/src/main.py:291 | `f"{prefix}{n:03d}"`: the prefix followed by the padded number, at least three characters longer than the prefix |
| `Ids.Pad3RoundTrip` | taskflow-api/src/main.py:185 | `:03d` padding keeps the value and gives at least three digits: exactly three when `n` has fewer |
| `Ids.FormatIdRoundTrip` | taskflow-api/src/main.py:291 | an ID is its prefix followed by at least three digits that parse back to the number |
| `Ids.FormatIdInjective` | taskflow-api/src/main.py:185 | two IDs with the same prefix are equal only when their numbers are equal |
| `Ids.FirstTaskIds` | Day-1/demos/grpc-demo/server.py:51 | `task_{i+1:03d}` for the first five rounds spells task_001 … task_005 |
| `Ids.WideIdExamples` | taskflow-api/src/main.py:185 | 42 pads to `task_042`, 3 to `story_003`, and 1234 is not truncated: `task_1234` |
| `Envelope.Success` | taskflow-api/src/main.py:26-32 | a success envelope for a 2xx status: `success` set, the data and message present, the caller's timestamp and version 1.0.0 |
| `Envelope.Failure` | taskflow-api/src/main.py:34-40 | an error envelope for a 4xx/5xx status: `success` false, the given non-empty error code and message, the timestamp and version 1.0.0 |
| `Tasks.TaskRecord` | taskflow-api/src/main.py:48-54 | the `Task` model as a dict: exactly the six model fields, each holding the given value; a missing user story is `null` |
| `Tasks.NewTask` | taskflow-api/src/main.py:187-194 | the created record has exactly the Task fields, the new ID, status `pending`, the creation time, and the request's title, description and user story |
| `Tasks.NextTaskId` | taskflow-api/src/main.py:185 | the new task ID is `task_` followed by `len(tasks_db) + 1`, padded to three digits |
| `Tasks.NextStoryId` | taskflow-api/src/main.py:291 | the new story ID is `story_` followed by `len(user_stories_db) + 1`, padded to three digits |
| `Tasks.Patch` | taskflow-api/src/main.py:221-223 | applying the update items never adds or removes a field of the record |
| `Tasks.PatchItem` | taskflow-api/src/main.py:222-223 | one loop step: an item whose key is a field sets that field to the item's value, every other field is kept, and no field is added |
| `Tasks.LastValue` | taskflow-api/src/main.py:221-223 | no value exactly when no update item has the key; otherwise the value of an item with that key after which no item has the key |
| `Tasks.PatchAt` | taskflow-api/src/main.py:221-223 | after the update loop, each field holds the value of the last item naming it (see `Tasks.LastValue`), or its old value when no item names it |
| `Tasks.PatchFields` | taskflow-api/src/main.py:220-223 | for a dict body (distinct keys): each supplied key that is already a field takes the supplied value, every field not supplied keeps its value, and the field set is unchanged |
| `Tasks.NextIdFreshWhenSequential` | taskflow-api/src/main.py:185 | while no task has been deleted (keys task_001 … task_n in order), the next ID is not yet a key |
| `Tasks.CreateKeepsSequential` | taskflow-api/src/main.py:185-196 | while no task has been deleted, storing under the next ID leaves the keys task_001 … task_(n+1) in order |
| `Tasks.SetPreservesIds` | taskflow-api/src/main.py:196 | storing a record whose `id` is its key keeps every record's `id` equal to its key |
| `Tasks.RemovePreservesIds` | taskflow-api/src/main.py:247 | deleting keeps every remaining record's `id` equal to its key |
| `Tasks.PatchPreservesIds` | taskflow-api/src/main.py:221-223 | an update without an `id` item keeps every record's `id` equal to its key |
| `Tasks.DeleteThenCreateOverwritesNewest` | taskflow-api/src/main.py:185-196 | in a never-deleted-from store, deleting any task but the newest and then creating reuses the newest live ID: that task is replaced and the store does not grow back |
| `TaskflowSeed.SeedTasks` | taskflow-api/src/main.py:71-88 | the seed `tasks_db` is a consistent dict with two entries |
| `TaskflowSeed.SeedTasksIdsMatchKeys` | taskflow-api/src/main.py:71-88 | each seed task's `id` is the key it is stored under |
| `TaskflowSeed.SeedTasksSequential` | taskflow-api/src/main.py:71-88 | the seed keys are task_001, task_002 in that order |
| `TaskflowSeed.SeedDeleteThenCreate` | taskflow-api/src/main.py:185-247 | on the seed data, deleting task_001 and then creating picks task_002, which replaces the live task_002 and leaves one task |
| `TaskflowSeed.SeedStories` | taskflow-api/src/main.py:90-115 | the seed `user_stories_db` is a consistent dict with two entries |
| `TaskflowApi.TaskNotFound` | taskflow-api/src/main.py:164-172 | the 404 raised for an absent task ID: a well-formed error envelope with `success` false, code `TASK_NOT_FOUND` and the message `Task with ID … not found` |
| `TaskflowApi.StoryNotFound` | taskflow-api/src/main.py:269-279 | the 404 raised for an absent story ID: a well-formed error envelope with `success` false, code `STORY_NOT_FOUND` and the message `User story with ID … not found` |
| `TaskflowApi.Api.constructor` | taskflow-api/src/main.py:71-115 | the API starts with the seed tasks and seed stories |
| `TaskflowApi.Api.GetTasks` | taskflow-api/src/main.py:150-158 | a well-formed 200 envelope whose data is every task in insertion order, one per key; it reads state and changes none |
| `TaskflowApi.Api.GetTask` | taskflow-api/src/main.py:160-180 | success exactly when the ID is present. Success: 200 with the stored record, whose `id` is the requested ID while ids match keys, and the message `Task retrieved successfully`. Otherwise: 404 `TASK_NOT_FOUND` with the source's message. Nothing changes |
| `TaskflowApi.Api.CreateTask` | taskflow-api/src/main.py:182-203 | stores the pending record built from the request under `task_{len+1:03d}`, and every other task is kept (by `Store.Dict.Set`). It answers 201 with that record; the stories are unchanged |
| `TaskflowApi.Api.UpdateTask` | taskflow-api/src/main.py:205-230 | absent ID: 404 `TASK_NOT_FOUND` and nothing changes. Present ID: only that record changes, to its patch (see `Tasks.PatchFields`), the key order is kept, and the answer is 200 with the patched record |
| `TaskflowApi.Api.DeleteTask` | taskflow-api/src/main.py:232-253 | absent ID: 404 `TASK_NOT_FOUND` and nothing changes. Present ID: exactly that key goes, the others keep their values, the size drops by one, and a later `GetTask` on it is `TASK_NOT_FOUND` |
| `TaskflowApi.Api.GetUserStories` | taskflow-api/src/main.py:256-264 | a well-formed 200 envelope whose data is every user story in insertion order; nothing changes |
| `TaskflowApi.Api.GetUserStory` | taskflow-api/src/main.py:266-286 | success exactly when the ID is present: 200 with the stored story and the message `User story retrieved successfully`, otherwise 404 `STORY_NOT_FOUND` with the source's message |
| `TaskflowApi.Api.CreateUserStory` | taskflow-api/src/main.py:288-301 | replaces the client's ID by `story_{len+1:03d}`, stores the story under it, and answers 201 with that story; the tasks are unchanged |
| `Analytics.Choice` | Day-1/demos/grpc-demo/server.py:33 | `random.choice` yields a member of the list |
| `Analytics.RandInt` | Day-1/demos/grpc-demo/server.py:32 | `random.randint(lo, hi)` yields a value between the two bounds, both included |
| `Analytics.RandIntCovers` | Day-1/demos/grpc-demo/server.py:32 | every value between the bounds can be drawn, so the oracle rules out no outcome |
| `Analytics.SeedMockTasks` | Day-1/demos/grpc-demo/server.py:12-17 | the initial `mock_tasks` is a consistent dict of exactly task_001 … task_004, in that order |
| `Analytics.Metric` | Day-1/demos/grpc-demo/server.py:29-34 | a metric carries the task's ID and title, days to complete in [1, 10] and a complexity among low/medium/high |
| `Analytics.StreamUpdate` | Day-1/demos/grpc-demo/server.py:51-57 | round `i` yields `task_{i+1:03d}` with a status among pending/in_progress/completed, a known assignee and the clock reading |
| `Analytics.ActiveRounds` | Day-1/demos/grpc-demo/server.py:49-62 | the number of rounds that run: every earlier round was active and the next one, if any, is not |
| `Analytics.StreamTaskUpdates` | Day-1/demos/grpc-demo/server.py:44-62 | at most five updates, for task_001, task_002, … in order, each from an active round with a listed status and assignee; an early end means that round's context was inactive |
| `Analytics.Acknowledge` | Day-1/demos/grpc-demo/server.py:101-107 | the echo for one message: the request's task ID, user `server`, action `acknowledge`, data that is `Received: ` followed by exactly the request's data, and the clock reading |
| `Analytics.CollaborateOnTask` | Day-1/demos/grpc-demo/server.py:92-108 | exactly one response per request, in order, with the request's task ID, user `server`, action `acknowledge`, data `Received: ` + the request's data, and the clock reading |
| `Analytics.ApplyOne` | Day-1/demos/grpc-demo/server.py:79-83 | one request never adds, removes or reorders a mock task |
| `Analytics.ApplyBatch` | Day-1/demos/grpc-demo/server.py:72-83 | a batch never adds, removes or reorders a mock task |
| `Analytics.LastStatus` | Day-1/demos/grpc-demo/server.py:79-83 | no status exactly when every request naming the task failed; otherwise the status of a successful request for the task after which no successful request names it |
| `Analytics.CountFailed` | Day-1/demos/grpc-demo/server.py:76-77 | the failure count is at most the number of requests |
| `Analytics.CountSucceeded` | Day-1/demos/grpc-demo/server.py:76-80 | the successes, counted on their own, and the failures add up to the number of decisions |
| `Analytics.ErrorMessages` | Day-1/demos/grpc-demo/server.py:76-78 | the error list has exactly one message per failed request |
| `Analytics.BatchResult` | Day-1/demos/grpc-demo/server.py:68-90 | the reply of a batch: successful + failed equals the number of requests, there is one error message per failure, and the fields are the success count, the failure count and the error list |
| `Analytics.ErrorMessagesExact` | Day-1/demos/grpc-demo/server.py:76-78 | a message is in the error list exactly when some failed request's task ID gives `Failed to update ` + that ID |
| `Analytics.ErrorMessagesAppend` | Day-1/demos/grpc-demo/server.py:72-78 | the error list of two consecutive parts of a batch is the first part's list followed by the second's, so messages are in request order |
| `Analytics.ApplyBatchAt` | Day-1/demos/grpc-demo/server.py:79-83 | after a batch each task keeps its title and assignee. Its status is that of the last successful request naming it, or the old status when none does |
| `Analytics.AllFailedChangesNothing` | Day-1/demos/grpc-demo/server.py:76-78 | a batch in which every request fails leaves `mock_tasks` unchanged |
| `Analytics.TaskAnalyticsServicer.constructor` | Day-1/demos/grpc-demo/server.py:10-17 | the servicer starts with the seed `mock_tasks` |
| `Analytics.TaskAnalyticsServicer.GetTeamPerformance` | Day-1/demos/grpc-demo/server.py:19-42 | echoes the team ID, reports 1 completed and 1 overdue task, and gives one metric per mock task in dict order. Each metric is that task's `Metric`; nothing changes |
| `Analytics.TaskAnalyticsServicer.UpdateStatus` | Day-1/demos/grpc-demo/server.py:82-83 | a known task's status becomes the new status; an unknown ID changes nothing |
| `Analytics.TaskAnalyticsServicer.BatchUpdateTasks` | Day-1/demos/grpc-demo/server.py:64-90 | the new `mock_tasks` is `ApplyBatch` of the old one and the reply is `BatchResult`. With `BatchResult`, `ErrorMessagesExact` and `ApplyBatchAt`, the counts add up, there is one message per failure, and the last success wins; unknown IDs count as successes |

## Left out

- FastAPI plumbing: the app object, CORS middleware, routing decorators and
  `uvicorn.run` (taskflow-api/src/main.py:1-21, 378-379).
- The `HTTPException` mechanism: FastAPI sends the raised detail wrapped as
  `{"detail": {...}}`. The model returns the `ErrorResponse` beside the status
  code and does not model that outer wrapper.
- Response-model validation. The model answers 200 with whatever the task
  record holds, and values are JSON-like (`Tasks.Value`) without floats.
  FastAPI checks the reply against the `Task` model, which the model leaves out:
  - A PUT can write a value that does not fit a field of the `Task` model. A
    `null`, a list or an object in `title` is refused under both Pydantic
    versions. An integer is refused under Pydantic v2, while v1 converts it to
    a string.
  - A refused reply is an error 500, but the update loop has already written
    the value into `tasks_db`. From then on, `GET /tasks` and `GET /tasks/{id}`
    for that task fail validation as well, while the model keeps answering 200.
- Pydantic parsing of request bodies: requests arrive well-formed. Because of
  that, the `priority` default of "medium" is the caller's choice.
- Timestamps: `datetime.now().isoformat()` is the string argument `now` (and
  `createdAt` for a new task), and `int(time.time())` is an integer argument.
  The model does not say that two readings in one handler are equal.
- The fixed demonstration endpoints (taskflow-api/src/main.py:117-148,
  304-376): constant payloads with no logic.
- gRPC plumbing (Day-1/demos/grpc-demo/server.py:110-135): server, thread pool
  and port. The generated message classes become datatypes.
- `time.sleep` and every `print`: they have no effect on state or results.
- `velocity = 12.5`: a constant float, absent from `TeamPerformance`.
- `team_id` of the stream request and `days_back` are only logged.
- Analytics.Metric: does not model the distribution of `random.randint` and
  `random.choice`, only their ranges, because the draws are oracle arguments.
- Concurrency: interleaved requests to either server are not modelled; each
  handler runs to completion on its own.
- `BatchUpdateTasks` writes the status into the inner dict in place. The model
  replaces the whole value for that key, which gives the same contents and key
  order because no other reference to the inner dict exists.
- Day-1/demos/grpc-demo/client.py, Squad.API/serve-frontend.py,
  taskflow-api-dotnet/serve-frontend.py and taskflow-api/setup.py: network
  client, static file servers and setup scripts (I/O only).
