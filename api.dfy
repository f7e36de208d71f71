/**
  The REST handlers over the two module-level dictionaries `tasks_db` and
  `user_stories_db`, which become the fields of `Api`. Handlers that only read
  them are functions, handlers that change them are methods. Every reply is an
  envelope (module Envelope) with its HTTP status; a missing ID is a 404
  failure reply where the handler raises an HTTP exception.
 */
module TaskflowApi {
  import opened Wrappers
  import opened Store
  import opened Ids
  import opened Envelope
  import opened Tasks
  import opened TaskflowSeed

  /** The 404 detail for an absent task ID. */
  function TaskNotFound<T>(taskId: string, now: string): (r: Reply<T>)
    ensures WellFormed(r, now) && r.Fail? && r.status == 404 && !r.detail.success
    ensures r.detail.error == "TASK_NOT_FOUND" && r.detail.message == "Task with ID " + taskId + " not found"
  {
    Failure(404, "TASK_NOT_FOUND", "Task with ID " + taskId + " not found", now)
  }

  /** The 404 detail for an absent user-story ID. */
  function StoryNotFound<T>(storyId: string, now: string): (r: Reply<T>)
    ensures WellFormed(r, now) && r.Fail? && r.status == 404 && !r.detail.success
    ensures r.detail.error == "STORY_NOT_FOUND" && r.detail.message == "User story with ID " + storyId + " not found"
  {
    Failure(404, "STORY_NOT_FOUND", "User story with ID " + storyId + " not found", now)
  }

  class Api {
    var tasks: Dict<Record>
    var stories: Dict<UserStory>

    ghost predicate Valid()
      reads this
    {
      tasks.Valid() && stories.Valid()
    }

    /** The module-level dictionaries with their seed data. */
    constructor ()
      ensures tasks == SeedTasks() && stories == SeedStories()
      ensures Valid()
    {
      tasks := SeedTasks();
      stories := SeedStories();
    }

    /** GET /tasks: every task, in insertion order; nothing changes. */
    function GetTasks(now: string): (r: Reply<seq<Record>>)
      reads this
      requires Valid()
      ensures WellFormed(r, now) && r.Ok? && r.status == 200
      ensures r.body.message == Some("Tasks retrieved successfully")
      ensures |r.body.data.value| == tasks.Size()
      ensures forall i :: 0 <= i < |tasks.keys| ==> r.body.data.value[i] == tasks.entries[tasks.keys[i]]
      ensures forall k :: k in tasks.entries ==> tasks.entries[k] in r.body.data.value
    {
      Success(200, tasks.Values(), "Tasks retrieved successfully", now)
    }

    /** GET /tasks/{task_id}: the stored record, or TASK_NOT_FOUND with 404. */
    function GetTask(taskId: string, now: string): (r: Reply<Record>)
      reads this
      requires Valid()
      ensures WellFormed(r, now)
      ensures r.Ok? <==> taskId in tasks.entries
      ensures r.Ok? ==> r.status == 200 && r.body.data == Some(tasks.entries[taskId])
      ensures r.Ok? ==> r.body.message == Some("Task retrieved successfully")
      ensures r.Ok? && IdsMatchKeys(tasks) ==> r.body.data.value["id"] == Str(taskId)
      ensures r.Fail? ==>
                r.status == 404 && r.detail.error == "TASK_NOT_FOUND"
                && r.detail.message == "Task with ID " + taskId + " not found"
    {
      if taskId !in tasks.entries then TaskNotFound(taskId, now)
      else Success(200, tasks.entries[taskId], "Task retrieved successfully", now)
    }

    /** POST /tasks: stores a pending task under the size-derived ID and answers 201. */
    method CreateTask(request: CreateTaskRequest, createdAt: string, now: string) returns (r: Reply<Record>)
      requires Valid()
      modifies this
      ensures Valid() && stories == old(stories)
      ensures var id := TaskId(old(tasks.Size()) + 1);
              var task := NewTask(id, request, createdAt);
              && tasks == old(tasks).Set(id, task)
              && task["id"] == Str(id) && task["status"] == Str("pending")
              && r == Success(201, task, "Task created successfully", now)
    {
      var taskId := NextTaskId(tasks);
      var task := NewTask(taskId, request, createdAt);
      assert task["id"] == Str(taskId) && task["status"] == Str("pending");
      tasks := tasks.Set(taskId, task);
      r := Success(201, task, "Task created successfully", now);
    }

    /** PUT /tasks/{task_id}: overwrites the fields the record already has. */
    method UpdateTask(taskId: string, update: seq<(string, Value)>, now: string) returns (r: Reply<Record>)
      requires Valid()
      modifies this
      ensures Valid() && stories == old(stories)
      ensures taskId !in old(tasks.entries) ==> tasks == old(tasks) && r == TaskNotFound(taskId, now)
      ensures taskId in old(tasks.entries) ==>
                && tasks.keys == old(tasks.keys)
                && tasks.entries == old(tasks.entries)[taskId := Patch(old(tasks.entries[taskId]), update)]
                && r == Success(200, tasks.entries[taskId], "Task updated successfully", now)
    {
      if taskId !in tasks.entries {
        return TaskNotFound(taskId, now);
      }
      ghost var original := tasks.entries[taskId];
      var i := 0;
      while i < |update|
        invariant 0 <= i <= |update|
        invariant tasks.Valid() && taskId in tasks.entries && stories == old(stories)
        invariant tasks.keys == old(tasks.keys)
        invariant tasks.entries.Keys == old(tasks.entries).Keys
        invariant forall k :: k in tasks.entries && k != taskId ==> tasks.entries[k] == old(tasks.entries[k])
        invariant Patch(tasks.entries[taskId], update[i..]) == Patch(original, update)
      {
        var (key, value) := update[i];
        PatchSuffix(tasks.entries[taskId], update, i);
        if key in tasks.entries[taskId] {
          tasks := tasks.Set(taskId, tasks.entries[taskId][key := value]);
        }
        i := i + 1;
      }
      assert update[|update|..] == [];
      assert tasks.entries == old(tasks.entries)[taskId := Patch(original, update)];
      r := Success(200, tasks.entries[taskId], "Task updated successfully", now);
    }

    /** DELETE /tasks/{task_id}: removes exactly that task; a later GET finds nothing. */
    method DeleteTask(taskId: string, now: string) returns (r: Reply<Record>)
      requires Valid()
      modifies this
      ensures Valid() && stories == old(stories)
      ensures taskId !in old(tasks.entries) ==> tasks == old(tasks) && r == TaskNotFound(taskId, now)
      ensures taskId in old(tasks.entries) ==>
                && tasks == old(tasks).Remove(taskId)
                && tasks.Size() == old(tasks.Size()) - 1
                && r == Success(200, map["message" := Str("Task deleted successfully")],
                                "Task deleted successfully", now)
      ensures taskId !in tasks.entries
      ensures forall k :: k in tasks.entries <==> k in old(tasks.entries) && k != taskId
      ensures forall k :: k in tasks.entries ==> tasks.entries[k] == old(tasks.entries[k])
      ensures forall t :: GetTask(taskId, t) == TaskNotFound(taskId, t)
    {
      if taskId !in tasks.entries {
        return TaskNotFound(taskId, now);
      }
      tasks := tasks.Remove(taskId);
      r := Success(200, map["message" := Str("Task deleted successfully")], "Task deleted successfully", now);
    }

    /** GET /user-stories: every story, in insertion order; nothing changes. */
    function GetUserStories(now: string): (r: Reply<seq<UserStory>>)
      reads this
      requires Valid()
      ensures WellFormed(r, now) && r.Ok? && r.status == 200
      ensures r.body.message == Some("User stories retrieved successfully")
      ensures |r.body.data.value| == stories.Size()
      ensures forall i :: 0 <= i < |stories.keys| ==> r.body.data.value[i] == stories.entries[stories.keys[i]]
      ensures forall k :: k in stories.entries ==> stories.entries[k] in r.body.data.value
    {
      Success(200, stories.Values(), "User stories retrieved successfully", now)
    }

    /** GET /user-stories/{story_id}: the stored story, or STORY_NOT_FOUND with 404. */
    function GetUserStory(storyId: string, now: string): (r: Reply<UserStory>)
      reads this
      requires Valid()
      ensures WellFormed(r, now)
      ensures r.Ok? <==> storyId in stories.entries
      ensures r.Ok? ==> r.status == 200 && r.body.data == Some(stories.entries[storyId])
      ensures r.Ok? ==> r.body.message == Some("User story retrieved successfully")
      ensures r.Fail? ==>
                r.status == 404 && r.detail.error == "STORY_NOT_FOUND"
                && r.detail.message == "User story with ID " + storyId + " not found"
    {
      if storyId !in stories.entries then StoryNotFound(storyId, now)
      else Success(200, stories.entries[storyId], "User story retrieved successfully", now)
    }

    /** POST /user-stories: replaces the client's ID by the size-derived one and stores the story. */
    method CreateUserStory(story: UserStory, now: string) returns (r: Reply<UserStory>)
      requires Valid()
      modifies this
      ensures Valid() && tasks == old(tasks)
      ensures var id := StoryId(old(stories.Size()) + 1);
              var stored := story.(id := id);
              && stories == old(stories).Set(id, stored)
              && r == Success(201, stored, "User story created successfully", now)
    {
      var storyId := NextStoryId(stories);
      var stored := story.(id := storyId);
      stories := stories.Set(storyId, stored);
      r := Success(201, stored, "User story created successfully", now);
    }
  }
}
