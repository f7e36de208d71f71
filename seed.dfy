/** The seed contents of `tasks_db` and `user_stories_db`. */
module TaskflowSeed {
  import opened Wrappers
  import opened Store
  import opened Ids
  import opened Tasks

  /** The initial contents of `tasks_db`. */
  function SeedTasks(): (d: Dict<Record>)
    ensures d.Valid() && d.Size() == 2
  {
    Pair("task_001", FirstTask, "task_002", SecondTask)
  }

  /** Each seed record's `id` is the key it is stored under. */
  lemma SeedTasksIdsMatchKeys()
    ensures IdsMatchKeys(SeedTasks())
  {
    PairIdsMatchKeys("task_001", FirstTask, "task_002", SecondTask);
  }

  /** The seed keys are task_001 and task_002: the seed store counts as never deleted from. */
  lemma SeedTasksSequential()
    ensures Sequential(SeedTasks())
  {
    FirstTaskIds();
    PairSequential("task_001", FirstTask, "task_002", SecondTask);
  }

  /** On the seed data, deleting task_001 and then creating a task picks the
      ID task_002 again, so the new task replaces the live task_002. */
  lemma SeedDeleteThenCreate(task: Record)
    ensures var db := SeedTasks().Remove("task_001");
            && NextTaskId(db) == "task_002" && "task_002" in db.entries
            && db.Set("task_002", task).Size() == 1
            && db.Set("task_002", task).entries["task_002"] == task
  {
    SeedTasksSequential();
    FirstTaskIds();
    DeleteThenCreateOverwritesNewest(SeedTasks(), "task_001", task);
  }

  const FirstTask: Record :=
    TaskRecord("task_001", "Learn FastAPI", "Build your first API with FastAPI", "in_progress",
               "2024-01-15T10:00:00Z",
               Some("As a developer, I want to learn FastAPI so that I can build modern APIs quickly"))

  const SecondTask: Record :=
    TaskRecord("task_002", "Understand REST", "Learn REST principles and HTTP methods", "completed",
               "2024-01-14T09:00:00Z",
               Some("As a developer, I want to understand REST principles so that I can design better APIs"))

  /** The initial contents of `user_stories_db`. */
  function SeedStories(): (d: Dict<UserStory>)
    ensures d.Valid() && d.Size() == 2
  {
    Pair("story_001", FirstStory, "story_002", SecondStory)
  }

  const FirstStory: UserStory :=
    UserStory("story_001", "project manager", "to see all tasks for my team",
              "I can track progress and identify blockers",
              ["Can view all tasks in a project", "Can filter by status", "Can see task assignments"], "high")

  const SecondStory: UserStory :=
    UserStory("story_002", "developer", "to update task status", "I can keep the team informed of my progress",
              ["Can change status to in_progress", "Can mark tasks as completed", "Can add comments to tasks"],
              "medium")
}
