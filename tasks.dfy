/**
  The records of the task / user-story REST API and what its handlers do to
  them: the task record `create_task` builds, the size-derived IDs, the
  partial update `update_task` applies, and the key invariants these keep.
 */
module Tasks {
  import opened Wrappers
  import opened Store
  import opened Ids

  /** A JSON value, as it can appear in a request body or a stored task. */
  datatype Value =
    | Null
    | Str(s: string)
    | Int(i: int)
    | Bool(b: bool)
    | Arr(items: seq<Value>)
    | Obj(fields: map<string, Value>)

  /** A stored task is a plain dict from field name to value. */
  type Record = map<string, Value>

  /** The body of `POST /tasks`. */
  datatype CreateTaskRequest = CreateTaskRequest(title: string, description: string, userStory: Option<string>)

  datatype UserStory = UserStory(
    id: string,
    asA: string,
    iWant: string,
    soThat: string,
    acceptanceCriteria: seq<string>,
    priority: string)

  /** The fields of the `Task` model, hence of every task record it produces. */
  const TaskFields: set<string> := {"id", "title", "description", "status", "created_at", "user_story"}

  function OptionalStr(o: Option<string>): Value {
    match o
    case None => Null
    case Some(s) => Str(s)
  }

  /** `Task(id=..., ...).dict()`. */
  function TaskRecord(id: string, title: string, description: string, status: string,
                      createdAt: string, userStory: Option<string>): (r: Record)
    ensures r.Keys == TaskFields
    ensures r["id"] == Str(id) && r["title"] == Str(title) && r["description"] == Str(description)
    ensures r["status"] == Str(status) && r["created_at"] == Str(createdAt)
    ensures r["user_story"] == OptionalStr(userStory)
  {
    map["id" := Str(id), "title" := Str(title), "description" := Str(description),
        "status" := Str(status), "created_at" := Str(createdAt), "user_story" := OptionalStr(userStory)]
  }

  /** The record `create_task` builds for a request: a pending task carrying
      the request's title, description and user story under the new ID. */
  function NewTask(id: string, request: CreateTaskRequest, createdAt: string): (r: Record)
    ensures r.Keys == TaskFields
    ensures r["id"] == Str(id) && r["status"] == Str("pending") && r["created_at"] == Str(createdAt)
    ensures r["title"] == Str(request.title) && r["description"] == Str(request.description)
    ensures r["user_story"] == OptionalStr(request.userStory)
  {
    TaskRecord(id, request.title, request.description, "pending", createdAt, request.userStory)
  }

  /** `f"task_{len(tasks_db) + 1:03d}"`. */
  function NextTaskId(db: Dict<Record>): (id: string)
    requires db.Valid()
    ensures id == TaskId(|db.entries| + 1) && id[..5] == "task_"
  {
    TaskId(db.Size() + 1)
  }

  /** `f"story_{len(user_stories_db) + 1:03d}"`. */
  function NextStoryId(db: Dict<UserStory>): (id: string)
    requires db.Valid()
    ensures id == StoryId(|db.entries| + 1) && id[..6] == "story_"
  {
    StoryId(db.Size() + 1)
  }

  // ---------------------------------------------------------------------------
  // Partial update: `for key, value in task_update.items(): if key in task: task[key] = value`

  /** The update items applied in order; keys the record lacks are skipped. */
  function Patch(rec: Record, update: seq<(string, Value)>): (r: Record)
    ensures r.Keys == rec.Keys
  {
    if update == [] then rec
    else Patch(PatchItem(rec, update[0]), update[1..])
  }

  /** One step of the loop: `if key in task: task[key] = value`. */
  function PatchItem(rec: Record, item: (string, Value)): (r: Record)
    ensures r.Keys == rec.Keys
    ensures item.0 in rec ==> r[item.0] == item.1
    ensures forall k :: k in rec && k != item.0 ==> r[k] == rec[k]
  {
    if item.0 in rec then rec[item.0 := item.1] else rec
  }

  /** Patching with a suffix of the items is one step followed by the rest. */
  lemma PatchSuffix(rec: Record, update: seq<(string, Value)>, i: nat)
    requires i < |update|
    ensures Patch(rec, update[i..]) == Patch(PatchItem(rec, update[i]), update[i + 1..])
  {
    assert update[i..][1..] == update[i + 1..];
  }

  /**
    The value the last item with key `k` carries: there is none exactly when no
    item has key `k`, and otherwise it is the value of an item `(k, v)` after
    which no item has key `k`.
   */
  function LastValue(update: seq<(string, Value)>, k: string): (r: Option<Value>)
    ensures r.None? <==> forall i :: 0 <= i < |update| ==> update[i].0 != k
    ensures r.Some? ==>
              exists i :: 0 <= i < |update| && update[i] == (k, r.value)
                          && forall j :: i < j < |update| ==> update[j].0 != k
  {
    if update == [] then None
    else
      match LastValue(update[1..], k)
      case Some(v) => Some(v)
      case None => if update[0].0 == k then Some(update[0].1) else None
  }

  /** After a patch, each field holds the last value supplied for it, or its old value. */
  lemma {:induction false} PatchAt(rec: Record, update: seq<(string, Value)>, k: string)
    requires k in rec
    ensures Patch(rec, update)[k] == match LastValue(update, k) case Some(v) => v case None => rec[k]
  {
    if update != [] {
      PatchAt(PatchItem(rec, update[0]), update[1..], k);
    }
  }

  /** The keys of a dict's items are distinct. */
  ghost predicate DistinctKeys(update: seq<(string, Value)>) {
    forall i, j :: 0 <= i < j < |update| ==> update[i].0 != update[j].0
  }

  /** Without repeated keys, the last value for an item's key is that item's value. */
  lemma {:induction false} LastValueOfItem(update: seq<(string, Value)>, i: nat)
    requires DistinctKeys(update) && i < |update|
    ensures LastValue(update, update[i].0) == Some(update[i].1)
  {
    var rest := update[1..];
    assert DistinctKeys(rest) by {
      forall a, b | 0 <= a < b < |rest| ensures rest[a].0 != rest[b].0 {
        assert rest[a] == update[a + 1] && rest[b] == update[b + 1];
      }
    }
    if i > 0 {
      LastValueOfItem(rest, i - 1);
    }
  }

  /** The update's promise for a dict body: supplied fields take the supplied
      value, fields not supplied keep theirs, no field is added or removed. */
  lemma PatchFields(rec: Record, update: seq<(string, Value)>)
    requires DistinctKeys(update)
    ensures Patch(rec, update).Keys == rec.Keys
    ensures forall i :: 0 <= i < |update| && update[i].0 in rec ==> Patch(rec, update)[update[i].0] == update[i].1
    ensures forall k :: k in rec && (forall i :: 0 <= i < |update| ==> update[i].0 != k) ==>
              Patch(rec, update)[k] == rec[k]
  {
    forall i | 0 <= i < |update| && update[i].0 in rec
      ensures Patch(rec, update)[update[i].0] == update[i].1
    {
      PatchAt(rec, update, update[i].0);
      LastValueOfItem(update, i);
    }
    forall k | k in rec && (forall i :: 0 <= i < |update| ==> update[i].0 != k)
      ensures Patch(rec, update)[k] == rec[k]
    {
      PatchAt(rec, update, k);
    }
  }

  // ---------------------------------------------------------------------------
  // Identifiers and keys

  /** Every record's `id` field names the key it is stored under. */
  ghost predicate IdsMatchKeys(db: Dict<Record>) {
    forall k :: k in db.entries ==> "id" in db.entries[k] && db.entries[k]["id"] == Str(k)
  }

  /** The keys are exactly `task_001`, `task_002`, ... in order: no task was ever deleted. */
  ghost predicate Sequential(db: Dict<Record>) {
    SequentialKeys(db.keys)
  }

  ghost predicate SequentialKeys(keys: seq<string>) {
    forall i :: 0 <= i < |keys| ==> keys[i] == TaskId(i + 1)
  }

  /** Appending the next ID to sequential keys keeps them sequential. */
  lemma SequentialAppend(keys: seq<string>)
    requires SequentialKeys(keys)
    ensures SequentialKeys(keys + [TaskId(|keys| + 1)])
  {
    var ks := keys + [TaskId(|keys| + 1)];
    forall i | 0 <= i < |ks| ensures ks[i] == TaskId(i + 1) {
      if i < |keys| { assert ks[i] == keys[i]; }
    }
  }

  /** A two-entry store whose records carry their own keys. */
  lemma PairIdsMatchKeys(a: string, x: Record, b: string, y: Record)
    requires a != b
    requires "id" in x && x["id"] == Str(a) && "id" in y && y["id"] == Str(b)
    ensures IdsMatchKeys(Pair(a, x, b, y))
  {
    var d := Pair(a, x, b, y);
    forall k | k in d.entries ensures "id" in d.entries[k] && d.entries[k]["id"] == Str(k) {
      if k == a { assert d.entries[k] == x; } else { assert d.entries[k] == y; }
    }
  }

  /** A store holding `task_001` and `task_002`, in that order, is sequential. */
  lemma PairSequential(a: string, x: Record, b: string, y: Record)
    requires a == TaskId(1) && b == TaskId(2) && a != b
    ensures Sequential(Pair(a, x, b, y))
  {
    FirstTaskIds();
  }

  /** While no task has been deleted, the next ID is fresh. */
  lemma NextIdFreshWhenSequential(db: Dict<Record>)
    requires db.Valid() && Sequential(db)
    ensures NextTaskId(db) !in db.entries
  {
    SequentialFresh(db.keys);
  }

  /** The newest of sequential keys is the ID of their count. */
  lemma SequentialNewest(keys: seq<string>)
    requires SequentialKeys(keys) && |keys| > 0
    ensures TaskId(|keys|) in keys
  {
    assert keys[|keys| - 1] == TaskId(|keys|);
  }

  /** Sequential keys never contain the ID after their last one. */
  lemma SequentialFresh(keys: seq<string>)
    requires SequentialKeys(keys)
    ensures TaskId(|keys| + 1) !in keys
  {
    forall i | 0 <= i < |keys| ensures keys[i] != TaskId(|keys| + 1) {
      if keys[i] == TaskId(|keys| + 1) {
        FormatIdInjective("task_", i + 1, |keys| + 1);
      }
    }
  }

  /** While no task has been deleted, storing under the next ID keeps the keys sequential. */
  lemma CreateKeepsSequential(db: Dict<Record>, task: Record)
    requires db.Valid() && Sequential(db)
    ensures Sequential(db.Set(NextTaskId(db), task))
  {
    NextIdFreshWhenSequential(db);
    SequentialAppend(db.keys);
  }

  /** Storing a record whose `id` is its key, deleting, and patching without
      writing `id` keep every record's `id` equal to its key. */
  lemma {:induction false} SetPreservesIds(db: Dict<Record>, taskId: string, task: Record)
    requires db.Valid() && IdsMatchKeys(db) && "id" in task && task["id"] == Str(taskId)
    ensures IdsMatchKeys(db.Set(taskId, task))
  {
    var d := db.Set(taskId, task);
    forall k | k in d.entries ensures "id" in d.entries[k] && d.entries[k]["id"] == Str(k) {
      if k != taskId {
        assert d.entries[k] == db.entries[k];
      }
    }
  }

  lemma RemovePreservesIds(db: Dict<Record>, taskId: string)
    requires db.Valid() && IdsMatchKeys(db) && taskId in db.entries
    ensures IdsMatchKeys(db.Remove(taskId))
  {
  }

  lemma PatchPreservesIds(db: Dict<Record>, taskId: string, update: seq<(string, Value)>)
    requires db.Valid() && IdsMatchKeys(db) && taskId in db.entries
    requires forall i :: 0 <= i < |update| ==> update[i].0 != "id"
    ensures IdsMatchKeys(db.Set(taskId, Patch(db.entries[taskId], update)))
  {
    PatchAt(db.entries[taskId], update, "id");
    SetPreservesIds(db, taskId, Patch(db.entries[taskId], update));
  }

  /**
    IDs come from the store's size, so after a delete a create can reuse the
    key of a live task. In a store no task was ever deleted from, deleting any
    task but the newest and then creating yields the newest task's ID again:
    the new record replaces that live task and the store does not grow. With
    the seed data, deleting task_001 and creating overwrites task_002.
   */
  lemma DeleteThenCreateOverwritesNewest(db: Dict<Record>, victim: string, task: Record)
    requires db.Valid() && Sequential(db) && victim in db.entries && victim != TaskId(db.Size())
    ensures var db1 := db.Remove(victim);
            var id := NextTaskId(db1);
            && id == TaskId(db.Size()) && id in db.entries && id in db1.entries
            && db1.Set(id, task).Size() == db1.Size() == db.Size() - 1
            && db1.Set(id, task).entries[id] == task
  {
    SequentialNewest(db.keys);
  }
}
