/**
  The project and task data access of src/lib/firebase/projects.ts over an
  in-memory document store. The "projects" collection is a map from document
  id to project; every project's "tasks" subcollection lives in one map keyed
  by (project id, task id). Ids come from counters, and `serverTimestamp()`
  resolves to the store's write counter `now`, which every write advances.
  The store itself checks no role: only the route guards restrict callers.
 */
module ProjectStore {
  import opened Common

  datatype Project = Project(
    name: string,
    title: string,
    description: string,
    location: string,
    category: string,
    status: string,
    area: string,
    squareFeet: int,
    timeline: string,
    images: seq<string>,
    progress: int,
    percentage: int,
    createdAt: Timestamp,
    updatedAt: Timestamp,
    createdBy: string,
    updatedBy: string)

  /** `{ id: doc.id, ...doc.data() }`. */
  datatype ProjectDoc = ProjectDoc(id: Id, data: Project)

  /** The fields a caller passes to createProject; a `None` number is `undefined`. */
  datatype ProjectInput = ProjectInput(
    name: string,
    title: string,
    description: string,
    location: string,
    category: string,
    status: string,
    area: string,
    squareFeet: Option<int>,
    timeline: string,
    images: Option<seq<string>>,
    progress: Option<int>,
    percentage: Option<int>)

  /** A partial update: `None` is a key the update does not carry. */
  datatype ProjectPatch = ProjectPatch(
    name: Option<string>,
    title: Option<string>,
    description: Option<string>,
    location: Option<string>,
    category: Option<string>,
    status: Option<string>,
    area: Option<string>,
    squareFeet: Option<int>,
    timeline: Option<string>,
    images: Option<seq<string>>,
    progress: Option<int>,
    percentage: Option<int>)

  datatype TaskNote = TaskNote(content: string, createdAt: Timestamp, createdBy: string)

  datatype Task = Task(
    projectId: Id,
    title: string,
    description: string,
    status: string,
    priority: string,
    assignedTo: Option<string>,
    notes: seq<TaskNote>,
    createdAt: Timestamp,
    updatedAt: Timestamp,
    completedAt: Option<Timestamp>,
    createdBy: string)

  datatype TaskDoc = TaskDoc(id: Id, data: Task)

  datatype TaskInput = TaskInput(
    title: string,
    description: string,
    status: Option<string>,
    priority: string,
    assignedTo: Option<string>,
    notes: Option<seq<TaskNote>>,
    completedAt: Option<Timestamp>)

  datatype TaskPatch = TaskPatch(
    title: Option<string>,
    description: Option<string>,
    status: Option<string>,
    priority: Option<string>,
    assignedTo: Option<string>,
    notes: Option<seq<TaskNote>>,
    completedAt: Option<Timestamp>)

  /** The optional `{status, category}` argument of getProjects. */
  datatype Filters = Filters(status: Option<string>, category: Option<string>)

  /** One document write, as the store receives it. */
  datatype Write =
    | AddProjectDoc(id: Id)
    | UpdateProjectDoc(id: Id)
    | DeleteProjectDoc(id: Id)
    | AddTaskDoc(projectId: Id, taskId: Id)
    | UpdateTaskDoc(projectId: Id, taskId: Id)
    | DeleteTaskDoc(projectId: Id, taskId: Id)

  const TaskNotFound := "Task not found"
  /** What `updateDoc` reports for a document that does not exist. */
  const NoDocument := "No document to update"

  /** The document createProject writes: defaults for the numbers and the image list, stamps and authors. */
  function NewProject(input: ProjectInput, userId: string, t: Timestamp): Project
  {
    Project(
      input.name, input.title, input.description, input.location, input.category, input.status,
      input.area, NumOr(input.squareFeet, 0), input.timeline,
      if input.images.Some? then input.images.value else [],
      NumOr(input.progress, 0),
      NumOr(input.percentage, NumOr(input.progress, 0)),
      t, t, userId, userId)
  }

  function Pick<T>(update: Option<T>, current: T): T
  {
    if update.Some? then update.value else current
  }

  /** The document after updateProject: the carried fields, percentage following progress, new stamp and author. */
  function PatchedProject(p: Project, patch: ProjectPatch, userId: string, t: Timestamp): Project
  {
    p.(
      name := Pick(patch.name, p.name),
      title := Pick(patch.title, p.title),
      description := Pick(patch.description, p.description),
      location := Pick(patch.location, p.location),
      category := Pick(patch.category, p.category),
      status := Pick(patch.status, p.status),
      area := Pick(patch.area, p.area),
      squareFeet := Pick(patch.squareFeet, p.squareFeet),
      timeline := Pick(patch.timeline, p.timeline),
      images := Pick(patch.images, p.images),
      progress := Pick(patch.progress, p.progress),
      percentage := if patch.progress.Some? then patch.progress.value else Pick(patch.percentage, p.percentage),
      updatedAt := t,
      updatedBy := userId)
  }

  /** The document createTask writes under `projectId`. */
  function NewTask(projectId: Id, input: TaskInput, userId: string, t: Timestamp): Task
  {
    Task(
      projectId, input.title, input.description, OptOrElse(input.status, "pending"), input.priority,
      input.assignedTo, if input.notes.Some? then input.notes.value else [],
      t, t, input.completedAt, userId)
  }

  /** `updates.status === "completed" && !updates.completedAt`. */
  predicate StampsCompletion(patch: TaskPatch)
  {
    patch.status == Some("completed") && patch.completedAt.None?
  }

  /** The task after updateTask. */
  function PatchedTask(task: Task, patch: TaskPatch, t: Timestamp): Task
  {
    task.(
      title := Pick(patch.title, task.title),
      description := Pick(patch.description, task.description),
      status := Pick(patch.status, task.status),
      priority := Pick(patch.priority, task.priority),
      assignedTo := if patch.assignedTo.Some? then patch.assignedTo else task.assignedTo,
      notes := Pick(patch.notes, task.notes),
      updatedAt := t,
      completedAt := if StampsCompletion(patch) then Some(t)
                     else if patch.completedAt.Some? then patch.completedAt else task.completedAt)
  }

  /**
    The task after addTaskNote: one more note at the end, and a new stamp.
    The note carries the write's own time; the code as written sends the
    `serverTimestamp()` sentinel there instead (see WrittenAddTaskNote).
   */
  function WithNote(task: Task, content: string, userId: string, t: Timestamp): Task
  {
    task.(notes := task.notes + [TaskNote(content, t, userId)], updatedAt := t)
  }

  /** A note's `createdAt` as the client sends it: a time, or the `serverTimestamp()` sentinel. */
  datatype SentStamp = At(t: Timestamp) | ServerTimestamp

  datatype SentNote = SentNote(content: string, createdAt: SentStamp, createdBy: string)

  function Sent(notes: seq<TaskNote>): (r: seq<SentNote>)
    ensures |r| == |notes|
    ensures forall i :: 0 <= i < |notes| ==> r[i] == SentNote(notes[i].content, At(notes[i].createdAt), notes[i].createdBy)
  {
    seq(|notes|, i requires 0 <= i < |notes| => SentNote(notes[i].content, At(notes[i].createdAt), notes[i].createdBy))
  }

  /** The client refuses update data holding the `serverTimestamp()` sentinel inside an array. */
  predicate ArrayAccepted(notes: seq<SentNote>)
  {
    forall i :: 0 <= i < |notes| ==> notes[i].createdAt.At?
  }

  const SentinelInArray := "Function updateDoc() called with invalid data. serverTimestamp() is not currently supported inside arrays"

  /**
    addTaskNote as written: a missing task fails with "Task not found";
    otherwise the notes array it sends ends with a note whose createdAt is
    the sentinel, and the client refuses that data before writing anything.
   */
  function WrittenAddTaskNote(task: Option<Task>, content: string, userId: string): (r: Result<seq<SentNote>>)
    ensures task.None? ==> r == Err(TaskNotFound)
  {
    if task.None? then Err(TaskNotFound)
    else
      var notes := Sent(task.value.notes) + [SentNote(content, ServerTimestamp, userId)];
      if ArrayAccepted(notes) then Ok(notes) else Err(SentinelInArray)
  }

  /** As written, adding a note to a task that exists always fails, and nothing is written. */
  lemma WrittenAddTaskNoteRefused(task: Task, content: string, userId: string)
    ensures WrittenAddTaskNote(Some(task), content, userId) == Err(SentinelInArray)
  {
    var notes := Sent(task.notes) + [SentNote(content, ServerTimestamp, userId)];
    assert notes[|task.notes|].createdAt == ServerTimestamp;
  }

  /**
    With the note stamped by the write's time, the client accepts the array,
    and it holds the stored notes followed by the new one.
   */
  lemma CorrectedNoteAccepted(task: Task, content: string, userId: string, t: Timestamp)
    ensures ArrayAccepted(Sent(WithNote(task, content, userId, t).notes))
    ensures Sent(WithNote(task, content, userId, t).notes) == Sent(task.notes) + [SentNote(content, At(t), userId)]
  {
    var after := WithNote(task, content, userId, t).notes;
    assert after[..|task.notes|] == task.notes;
  }

  /** A truthy filter value must be matched exactly; a missing or empty one matches everything. */
  predicate Matches(p: Project, filters: Filters)
  {
    && (filters.status.None? || filters.status.value == "" || p.status == filters.status.value)
    && (filters.category.None? || filters.category.value == "" || p.category == filters.category.value)
  }

  /** The tasks whose subcollection is not `projectId`'s. */
  function TasksOutside(tasks: map<(Id, Id), Task>, projectId: Id): map<(Id, Id), Task>
  {
    map k | k in tasks && k.0 != projectId :: tasks[k]
  }

  /** The keys of the listed tasks in `projectId`'s subcollection. */
  function TaskKeys(projectId: Id, docs: seq<TaskDoc>): set<(Id, Id)>
  {
    set j | 0 <= j < |docs| :: (projectId, docs[j].id)
  }

  /** The task deletions of `projectId`'s listed tasks, one per task, in list order. */
  function TaskDeletions(projectId: Id, docs: seq<TaskDoc>): (r: seq<Write>)
    ensures |r| == |docs|
  {
    seq(|docs|, k requires 0 <= k < |docs| => DeleteTaskDoc(projectId, docs[k].id))
  }

  /** Taking one more listed task adds its key and appends its deletion. */
  lemma OneMoreDeletion(projectId: Id, docs: seq<TaskDoc>, i: nat)
    requires i < |docs|
    ensures TaskKeys(projectId, docs[..i + 1]) == TaskKeys(projectId, docs[..i]) + {(projectId, docs[i].id)}
    ensures TaskDeletions(projectId, docs[..i + 1]) == TaskDeletions(projectId, docs[..i]) + [DeleteTaskDoc(projectId, docs[i].id)]
  {
    assert forall j :: 0 <= j < i ==> docs[..i + 1][j] == docs[..i][j];
  }

  /** Removing keys one more at a time is removing them all at once. */
  lemma RemoveOneMore<K, V>(m: map<K, V>, gone: set<K>, k: K)
    ensures m - gone - {k} == m - (gone + {k})
  {
  }

  /** A complete listing yields a deletion for every task of the project. */
  lemma DeletionsCoverProject(tasks: map<(Id, Id), Task>, projectId: Id, docs: seq<TaskDoc>)
    requires forall k :: k in tasks && k.0 == projectId ==> TaskDoc(k.1, tasks[k]) in docs
    ensures forall t :: (projectId, t) in tasks ==> DeleteTaskDoc(projectId, t) in TaskDeletions(projectId, docs)
  {
    forall t | (projectId, t) in tasks
      ensures DeleteTaskDoc(projectId, t) in TaskDeletions(projectId, docs)
    {
      var k := (projectId, t);
      assert k.0 == projectId;
      var j :| 0 <= j < |docs| && docs[j] == TaskDoc(k.1, tasks[k]);
      assert TaskDeletions(projectId, docs)[j] == DeleteTaskDoc(projectId, t);
    }
  }

  /** Deleting every listed task of a complete listing empties the project's subcollection. */
  lemma ListedTasksCoverProject(tasks: map<(Id, Id), Task>, projectId: Id, docs: seq<TaskDoc>)
    requires forall k :: k in tasks && k.0 == projectId ==> TaskDoc(k.1, tasks[k]) in docs
    ensures tasks - TaskKeys(projectId, docs) == TasksOutside(tasks, projectId)
  {
    forall k | k in tasks && k.0 == projectId
      ensures k in TaskKeys(projectId, docs)
    {
      var j :| 0 <= j < |docs| && docs[j] == TaskDoc(k.1, tasks[k]);
    }
  }

  /** Every project id was issued, every project was created before `now`, and a larger id means a later creation. */
  ghost predicate ProjectsConsistent(projects: map<Id, Project>, nextId: Id, now: Timestamp)
  {
    && (forall id :: id in projects ==> id < nextId && projects[id].createdAt < now)
    && (forall i, j :: i in projects && j in projects && i < j ==> projects[i].createdAt < projects[j].createdAt)
  }

  /** The same for tasks, whose ids come from one counter; a task records the subcollection it lives in. */
  ghost predicate TasksConsistent(tasks: map<(Id, Id), Task>, nextId: Id, now: Timestamp)
  {
    && (forall k :: k in tasks ==> k.1 < nextId && tasks[k].createdAt < now && tasks[k].projectId == k.0)
    && (forall k, l :: k in tasks && l in tasks && k.1 < l.1 ==> tasks[k].createdAt < tasks[l].createdAt)
  }

  /**
    What a query ordered by `createdAt` descending returns, stated over ids:
    the matching projects with an id below `n`, largest id first.
   */
  function ProjectListing(projects: map<Id, Project>, filters: Filters, n: nat): (r: seq<ProjectDoc>)
    ensures forall i :: 0 <= i < |r| ==>
      r[i].id < n && r[i].id in projects && r[i].data == projects[r[i].id] && Matches(r[i].data, filters)
    ensures forall i, j :: 0 <= i < j < |r| ==> r[i].id > r[j].id
  {
    if n == 0 then []
    else
      var rest := ProjectListing(projects, filters, n - 1);
      if n - 1 in projects && Matches(projects[n - 1], filters) then [ProjectDoc(n - 1, projects[n - 1])] + rest
      else rest
  }

  /** No matching project below `n` is missing from the listing. */
  lemma {:induction false} ProjectListingComplete(projects: map<Id, Project>, filters: Filters, n: nat)
    ensures forall id :: id < n && id in projects && Matches(projects[id], filters) ==>
      ProjectDoc(id, projects[id]) in ProjectListing(projects, filters, n)
  {
    if n > 0 {
      ProjectListingComplete(projects, filters, n - 1);
    }
  }

  /** Under the store invariant, largest id first is newest first. */
  lemma ProjectListingNewestFirst(projects: map<Id, Project>, filters: Filters, n: nat, now: Timestamp)
    requires ProjectsConsistent(projects, n, now)
    ensures var r := ProjectListing(projects, filters, n);
      forall i, j :: 0 <= i < j < |r| ==> r[i].data.createdAt > r[j].data.createdAt
  {
  }

  /** The tasks of `projectId`'s subcollection with an id below `n`, largest id first. */
  function TaskListing(tasks: map<(Id, Id), Task>, projectId: Id, n: nat): (r: seq<TaskDoc>)
    ensures forall i :: 0 <= i < |r| ==>
      r[i].id < n && (projectId, r[i].id) in tasks && r[i].data == tasks[(projectId, r[i].id)]
    ensures forall i, j :: 0 <= i < j < |r| ==> r[i].id > r[j].id
  {
    if n == 0 then []
    else
      var rest := TaskListing(tasks, projectId, n - 1);
      if (projectId, n - 1) in tasks then [TaskDoc(n - 1, tasks[(projectId, n - 1)])] + rest else rest
  }

  /** No task of the subcollection with an id below `n` is missing from the listing. */
  lemma {:induction false} TaskListingComplete(tasks: map<(Id, Id), Task>, projectId: Id, n: nat)
    ensures forall k :: k in tasks && k.0 == projectId && k.1 < n ==>
      TaskDoc(k.1, tasks[k]) in TaskListing(tasks, projectId, n)
  {
    if n > 0 {
      TaskListingComplete(tasks, projectId, n - 1);
    }
  }

  /** Under the store invariant, largest id first is newest first. */
  lemma TaskListingNewestFirst(tasks: map<(Id, Id), Task>, projectId: Id, n: nat, now: Timestamp)
    requires TasksConsistent(tasks, n, now)
    ensures var r := TaskListing(tasks, projectId, n);
      forall i, j :: 0 <= i < j < |r| ==> r[i].data.createdAt > r[j].data.createdAt
  {
  }

  class Store {
    var projects: map<Id, Project>
    var tasks: map<(Id, Id), Task>
    var nextProjectId: Id
    var nextTaskId: Id
    /** The value the next `serverTimestamp()` resolves to. */
    var now: Timestamp
    /** Every write the store has received, in order. */
    ghost var log: seq<Write>

    /**
      Ids are issued in creation order and creation times are never rewritten,
      so a later id always carries a later `createdAt`.
     */
    ghost predicate Valid()
      reads this
    {
      ProjectsConsistent(projects, nextProjectId, now) && TasksConsistent(tasks, nextTaskId, now)
    }

    constructor ()
      ensures Valid()
      ensures projects == map[] && tasks == map[] && log == []
    {
      projects := map[];
      tasks := map[];
      nextProjectId := 0;
      nextTaskId := 0;
      now := 0;
      log := [];
    }

    /**
      `getProjects(filters)`: exactly the projects that match the filters, each
      tagged with its id, newest first.
     */
    method GetProjects(filters: Filters) returns (r: seq<ProjectDoc>)
      requires Valid()
      ensures r == ProjectListing(projects, filters, nextProjectId)
      ensures forall i :: 0 <= i < |r| ==>
        r[i].id in projects && r[i].data == projects[r[i].id] && Matches(r[i].data, filters)
      ensures forall id :: id in projects && Matches(projects[id], filters) ==> ProjectDoc(id, projects[id]) in r
      ensures forall i, j :: 0 <= i < j < |r| ==> r[i].data.createdAt > r[j].data.createdAt
    {
      r := [];
      var n := 0;
      while n < nextProjectId
        invariant n <= nextProjectId
        invariant r == ProjectListing(projects, filters, n)
      {
        if n in projects && Matches(projects[n], filters) {
          r := [ProjectDoc(n, projects[n])] + r;
        }
        n := n + 1;
      }
      ProjectListingComplete(projects, filters, nextProjectId);
      ProjectListingNewestFirst(projects, filters, nextProjectId, now);
    }

    /** `getProject(id)`: null for an absent id, otherwise the stored record tagged with its id. */
    function GetProject(id: Id): (r: Option<ProjectDoc>)
      reads this
      ensures r.None? <==> id !in projects
      ensures r.Some? ==> r.value.id == id && r.value.data == projects[id]
    {
      if id in projects then Some(ProjectDoc(id, projects[id])) else None
    }

    /** `createProject(project, userId)`: a new document under a fresh id. */
    method CreateProject(input: ProjectInput, userId: string) returns (id: Id)
      requires Valid()
      modifies this
      ensures Valid()
      ensures id !in old(projects)
      ensures projects == old(projects)[id := NewProject(input, userId, old(now))]
      ensures tasks == old(tasks) && log == old(log) + [AddProjectDoc(id)]
    {
      id := nextProjectId;
      projects := projects[id := NewProject(input, userId, now)];
      nextProjectId := nextProjectId + 1;
      now := now + 1;
      log := log + [AddProjectDoc(id)];
    }

    /** `updateProject(id, updates, userId)`; updating a missing document fails and writes nothing. */
    method UpdateProject(id: Id, patch: ProjectPatch, userId: string) returns (r: Result<()>)
      requires Valid()
      modifies this
      ensures Valid()
      ensures id !in old(projects) ==> r == Err(NoDocument) && projects == old(projects) && log == old(log)
      ensures id in old(projects) ==>
        && r.Ok?
        && projects == old(projects)[id := PatchedProject(old(projects)[id], patch, userId, old(now))]
        && log == old(log) + [UpdateProjectDoc(id)]
      ensures tasks == old(tasks)
    {
      if id !in projects {
        return Err(NoDocument);
      }
      projects := projects[id := PatchedProject(projects[id], patch, userId, now)];
      now := now + 1;
      log := log + [UpdateProjectDoc(id)];
      r := Ok(());
    }

    /**
      `deleteProject(id)`: every task of the project is deleted, one write each,
      and only then the project document. Images are left where they are.
     */
    method DeleteProject(id: Id)
      requires Valid()
      modifies this
      ensures Valid()
      ensures projects == old(projects) - {id}
      ensures tasks == TasksOutside(old(tasks), id)
      ensures log == old(log) + TaskDeletions(id, TaskListing(old(tasks), id, old(nextTaskId))) + [DeleteProjectDoc(id)]
      ensures forall t :: (id, t) in old(tasks) ==> DeleteTaskDoc(id, t) in log[|old(log)|..|log| - 1]
    {
      var doomed := GetProjectTasks(id);
      ListedTasksCoverProject(tasks, id, doomed);
      DeletionsCoverProject(tasks, id, doomed);
      DeleteEach(id, doomed);
      projects := projects - {id};
      log := log + [DeleteProjectDoc(id)];
    }

    /** The loop of deleteProject: one task deletion per listed task, in list order. */
    method DeleteEach(id: Id, doomed: seq<TaskDoc>)
      requires Valid()
      modifies this
      ensures Valid()
      ensures projects == old(projects) && nextProjectId == old(nextProjectId) && now == old(now)
      ensures tasks == old(tasks) - TaskKeys(id, doomed)
      ensures log == old(log) + TaskDeletions(id, doomed)
    {
      var i := 0;
      while i < |doomed|
        invariant Valid()
        invariant 0 <= i <= |doomed|
        invariant projects == old(projects) && nextProjectId == old(nextProjectId) && now == old(now)
        invariant tasks == old(tasks) - TaskKeys(id, doomed[..i])
        invariant log == old(log) + TaskDeletions(id, doomed[..i])
      {
        ghost var before, gone := log, TaskKeys(id, doomed[..i]);
        DeleteTask(id, doomed[i].id);
        OneMoreDeletion(id, doomed, i);
        RemoveOneMore(old(tasks), gone, (id, doomed[i].id));
        assert log == old(log) + TaskDeletions(id, doomed[..i + 1]) by {
          assert log == before + [DeleteTaskDoc(id, doomed[i].id)];
        }
        i := i + 1;
      }
      assert doomed[..i] == doomed;
    }

    /** `getProjectTasks(projectId)`: exactly the tasks in that subcollection, newest first. */
    method GetProjectTasks(projectId: Id) returns (r: seq<TaskDoc>)
      requires Valid()
      ensures r == TaskListing(tasks, projectId, nextTaskId)
      ensures forall i :: 0 <= i < |r| ==>
        (projectId, r[i].id) in tasks && r[i].data == tasks[(projectId, r[i].id)]
      ensures forall k :: k in tasks && k.0 == projectId ==> TaskDoc(k.1, tasks[k]) in r
      ensures forall i, j :: 0 <= i < j < |r| ==> r[i].data.createdAt > r[j].data.createdAt
    {
      r := [];
      var n := 0;
      while n < nextTaskId
        invariant n <= nextTaskId
        invariant r == TaskListing(tasks, projectId, n)
      {
        if (projectId, n) in tasks {
          r := [TaskDoc(n, tasks[(projectId, n)])] + r;
        }
        n := n + 1;
      }
      TaskListingComplete(tasks, projectId, nextTaskId);
      TaskListingNewestFirst(tasks, projectId, nextTaskId, now);
    }

    /** `createTask(projectId, task, userId)`: the subcollection need not belong to an existing project. */
    method CreateTask(projectId: Id, input: TaskInput, userId: string) returns (id: Id)
      requires Valid()
      modifies this
      ensures Valid()
      ensures (projectId, id) !in old(tasks)
      ensures tasks == old(tasks)[(projectId, id) := NewTask(projectId, input, userId, old(now))]
      ensures projects == old(projects) && log == old(log) + [AddTaskDoc(projectId, id)]
    {
      id := nextTaskId;
      tasks := tasks[(projectId, id) := NewTask(projectId, input, userId, now)];
      nextTaskId := nextTaskId + 1;
      now := now + 1;
      log := log + [AddTaskDoc(projectId, id)];
    }

    /** `updateTask(projectId, taskId, updates, userId)`; a missing task fails and nothing is written. */
    method UpdateTask(projectId: Id, taskId: Id, patch: TaskPatch) returns (r: Result<()>)
      requires Valid()
      modifies this
      ensures Valid()
      ensures (projectId, taskId) !in old(tasks) ==> r == Err(NoDocument) && tasks == old(tasks) && log == old(log)
      ensures (projectId, taskId) in old(tasks) ==>
        && r.Ok?
        && tasks == old(tasks)[(projectId, taskId) := PatchedTask(old(tasks)[(projectId, taskId)], patch, old(now))]
        && log == old(log) + [UpdateTaskDoc(projectId, taskId)]
      ensures projects == old(projects)
    {
      if (projectId, taskId) !in tasks {
        return Err(NoDocument);
      }
      tasks := tasks[(projectId, taskId) := PatchedTask(tasks[(projectId, taskId)], patch, now)];
      now := now + 1;
      log := log + [UpdateTaskDoc(projectId, taskId)];
      r := Ok(());
    }

    /** `deleteTask(projectId, taskId)`: deleting a missing document is not an error. */
    method DeleteTask(projectId: Id, taskId: Id)
      requires Valid()
      modifies this
      ensures Valid()
      ensures tasks == old(tasks) - {(projectId, taskId)}
      ensures projects == old(projects) && log == old(log) + [DeleteTaskDoc(projectId, taskId)]
      ensures nextProjectId == old(nextProjectId) && nextTaskId == old(nextTaskId) && now == old(now)
    {
      tasks := tasks - {(projectId, taskId)};
      log := log + [DeleteTaskDoc(projectId, taskId)];
    }

    /**
      `addTaskNote(projectId, taskId, note, userId)`: read the task, then write
      its notes back with the new note at the end, stamped with the write's
      time rather than the sentinel the code sends (WrittenAddTaskNote).
     */
    method AddTaskNote(projectId: Id, taskId: Id, note: string, userId: string) returns (r: Result<()>)
      requires Valid()
      modifies this
      ensures Valid()
      ensures (projectId, taskId) !in old(tasks) ==>
        r == Err(TaskNotFound) && tasks == old(tasks) && log == old(log)
      ensures (projectId, taskId) in old(tasks) ==>
        && r.Ok?
        && tasks == old(tasks)[(projectId, taskId) := WithNote(old(tasks)[(projectId, taskId)], note, userId, old(now))]
        && log == old(log) + [UpdateTaskDoc(projectId, taskId)]
      ensures projects == old(projects)
    {
      if (projectId, taskId) !in tasks {
        return Err(TaskNotFound);
      }
      var task := tasks[(projectId, taskId)];
      tasks := tasks[(projectId, taskId) := WithNote(task, note, userId, now)];
      now := now + 1;
      log := log + [UpdateTaskDoc(projectId, taskId)];
      r := Ok(());
    }
  }

  // ---------------------------------------------------------------------
  // Properties of the documents the store writes
  // ---------------------------------------------------------------------

  /** createProject's defaults: numbers 0, images empty, authors the caller. */
  lemma NewProjectDefaults(input: ProjectInput, userId: string, t: Timestamp)
    ensures var p := NewProject(input, userId, t);
      && (input.progress.None? ==> p.progress == 0 && p.percentage == NumOr(input.percentage, 0))
      && (input.squareFeet.None? ==> p.squareFeet == 0)
      && (input.images.None? ==> p.images == [])
      && (input.percentage.None? || input.percentage == Some(0) ==> p.percentage == p.progress)
      && p.createdBy == userId && p.updatedBy == userId && p.createdAt == p.updatedAt == t
  {
  }

  /** createProject does not force percentage to follow progress. */
  lemma NewProjectMayDesyncPercentage(userId: string, t: Timestamp)
    ensures exists input: ProjectInput :: NewProject(input, userId, t).percentage != NewProject(input, userId, t).progress
  {
    var input := ProjectInput("", "", "", "", "", "upcoming", "", None, "", None, Some(40), Some(10));
    assert NewProject(input, userId, t).percentage == 10;
  }

  /** updateProject: a carried progress is copied into percentage; absent fields keep their values. */
  lemma PatchedProjectSyncsPercentage(p: Project, patch: ProjectPatch, userId: string, t: Timestamp)
    ensures var q := PatchedProject(p, patch, userId, t);
      && (patch.progress.Some? ==> q.percentage == q.progress == patch.progress.value)
      && (patch.progress.None? && patch.percentage.None? ==> q.percentage == p.percentage)
      && (patch.title.None? ==> q.title == p.title)
      && (patch.status.None? ==> q.status == p.status)
      && (patch.images.None? ==> q.images == p.images)
      && q.updatedBy == userId && q.updatedAt == t
      && q.createdAt == p.createdAt && q.createdBy == p.createdBy
  {
  }

  /** createTask: the path's project id, no notes, "pending" unless a status is given, the caller as author. */
  lemma NewTaskDefaults(projectId: Id, input: TaskInput, userId: string, t: Timestamp)
    ensures var k := NewTask(projectId, input, userId, t);
      && k.projectId == projectId && k.createdBy == userId
      && (input.notes.None? ==> k.notes == [])
      && (input.status.None? ==> k.status == "pending")
  {
  }

  /**
    updateTask stamps completedAt on every update that carries status
    "completed" without a completedAt, also when the task already had one.
   */
  lemma CompletionRestampedEveryTime(task: Task, patch: TaskPatch, t: Timestamp)
    requires StampsCompletion(patch)
    ensures PatchedTask(task, patch, t).completedAt == Some(t)
    ensures task.completedAt.Some? && task.completedAt.value != t ==>
      PatchedTask(task, patch, t).completedAt != task.completedAt
  {
  }

  /** Updates that do not mark the task completed leave completedAt alone, so reopening never clears it. */
  lemma CompletionKeptOtherwise(task: Task, patch: TaskPatch, t: Timestamp)
    requires patch.status != Some("completed") && patch.completedAt.None?
    ensures PatchedTask(task, patch, t).completedAt == task.completedAt
  {
  }

  /** Two notes added one after the other end up at the end, in call order. */
  lemma {:induction false} NotesInCallOrder(task: Task, a: string, b: string, userId: string, t1: Timestamp, t2: Timestamp)
    ensures WithNote(WithNote(task, a, userId, t1), b, userId, t2).notes
         == task.notes + [TaskNote(a, t1, userId), TaskNote(b, t2, userId)]
  {
    assert task.notes + [TaskNote(a, t1, userId)] + [TaskNote(b, t2, userId)]
        == task.notes + [TaskNote(a, t1, userId), TaskNote(b, t2, userId)];
  }
}
