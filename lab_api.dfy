/** The request handlers of the labs API (core/apps/labs/api.py). Every route
    sits behind token authentication; the three admin routes also check the
    caller's administrator flag before touching the task table. */
module LabApi {
  import opened Wrappers
  import opened Text
  import opened LabModels

  /** The authenticated caller as the token authentication hands it over;
      the handlers read only its administrator flag. */
  datatype Identity = Identity(isAdmin: bool)

  datatype LabError =
    | Unauthenticated       // no valid access token
    | NotAuthorized         // authenticated, but not an administrator
    | TaskNotFound          // `LabTask.DoesNotExist`
    | TopicNotFound         // `Topic.DoesNotExist`
    | FileNotFound
    | SolutionFileNotFound

  function Status(e: LabError): int
  {
    match e
    case Unauthenticated => 401
    case NotAuthorized => 403
    case _ => 404
  }

  /** The `"error"` text of the responses the handlers build themselves;
      `None` for the failures the framework reports. */
  function Message(e: LabError): Option<string>
  {
    match e
    case NotAuthorized => Some("Not authorized")
    case FileNotFound => Some("File not found")
    case SolutionFileNotFound => Some("Solution file not found")
    case _ => None
  }

  /** `CreateLabTaskSchema`, the body of the create and update routes. */
  datatype TaskPayload = TaskPayload(title: string, description: string, topicId: int)

  /** A task row together with its primary key. */
  datatype Row = Row(id: int, task: LabTask)

  /** `LabTaskSchema`, the wire form of a task. */
  datatype TaskOut = TaskOut(
    id: int,
    title: string,
    description: string,
    topicId: int,
    fileUrl: Option<string>,
    solutionFileUrl: Option<string>,
    createdAt: int)

  /** The headers of a file download; the body (the file's bytes) is not modelled. */
  datatype Attachment = Attachment(contentType: string, fileName: string)

  /** The token check every route declares with `auth=JWTAuth()`. */
  function RequireAuth(auth: Option<Identity>): (e: Option<LabError>)
    ensures e.None? <==> auth.Some?
    ensures e.Some? ==> e.value == Unauthenticated
  {
    if auth.None? then Some(Unauthenticated) else None
  }

  /** Authentication followed by the explicit `is_admin` check of the admin routes. */
  function RequireAdmin(auth: Option<Identity>): (e: Option<LabError>)
    ensures e.None? <==> auth.Some? && auth.value.isAdmin
    ensures e == Some(Unauthenticated) <==> auth.None?
    ensures e == Some(NotAuthorized) <==> auth.Some? && !auth.value.isAdmin
  {
    if auth.None? then Some(Unauthenticated)
    else if !auth.value.isAdmin then Some(NotAuthorized)
    else None
  }

  /** The URL of a stored file, or `None` when the field is empty. */
  function FileUrl(mediaUrl: string, f: Option<string>): (u: Option<string>)
    ensures u.None? <==> !HasFile(f)
    ensures u.Some? ==> u.value == mediaUrl + f.value
  {
    if HasFile(f) then Some(mediaUrl + f.value) else None
  }

  /** `LabTaskSchema.from_orm`. */
  function FromOrm(row: Row, mediaUrl: string): (r: TaskOut)
    ensures r.id == row.id && r.title == row.task.title && r.description == row.task.description
    ensures r.topicId == row.task.topicId && r.createdAt == row.task.createdAt
    ensures r.fileUrl == FileUrl(mediaUrl, row.task.file)
    ensures r.solutionFileUrl == FileUrl(mediaUrl, row.task.solutionFile)
    ensures r.fileUrl.None? <==> !HasFile(row.task.file)
    ensures r.solutionFileUrl.None? <==> !HasFile(row.task.solutionFile)
  {
    TaskOut(row.id, row.task.title, row.task.description, row.task.topicId,
            FileUrl(mediaUrl, row.task.file), FileUrl(mediaUrl, row.task.solutionFile),
            row.task.createdAt)
  }

  /** `get_topics`: every topic. */
  function GetTopics(auth: Option<Identity>, topics: map<int, Topic>): (r: Result<map<int, Topic>, LabError>)
    ensures r.Err? <==> auth.None?
    ensures r.Err? ==> r.error == Unauthenticated
    ensures r.Ok? ==> r.value == topics
  {
    if auth.None? then Err(Unauthenticated) else Ok(topics)
  }

  /** The text filter of `search_tasks`: `q` in the title or in the description. */
  predicate MatchesText(t: LabTask, q: string)
  {
    IContains(t.title, q) || IContains(t.description, q)
  }

  function FilterText(tasks: map<int, LabTask>, q: string): map<int, LabTask>
  {
    map id | id in tasks && MatchesText(tasks[id], q) :: tasks[id]
  }

  function FilterTopic(tasks: map<int, LabTask>, topicId: int): map<int, LabTask>
  {
    map id | id in tasks && tasks[id].topicId == topicId :: tasks[id]
  }

  /** Python truthiness of the two optional query parameters. */
  predicate Given(q: Option<string>) { q.Some? && q.value != "" }
  predicate GivenId(topicId: Option<int>) { topicId.Some? && topicId.value != 0 }

  /** The chained filters of `search_tasks`. */
  function Search(tasks: map<int, LabTask>, q: Option<string>, topicId: Option<int>): (r: map<int, LabTask>)
    ensures forall id :: id in r ==> id in tasks && r[id] == tasks[id]
  {
    var byText := if Given(q) then FilterText(tasks, q.value) else tasks;
    if GivenId(topicId) then FilterTopic(byText, topicId.value) else byText
  }

  /** With neither filter (absent or falsy), the search returns the whole table. */
  lemma SearchWithoutFilters(tasks: map<int, LabTask>, q: Option<string>, topicId: Option<int>)
    requires !Given(q) && !GivenId(topicId)
    ensures Search(tasks, q, topicId) == tasks
  {
  }

  /** A task is found exactly when it matches both given filters: the query
      occurs, ignoring case, in its title or its description, and its topic
      is the requested one. */
  lemma SearchFinds(tasks: map<int, LabTask>, q: Option<string>, topicId: Option<int>, id: int)
    ensures id in Search(tasks, q, topicId) <==>
            && id in tasks
            && (Given(q) ==> OccursIgnoringCase(q.value, tasks[id].title)
                             || OccursIgnoringCase(q.value, tasks[id].description))
            && (GivenId(topicId) ==> tasks[id].topicId == topicId.value)
  {
    if id in tasks && Given(q) {
      IContainsIsOccurrenceIgnoringCase(tasks[id].title, q.value);
      IContainsIsOccurrenceIgnoringCase(tasks[id].description, q.value);
    }
  }

  /** `search_tasks`. */
  function SearchTasks(auth: Option<Identity>, tasks: map<int, LabTask>, q: Option<string>, topicId: Option<int>)
    : (r: Result<map<int, LabTask>, LabError>)
    ensures r.Err? <==> auth.None?
    ensures r.Err? ==> r.error == Unauthenticated
    ensures r.Ok? ==> r.value == Search(tasks, q, topicId)
    ensures r.Ok? ==> forall id :: id in r.value ==> id in tasks && r.value[id] == tasks[id]
    ensures r.Ok? && !Given(q) && !GivenId(topicId) ==> r.value == tasks
  {
    if auth.None? then Err(Unauthenticated) else Ok(Search(tasks, q, topicId))
  }

  /** `get_task`. */
  function GetTask(auth: Option<Identity>, tasks: map<int, LabTask>, taskId: int): (r: Result<Row, LabError>)
    ensures auth.None? ==> r == Err(Unauthenticated)
    ensures auth.Some? && taskId !in tasks ==> r == Err(TaskNotFound)
    ensures r.Ok? ==> taskId in tasks && r.value == Row(taskId, tasks[taskId])
    ensures auth.Some? && taskId in tasks ==> r.Ok?
  {
    if auth.None? then Err(Unauthenticated)
    else if taskId !in tasks then Err(TaskNotFound)
    else Ok(Row(taskId, tasks[taskId]))
  }

  /** The common part of both download routes: the file's name after its last
      `/`, or `missing` when the field is empty. */
  function Download(f: Option<string>, missing: LabError): (r: Result<Attachment, LabError>)
    ensures r.Err? <==> !HasFile(f)
    ensures r.Err? ==> r.error == missing
    ensures r.Ok? ==> r.value.contentType == "application/octet-stream"
    ensures r.Ok? ==> '/' !in r.value.fileName
    ensures r.Ok? ==> var n, m := |f.value|, |r.value.fileName|;
                      m <= n && f.value[n - m..] == r.value.fileName && (m == n || f.value[n - m - 1] == '/')
  {
    if HasFile(f) then Ok(Attachment("application/octet-stream", LastSegment(f.value)))
    else Err(missing)
  }

  /** `download_file`. */
  function DownloadFile(auth: Option<Identity>, tasks: map<int, LabTask>, taskId: int)
    : (r: Result<Attachment, LabError>)
    ensures auth.None? ==> r == Err(Unauthenticated)
    ensures auth.Some? && taskId !in tasks ==> r == Err(TaskNotFound)
    ensures auth.Some? && taskId in tasks ==> r == Download(tasks[taskId].file, FileNotFound)
    ensures auth.Some? && taskId in tasks && !HasFile(tasks[taskId].file) ==> r == Err(FileNotFound)
    ensures r.Ok? ==> taskId in tasks && HasFile(tasks[taskId].file)
                      && r.value.fileName == LastSegment(tasks[taskId].file.value)
  {
    if auth.None? then Err(Unauthenticated)
    else if taskId !in tasks then Err(TaskNotFound)
    else Download(tasks[taskId].file, FileNotFound)
  }

  /** `download_solution`. */
  function DownloadSolution(auth: Option<Identity>, tasks: map<int, LabTask>, taskId: int)
    : (r: Result<Attachment, LabError>)
    ensures auth.None? ==> r == Err(Unauthenticated)
    ensures auth.Some? && taskId !in tasks ==> r == Err(TaskNotFound)
    ensures auth.Some? && taskId in tasks ==> r == Download(tasks[taskId].solutionFile, SolutionFileNotFound)
    ensures auth.Some? && taskId in tasks && !HasFile(tasks[taskId].solutionFile) ==> r == Err(SolutionFileNotFound)
    ensures r.Ok? ==> taskId in tasks && HasFile(tasks[taskId].solutionFile)
                      && r.value.fileName == LastSegment(tasks[taskId].solutionFile.value)
  {
    if auth.None? then Err(Unauthenticated)
    else if taskId !in tasks then Err(TaskNotFound)
    else Download(tasks[taskId].solutionFile, SolutionFileNotFound)
  }

  /** `create_task`: after the admin gate, looks the topic up and inserts one
      new task with no files and the current time as its creation time. */
  method CreateTask(db: LabDatabase, auth: Option<Identity>, payload: TaskPayload, now: int)
    returns (r: Result<Row, LabError>)
    requires db.Valid()
    modifies db
    ensures db.Valid()
    ensures db.topics == old(db.topics) && db.nextTopicId == old(db.nextTopicId)
    ensures RequireAdmin(auth).Some? ==> r == Err(RequireAdmin(auth).value)
    ensures RequireAdmin(auth).None? && payload.topicId !in db.topics ==> r == Err(TopicNotFound)
    ensures RequireAdmin(auth).None? && payload.topicId in db.topics ==> r.Ok?
    ensures r.Err? ==> db.tasks == old(db.tasks) && db.nextTaskId == old(db.nextTaskId)
    ensures r.Ok? ==>
              && RequireAdmin(auth).None? && payload.topicId in db.topics
              && r.value.id == old(db.nextTaskId) && r.value.id !in old(db.tasks)
              && r.value.task == LabTask(payload.title, payload.description, payload.topicId, None, None, now)
              && db.tasks == old(db.tasks)[r.value.id := r.value.task]
              && db.nextTaskId == old(db.nextTaskId) + 1
  {
    var denied := RequireAdmin(auth);
    if denied.Some? {
      return Err(denied.value);
    }
    if payload.topicId !in db.topics {
      return Err(TopicNotFound);
    }
    var task := LabTask(payload.title, payload.description, payload.topicId, None, None, now);
    var id := db.nextTaskId;
    db.tasks := db.tasks[id := task];
    db.nextTaskId := db.nextTaskId + 1;
    r := Ok(Row(id, task));
  }

  /** `update_task`: after the admin gate, sets title, description and topic
      of an existing task and saves it; the id, the files and the creation
      time stay as they were. */
  method UpdateTask(db: LabDatabase, auth: Option<Identity>, taskId: int, payload: TaskPayload)
    returns (r: Result<Row, LabError>)
    requires db.Valid()
    modifies db
    ensures db.Valid()
    ensures db.topics == old(db.topics)
    ensures db.nextTopicId == old(db.nextTopicId) && db.nextTaskId == old(db.nextTaskId)
    ensures RequireAdmin(auth).Some? ==> r == Err(RequireAdmin(auth).value)
    ensures RequireAdmin(auth).None? && taskId !in old(db.tasks) ==> r == Err(TaskNotFound)
    ensures RequireAdmin(auth).None? && taskId in old(db.tasks) && payload.topicId !in db.topics
            ==> r == Err(TopicNotFound)
    ensures RequireAdmin(auth).None? && taskId in old(db.tasks) && payload.topicId in db.topics ==> r.Ok?
    ensures r.Err? ==> db.tasks == old(db.tasks)
    ensures r.Ok? ==>
              && RequireAdmin(auth).None? && taskId in old(db.tasks) && payload.topicId in db.topics
              && r.value.id == taskId
              && r.value.task == old(db.tasks)[taskId].(title := payload.title,
                                                        description := payload.description,
                                                        topicId := payload.topicId)
              && db.tasks == old(db.tasks)[taskId := r.value.task]
  {
    var denied := RequireAdmin(auth);
    if denied.Some? {
      return Err(denied.value);
    }
    if taskId !in db.tasks {
      return Err(TaskNotFound);
    }
    var task := db.tasks[taskId];
    task := task.(title := payload.title, description := payload.description);
    if payload.topicId !in db.topics {
      return Err(TopicNotFound);
    }
    task := task.(topicId := payload.topicId);
    db.tasks := db.tasks[taskId := task];
    r := Ok(Row(taskId, task));
  }

  /** `delete_task`: after the admin gate, removes the task with that id if
      there is one, and reports success either way. */
  method DeleteTask(db: LabDatabase, auth: Option<Identity>, taskId: int)
    returns (r: Result<(), LabError>)
    requires db.Valid()
    modifies db
    ensures db.Valid()
    ensures db.topics == old(db.topics)
    ensures db.nextTopicId == old(db.nextTopicId) && db.nextTaskId == old(db.nextTaskId)
    ensures r.Ok? <==> RequireAdmin(auth).None?
    ensures r.Err? ==> r.error == RequireAdmin(auth).value && db.tasks == old(db.tasks)
    ensures r.Ok? ==> db.tasks == old(db.tasks) - {taskId}
    ensures r.Ok? ==> GetTask(auth, db.tasks, taskId) == Err(TaskNotFound)
  {
    var denied := RequireAdmin(auth);
    if denied.Some? {
      return Err(denied.value);
    }
    db.tasks := db.tasks - {taskId};
    r := Ok(());
  }
}
