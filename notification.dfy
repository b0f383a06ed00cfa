/** The notification service (src/services/notificationService.ts): from a
    `sendNotification(type, task, recipientId)` call to the HTTP POST it
    would issue. The POST itself is I/O and is not modelled; its failures are
    caught inside the service, so nothing here flows back to a handler. */
module Notification {
  import opened Common
  import opened Models

  /** The four notification types; the service accepts no other. */
  datatype Kind = TaskCreated | TaskAssigned | TaskStatusUpdate | TaskDeleted

  function KindName(k: Kind): string {
    match k
    case TaskCreated => "TASK_CREATED"
    case TaskAssigned => "TASK_ASSIGNED"
    case TaskStatusUpdate => "TASK_STATUS_UPDATE"
    case TaskDeleted => "TASK_DELETED"
  }

  /** Reads a type name back; only the four names are accepted. */
  function ParseKind(s: string): (r: Option<Kind>)
    ensures r.Some? ==> KindName(r.value) == s
    ensures r.None? ==> forall k: Kind :: KindName(k) != s
  {
    if s == "TASK_CREATED" then Some(TaskCreated)
    else if s == "TASK_ASSIGNED" then Some(TaskAssigned)
    else if s == "TASK_STATUS_UPDATE" then Some(TaskStatusUpdate)
    else if s == "TASK_DELETED" then Some(TaskDeleted)
    else None
  }

  /** What the service reads of its `task` argument: `_id` and `title`.
      The delete handler passes an object without a title. */
  datatype TaskRef = TaskRef(id: Id, title: Option<string>)

  /** One `sendNotification(kind, task, recipient)` call made by a handler. */
  datatype Dispatch = Dispatch(kind: Kind, task: TaskRef, recipient: Id)

  /** NOTIFICATION_SERVICE_URL and NOTIFICATION_API_KEY. */
  datatype Config = Config(url: Option<string>, apiKey: Option<string>)

  datatype Data = Data(subject: string, message: string, taskId: string)
  /** The JSON body of the POST: `{to, type, data: {subject, message, taskId}}`. */
  datatype PostBody = PostBody(to: Id, kind: string, data: Data)
  /** The POST: target URL, the `X-API-Key` header and the body. */
  datatype Post = Post(url: string, apiKey: string, body: PostBody)

  /** Both settings present and non-empty. */
  predicate Configured(c: Config) {
    Filled(c.url) && Filled(c.apiKey)
  }

  const SUBJECT_PREFIX: string := "Task update: "

  function Subject(k: Kind): (s: string)
    ensures HasPrefix(s, SUBJECT_PREFIX) && s[|SUBJECT_PREFIX|..] == KindName(k)
  {
    SUBJECT_PREFIX + KindName(k)
  }

  /** How a template literal renders an optional value. */
  function Shown(s: Option<string>): string {
    if s.Some? then s.value else "undefined"
  }

  /** `Task <title> (<id>) was <type in lower case>`. */
  function Message(k: Kind, t: TaskRef): (m: string)
    ensures var head := "Task " + Shown(t.title) + " (" + t.id + ") was ";
            HasPrefix(m, head) && m[|head|..] == Lower(KindName(k))
    ensures t.title.Some? ==> HasPrefix(m, "Task " + t.title.value + " (")
    ensures t.title.None? ==> HasPrefix(m, "Task undefined (")
  {
    "Task " + Shown(t.title) + " (" + t.id + ") was " + Lower(KindName(k))
  }

  /** The POST a call leads to, or None when the service is not configured
      and returns without sending. */
  function Send(c: Config, d: Dispatch): (r: Option<Post>)
    ensures r.None? <==> !Configured(c)
    ensures r.Some? ==> r.value.url == c.url.value && r.value.apiKey == c.apiKey.value
    ensures r.Some? ==> r.value.body.to == d.recipient && r.value.body.kind == KindName(d.kind)
    ensures r.Some? ==> r.value.body.data.taskId == d.task.id
    ensures r.Some? ==> r.value.body.data.subject == Subject(d.kind)
    ensures r.Some? ==> r.value.body.data.message == Message(d.kind, d.task)
  {
    if !Configured(c) then None
    else Some(Post(c.url.value, c.apiKey.value,
                   PostBody(d.recipient, KindName(d.kind),
                            Data(Subject(d.kind), Message(d.kind, d.task), d.task.id))))
  }

  /** The subject names the type: a receiver can read the type back from it. */
  lemma SubjectDeterminesKind(k1: Kind, k2: Kind)
    ensures Subject(k1) == Subject(k2) ==> k1 == k2
    ensures ParseKind(Subject(k1)[|SUBJECT_PREFIX|..]) == Some(k1)
  {
    if Subject(k1) == Subject(k2) {
      assert KindName(k1) == Subject(k1)[|SUBJECT_PREFIX|..] == KindName(k2);
    }
  }

  /** The lower-cased type names that end each message. */
  lemma LowerCasedNames()
    ensures Lower(KindName(TaskCreated)) == "task_created"
    ensures Lower(KindName(TaskAssigned)) == "task_assigned"
    ensures Lower(KindName(TaskStatusUpdate)) == "task_status_update"
    ensures Lower(KindName(TaskDeleted)) == "task_deleted"
  {
  }

  /** A message names its type: two calls about the same task give the same
      text only when their types agree. */
  lemma MessageDeterminesKind(k1: Kind, k2: Kind, t: TaskRef)
    ensures Message(k1, t) == Message(k2, t) ==> k1 == k2
  {
    var head := "Task " + Shown(t.title) + " (" + t.id + ") was ";
    if Message(k1, t) == Message(k2, t) {
      assert Lower(KindName(k1)) == Message(k1, t)[|head|..] == Lower(KindName(k2));
      LowerCasedNames();
    }
  }

  /** The delete handler's minimal object has no title, so its message reads
      "Task undefined (<id>) was task_deleted". */
  lemma DeletedMessage(id: Id)
    ensures Message(TaskDeleted, TaskRef(id, None)) == "Task undefined (" + id + ") was task_deleted"
  {
    LowerCasedNames();
  }
}
