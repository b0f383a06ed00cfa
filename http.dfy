/** Requests and responses as the handlers see them. */
module Http {
  import opened Common
  import opened Models

  /** One entry of express-validator's `errors.array()`: the field and its message. */
  datatype FieldError = FieldError(path: string, msg: string)

  /** Response bodies: `{msg}`, `{errors}`, a plain-text `send`, a task,
      a task list, `{token}`, a user object, and `{msg, user}`. */
  datatype Body =
    | Msg(msg: string)
    | Errors(errors: seq<FieldError>)
    | Plain(text: string)
    | TaskJson(id: Id, task: Task)
    | TaskList(items: seq<(Id, Task)>)
    | TokenJson(token: string)
    | UserJson(user: map<string, Field>)
    | RoleUpdated(msg: string, user: map<string, Field>)

  datatype Response = Response(status: int, body: Body)

  /** What the cache middleware reads of a request. `user` is `req.user`. */
  datatype Request = Request(verb: string, originalUrl: string, user: Option<Claims>)
}
