/** The task router (src/routes/task.ts): for each route, the ordered list of
    middlewares Express runs. Each stage either calls `next` or sends a
    response and stops the chain; a controller never calls `next`. */
module TaskRoutes {
  import opened Common
  import opened Models
  import opened Library
  import opened Http
  import A = Auth
  import R = Rbac
  import L = RateLimit
  import C = Cache
  import TC = TaskController
  import opened TaskQuery

  datatype Op = Create | List | Assign | Update | Delete

  datatype Stage =
    | Authentication
    | SensitiveLimit
    | RoleLimit
    | CreationValidation
    | RoleGate(roles: seq<Role>)
    | CacheLookup
    | Controller(op: Op)
    | CacheInvalidation

  datatype Route = Route(verb: string, path: string, stages: seq<Stage>)

  const ASSIGNERS: seq<Role> := [Admin, Manager]

  /** `router.use(auth)` puts `Authentication` in front of every route. */
  const CREATE_ROUTE: Route := Route("POST", "/", [Authentication, SensitiveLimit, CreationValidation, Controller(Create), CacheInvalidation])
  const LIST_ROUTE: Route := Route("GET", "/", [Authentication, RoleLimit, CacheLookup, Controller(List)])
  const ASSIGN_ROUTE: Route := Route("PUT", "/:taskId/assign", [Authentication, SensitiveLimit, RoleGate(ASSIGNERS), Controller(Assign), CacheInvalidation])
  const UPDATE_ROUTE: Route := Route("PUT", "/:id", [Authentication, SensitiveLimit, Controller(Update), CacheInvalidation])
  const DELETE_ROUTE: Route := Route("DELETE", "/:id", [Authentication, SensitiveLimit, Controller(Delete), CacheInvalidation])

  const ROUTES: seq<Route> := [CREATE_ROUTE, LIST_ROUTE, ASSIGN_ROUTE, UPDATE_ROUTE, DELETE_ROUTE]

  /** What the stages read of the world: the request, the library, whether
      a limiter still admits the caller (express-rate-limit keeps the
      counts), the Redis entries, and what each controller sends. */
  datatype Env = Env(
    header: Option<string>,
    request: Request,
    now: int,
    lib: Primitives,
    admits: L.Limiter -> bool,
    entries: map<string, C.Entry>,
    reachable: bool,
    respond: (Op, Option<Claims>) -> Response)

  datatype Step = Next(user: Option<Claims>) | Stop(response: Response)

  /** A limiter over its count answers 429 with its message. */
  function Limit(l: L.Limiter, user: Option<Claims>, env: Env): (s: Step)
    ensures s.Stop? <==> !env.admits(l)
    ensures s.Stop? ==> s.response == Response(429, Plain(l.message))
    ensures s.Next? ==> s.user == user
  {
    if env.admits(l) then Next(user) else Stop(Response(429, Plain(l.message)))
  }

  /** One middleware, given `req.user` as the earlier stages left it. */
  function Run(stage: Stage, user: Option<Claims>, env: Env): (s: Step)
    ensures stage.Controller? ==> s == Stop(env.respond(stage.op, user))
    ensures stage == CacheInvalidation || stage == CreationValidation ==> s == Next(user)
    ensures stage != Authentication && s.Next? ==> s.user == user
  {
    match stage
    case Authentication =>
      (match A.Authenticate(env.header, env.lib)
       case Reject(r) => Stop(r)
       case Accept(c) => Next(Some(c)))
    case SensitiveLimit => Limit(L.SENSITIVE_LIMITER, user, env)
    case RoleLimit => Limit(L.SelectLimiter(user), user, env)
    case CreationValidation => Next(user)
    case RoleGate(roles) =>
      (match R.Authorize(roles, user)
       case Proceed => Next(user)
       case Halt(r) => Stop(r))
    case CacheLookup =>
      (match C.Decide(env.entries, env.reachable, env.request, env.now)
       case Hit(body) => Stop(Response(200, body))
       case _ => Next(user))
    case Controller(op) => Stop(env.respond(op, user))
    case CacheInvalidation => Next(user)
  }

  /** The stages that ran, the response sent (if any), and `req.user` at the end. */
  datatype Trace = Trace(ran: seq<Stage>, response: Option<Response>, user: Option<Claims>)

  /** Express running a chain: each stage in turn until one sends. */
  function Execute(stages: seq<Stage>, user: Option<Claims>, env: Env): (t: Trace)
    decreases |stages|
    ensures |t.ran| <= |stages| && t.ran == stages[..|t.ran|]
    ensures t.response.None? ==> t.ran == stages && (forall k :: 0 <= k < |stages| ==> !stages[k].Controller?)
    ensures |stages| > 0 ==> 0 < |t.ran|
  {
    if |stages| == 0 then Trace([], None, user)
    else match Run(stages[0], user, env)
      case Stop(r) => Trace([stages[0]], Some(r), user)
      case Next(u) =>
        var rest := Execute(stages[1..], u, env);
        assert forall k :: 1 <= k < |stages| ==> stages[k] == stages[1..][k - 1];
        Trace([stages[0]] + rest.ran, rest.response, rest.user)
  }

  /** Once a controller is reached the chain ends there: nothing listed
      after it runs, and a response has been sent. */
  lemma {:induction false} NothingRunsAfterController(stages: seq<Stage>, user: Option<Claims>, env: Env, h: nat)
    requires h < |stages| && stages[h].Controller?
    ensures |Execute(stages, user, env).ran| <= h + 1
    ensures Execute(stages, user, env).response.Some?
    decreases h
  {
    if h > 0 {
      match Run(stages[0], user, env)
      case Stop(_) =>
      case Next(u) => NothingRunsAfterController(stages[1..], u, env, h - 1);
    }
  }

  /** A stage that does not occur up to the controller never runs. */
  lemma {:induction false} NeverReached(stages: seq<Stage>, user: Option<Claims>, env: Env, h: nat, s: Stage)
    requires h < |stages| && stages[h].Controller? && s !in stages[..h + 1]
    ensures s !in Execute(stages, user, env).ran
  {
    NothingRunsAfterController(stages, user, env, h);
    var t := Execute(stages, user, env);
    assert t.ran == stages[..h + 1][..|t.ran|];
  }

  /** Every controller is listed after the stages in front of it, so
      `invalidateTasksCache` is never reached on any task route. */
  lemma {:induction false} InvalidationNeverRuns(r: Route, user: Option<Claims>, env: Env)
    requires r in ROUTES
    ensures CacheInvalidation in r.stages <==> r.verb != "GET"
    ensures CacheInvalidation !in Execute(r.stages, user, env).ran
  {
    var h := if r == LIST_ROUTE then 3 else |r.stages| - 2;
    assert r.stages[h].Controller?;
    assert r.stages[..h + 1] == r.stages[..|r.stages| - 1] || r == LIST_ROUTE;
    NeverReached(r.stages, user, env, h, CacheInvalidation);
  }

  /** `auth` runs first on every route; a request it refuses gets its 401
      and no other stage runs. */
  lemma {:induction false} AuthenticationFirst(r: Route, env: Env)
    requires r in ROUTES
    ensures r.stages[0] == Authentication
    ensures Execute(r.stages, None, env).ran[0] == Authentication
    ensures A.Authenticate(env.header, env.lib).Reject? ==>
              Execute(r.stages, None, env) == Trace([Authentication], Some(A.Authenticate(env.header, env.lib).response), None)
  {
    var t := Execute(r.stages, None, env);
    assert t.ran == r.stages[..|t.ran|] && 0 < |t.ran|;
    assert t.ran[0] == r.stages[0];
  }

  /** A mutating route past `auth` meets the sensitive limiter before
      anything else; over its count the caller gets 429 and no controller runs. */
  lemma {:induction false} SensitiveLimitGuardsMutations(r: Route, env: Env, c: Claims)
    requires r in ROUTES && r.verb != "GET"
    requires A.Authenticate(env.header, env.lib) == A.Accept(c) && !env.admits(L.SENSITIVE_LIMITER)
    ensures r.stages[1] == SensitiveLimit
    ensures Execute(r.stages, None, env)
            == Trace([Authentication, SensitiveLimit], Some(Response(429, Plain(L.SENSITIVE_MESSAGE))), Some(c))
  {
    assert Run(r.stages[0], None, env) == Next(Some(c));
    assert r.stages[1..][0] == SensitiveLimit;
    assert Execute(r.stages[1..], Some(c), env) == Trace([SensitiveLimit], Some(Response(429, Plain(L.SENSITIVE_MESSAGE))), Some(c));
  }

  /** A User who passes the limiter is refused assignment with 403 before
      any task is looked up; an Admin or Manager reaches `assignTask`. */
  lemma {:induction false} OnlyAssignersAssign(env: Env, c: Claims)
    requires A.Authenticate(env.header, env.lib) == A.Accept(c) && env.admits(L.SENSITIVE_LIMITER)
    ensures c.role == User ==>
              Execute(ASSIGN_ROUTE.stages, None, env)
              == Trace([Authentication, SensitiveLimit, RoleGate(ASSIGNERS)], Some(Response(403, Msg(R.ACCESS_DENIED))), Some(c))
    ensures c.role != User ==>
              Execute(ASSIGN_ROUTE.stages, None, env)
              == Trace(ASSIGN_ROUTE.stages[..4], Some(env.respond(Assign, Some(c))), Some(c))
  {
    var st := ASSIGN_ROUTE.stages;
    assert Run(st[0], None, env) == Next(Some(c));
    assert Run(st[1], Some(c), env) == Next(Some(c));
    assert st[1..][1..] == [RoleGate(ASSIGNERS), Controller(Assign), CacheInvalidation];
    if c.role == User {
      assert Execute(st[1..][1..], Some(c), env)
             == Trace([RoleGate(ASSIGNERS)], Some(Response(403, Msg(R.ACCESS_DENIED))), Some(c));
    } else {
      assert Run(st[2], Some(c), env) == Next(Some(c));
      assert st[1..][1..][1..] == [Controller(Assign), CacheInvalidation];
      var resp := Some(env.respond(Assign, Some(c)));
      assert Execute(st[1..][1..][1..], Some(c), env) == Trace([Controller(Assign)], resp, Some(c));
      assert Execute(st[1..][1..], Some(c), env) == Trace([RoleGate(ASSIGNERS), Controller(Assign)], resp, Some(c));
      assert Execute(st[1..], Some(c), env)
             == Trace([SensitiveLimit, RoleGate(ASSIGNERS), Controller(Assign)], resp, Some(c));
      assert st[..4] == [Authentication, SensitiveLimit, RoleGate(ASSIGNERS), Controller(Assign)];
    }
  }

  /** On the list route a live cache entry is sent with status 200 and
      `getTasks` does not run; otherwise `getTasks` answers. */
  lemma {:induction false} CacheHitSkipsController(env: Env, c: Claims)
    requires A.Authenticate(env.header, env.lib) == A.Accept(c) && env.admits(L.SelectLimiter(Some(c)))
    ensures var d := C.Decide(env.entries, env.reachable, env.request, env.now);
            Execute(LIST_ROUTE.stages, None, env)
            == if d.Hit? then Trace([Authentication, RoleLimit, CacheLookup], Some(Response(200, d.body)), Some(c))
               else Trace(LIST_ROUTE.stages, Some(env.respond(List, Some(c))), Some(c))
  {
    var st := LIST_ROUTE.stages;
    var d := C.Decide(env.entries, env.reachable, env.request, env.now);
    assert Run(st[0], None, env) == Next(Some(c));
    assert Run(st[1], Some(c), env) == Next(Some(c));
    assert st[1..][1..] == [CacheLookup, Controller(List)];
    if d.Hit? {
      assert Execute(st[1..][1..], Some(c), env) == Trace([CacheLookup], Some(Response(200, d.body)), Some(c));
    } else {
      assert st[1..][1..][1..] == [Controller(List)];
      assert Execute(st[1..][1..][1..], Some(c), env) == Trace([Controller(List)], Some(env.respond(List, Some(c))), Some(c));
    }
  }

  /** `createTask` runs only after `taskCreationValidation` has. */
  lemma {:induction false} CreationValidatedFirst(user: Option<Claims>, env: Env)
    ensures Controller(Create) in Execute(CREATE_ROUTE.stages, user, env).ran ==>
              CreationValidation in Execute(CREATE_ROUTE.stages, user, env).ran
  {
    var st := CREATE_ROUTE.stages;
    var t := Execute(st, user, env);
    if Controller(Create) in t.ran {
      var k :| 0 <= k < |t.ran| && t.ran[k] == Controller(Create);
      assert st[k] == Controller(Create);
      assert k == 3;
      assert t.ran[2] == CreationValidation;
    }
  }

  /** The list route past `auth` and the limiter: `cacheMiddleware` in front
      of `getTasks`. A hit is sent without running the controller; on a
      miss the controller's response, whatever its status, is stored under
      the URL for 300 seconds; when Redis fails nothing is stored. */
  method ServeTaskList(cache: C.ResponseCache, service: TC.TaskService, caller: Claims, req: Request,
                       p: TC.ListParams, now: int, lib: Primitives) returns (res: Response)
    requires service.Valid() && req.verb == "GET"
    modifies cache
    ensures cache.reachable == old(cache.reachable)
    ensures var d := C.Decide(old(cache.entries), cache.reachable, req, now);
            && (d.Hit? ==> res == Response(200, d.body) && cache.entries == old(cache.entries))
            && (d.Miss? ==> cache.entries == old(cache.entries)[d.key := C.Entry(res.body, now + C.TTL_SECONDS)])
            && (d.Unavailable? ==> cache.entries == old(cache.entries))
            && (!d.Hit? && !TC.ListCasts(p, lib) ==> res == Response(500, Plain(TC.LIST_FAILED)))
            && (!d.Hit? && TC.ListCasts(p, lib) ==>
                  res.status == 200 && res.body.TaskList?
                  && IdsOf(res.body.items) == TC.ListedIds(service.docs, caller, p, lib))
  {
    var d := cache.Lookup(req, now);
    if d.Hit? {
      return Response(200, d.body);
    }
    res := service.GetTasks(caller, p, lib);
    if d.Miss? {
      cache.SetEx(d.key, res.body, now);
    }
  }
}
