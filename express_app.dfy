/**
  The application of src/express.ts. `CreateApp` registers, in this order, the
  JSON body parser, `GET /health`, `GET /sum/:i/:j` (handled by getSum), a
  catch-all that answers 404, and an error handler that answers 500. A request
  is served by walking that stack: the first route whose method and path match
  runs its handler; a handler that throws sends the request on to the error
  handler, skipping ordinary middleware; the catch-all answers every request
  that no route took.
 */
module ExpressApp {
  import opened Http
  import opened RoutePaths
  import AdderController
  import AdderService

  /** The parts of a request the application looks at: `verb` is `req.method`,
      `url` is `req.originalUrl`. */
  datatype Request = Request(verb: string, url: string)

  /** The two route handlers: the inline health check and the controller's getSum. */
  datatype Handler = HealthCheck | SumController

  datatype Middleware = JsonBodyParser | NotFoundFallback | ErrorHandler

  /** An entry of the application's handler stack. */
  datatype Layer =
    | UseLayer(middleware: Middleware)
    | Route(verb: string, path: string, pattern: seq<Segment>, handler: Handler)

  /** What a route handler does: answer, or throw. */
  datatype HandlerResult = Responded(reply: Reply) | HandlerThrew

  /** What the model does not compute itself: the clock reading of the health
      handler, and the handler bound to `/sum/:i/:j` (the controller, or a
      stand-in for it), given the route parameters. */
  datatype Env = Env(timestamp: string, getSum: map<string, string> -> HandlerResult)

  /** One call of a route handler, with the parameters it received. */
  datatype Invocation = Invocation(handler: Handler, params: map<string, string>)

  /** The reply (None if the request fell off the end of the stack) and the
      route handlers called, in order. */
  datatype Served = Served(reply: Option<Reply>, invoked: seq<Invocation>)

  /** The application object: its handler stack, to which `app.use` and
      `app.get` append. A route's path is compiled when it is registered. */
  class App {
    var stack: seq<Layer>

    constructor ()
      ensures stack == []
    {
      stack := [];
    }

    method Use(m: Middleware)
      modifies this
      ensures stack == old(stack) + [UseLayer(m)]
    {
      stack := stack + [UseLayer(m)];
    }

    method Get(path: string, h: Handler)
      modifies this
      ensures stack == old(stack) + [Route("GET", path, Compile(path), h)]
    {
      stack := stack + [Route("GET", path, Compile(path), h)];
    }
  }

  const HealthRoutePath: string := "/health"
  const SumRoutePath: string := "/sum/:i/:j"
  const HealthPattern: seq<Segment> := [Literal("health")]
  const SumPattern: seq<Segment> := [Literal("sum"), Parameter("i"), Parameter("j")]

  /** The stack createApp builds. */
  const AppLayers: seq<Layer> := [
    UseLayer(JsonBodyParser),
    Route("GET", HealthRoutePath, HealthPattern, HealthCheck),
    Route("GET", SumRoutePath, SumPattern, SumController),
    UseLayer(NotFoundFallback),
    UseLayer(ErrorHandler)
  ]

  /** createApp: a new application with its five layers registered in order. */
  method CreateApp() returns (app: App)
    ensures fresh(app)
    ensures app.stack == AppLayers
  {
    app := new App();
    app.Use(JsonBodyParser);
    AddRoutes(app);
    app.Use(NotFoundFallback);
    app.Use(ErrorHandler);
  }

  /** The two `app.get` calls of createApp. */
  method AddRoutes(app: App)
    modifies app
    ensures app.stack == old(app.stack) + [AppLayers[1], AppLayers[2]]
  {
    HealthPathCompiles();
    SumPathCompiles();
    app.Get(HealthRoutePath, HealthCheck);
    app.Get(SumRoutePath, SumController);
  }

  function HealthBody(timestamp: string): Json {
    JObject([("status", JString("healthy")), ("timestamp", JString(timestamp))])
  }

  function NotFoundMessage(req: Request): string {
    "Route " + req.verb + " " + req.url + " not found"
  }

  function NotFoundBody(req: Request): Json {
    JObject([("error", JString("Not Found")), ("message", JString(NotFoundMessage(req)))])
  }

  const InternalErrorBody: Json :=
    JObject([("error", JString("Internal Server Error")), ("message", JString("An unexpected error occurred"))])

  function Invoke(h: Handler, params: map<string, string>, env: Env): HandlerResult {
    match h
    case HealthCheck => Responded(Reply(200, HealthBody(env.timestamp)))
    case SumController => env.getSum(params)
  }

  /** Whether a route registered for `routeVerb` takes a request with method
      `verb`: the same method, or HEAD on a GET route (Express answers HEAD with
      the GET route when no HEAD route is registered). */
  predicate Handles(routeVerb: string, verb: string) {
    verb == routeVerb || (routeVerb == "GET" && verb == "HEAD")
  }

  /** The rest of the stack at work on the request; `failed` says a handler has thrown. */
  function Run(stack: seq<Layer>, req: Request, env: Env, failed: bool): Served
    decreases |stack|
  {
    if |stack| == 0 then Served(None, [])
    else
      var rest := stack[1..];
      match stack[0]
      case UseLayer(JsonBodyParser) => Run(rest, req, env, failed)
      case UseLayer(NotFoundFallback) =>
        if failed then Run(rest, req, env, failed) else Served(Some(Reply(404, NotFoundBody(req))), [])
      case UseLayer(ErrorHandler) =>
        if failed then Served(Some(Reply(500, InternalErrorBody)), []) else Run(rest, req, env, failed)
      case Route(m, _, pattern, h) =>
        if failed || !Handles(m, req.verb) || RouteMatch(pattern, req.url).None? then Run(rest, req, env, failed)
        else
          var params := RouteMatch(pattern, req.url).value;
          match Invoke(h, params, env)
          case Responded(r) => Served(Some(r), [Invocation(h, params)])
          case HandlerThrew =>
            var after := Run(rest, req, env, true);
            Served(after.reply, [Invocation(h, params)] + after.invoked)
  }

  function Serve(stack: seq<Layer>, req: Request, env: Env): Served {
    Run(stack, req, env, false)
  }

  // ---------------------------------------------------------------------------
  // The two route paths

  /** Request segments the health route accepts: "health" in any ASCII case,
      with at most one trailing '/'. */
  predicate IsHealthPath(segs: seq<string>) {
    (|segs| == 1 || (|segs| == 2 && segs[1] == "")) && Lower(segs[0]) == "health"
  }

  /** Request segments the sum route accepts: "sum" and two non-empty segments,
      with at most one trailing '/'; "sum" in any ASCII case. */
  predicate IsSumPath(segs: seq<string>) {
    (|segs| == 3 || (|segs| == 4 && segs[3] == "")) && Lower(segs[0]) == "sum" && segs[1] != "" && segs[2] != ""
  }

  lemma HealthPathCompiles()
    ensures Compile(HealthRoutePath) == HealthPattern
  {
    var parts := ["", "health"];
    assert parts[1..] == ["health"];
    assert Join(parts) == "/health";
    SplitJoin(parts);
    var c := Compile("/health");
    assert |c| == 1 && c[0] == CompileSegment("health");
  }

  lemma SumPathJoins()
    ensures Join(["", "sum", ":i", ":j"]) == SumRoutePath
  {
    var parts := ["", "sum", ":i", ":j"];
    assert parts[1..] == ["sum", ":i", ":j"] && parts[1..][1..] == [":i", ":j"] && parts[1..][1..][1..] == [":j"];
    assert Join(parts[1..][1..]) == ":i/:j";
    assert Join(parts[1..]) == "sum/:i/:j";
  }

  lemma SumPathCompiles()
    ensures Compile(SumRoutePath) == SumPattern
  {
    SumPathJoins();
    SplitJoin(["", "sum", ":i", ":j"]);
    CompileSumParts(SumRoutePath);
  }

  lemma CompileSumParts(path: string)
    requires Split(path) == ["", "sum", ":i", ":j"]
    ensures Compile(path) == [Literal("sum"), Parameter("i"), Parameter("j")]
  {
    var c := Compile(path);
    var parts := Split(path);
    assert |c| == 3;
    assert c[0] == CompileSegment(parts[1]) && c[1] == CompileSegment(parts[2]) && c[2] == CompileSegment(parts[3]);
    var i, j := ":i", ":j";
    assert |i[1..]| == 1 && i[1..][0] == 'i';
    assert |j[1..]| == 1 && j[1..][0] == 'j';
    assert c[0] == Literal("sum");
    assert c[1] == Parameter("i");
    assert c[2] == Parameter("j");
  }

  /** The health route matches exactly the segment "health" in any ASCII case,
      with at most one trailing '/', capturing nothing. */
  lemma {:induction false} HealthRouteMatch(segs: seq<string>)
    ensures Match(HealthPattern, segs) == if IsHealthPath(segs) then Some(map[]) else None
  {
    HealthExactMatch(segs);
    if |segs| > 0 && segs[|segs| - 1] == "" {
      HealthExactMatch(segs[..|segs| - 1]);
      if |segs| == 2 {
        assert segs[..|segs| - 1][0] == segs[0];
      }
    }
  }

  lemma {:induction false} HealthExactMatch(segs: seq<string>)
    ensures MatchExact([Literal("health")], segs) == if |segs| == 1 && Lower(segs[0]) == "health" then Some(map[]) else None
  {
    var p := [Literal("health")];
    assert p[1..] == [];
    LowerHealth();
    if |segs| == 1 {
      assert segs[1..] == [];
    }
  }

  /** The sum route matches exactly the paths IsSumPath describes, capturing
      the two segments as `i` and `j`. */
  lemma {:induction false} SumRouteMatch(segs: seq<string>)
    ensures Match(SumPattern, segs) ==
            if IsSumPath(segs) then Some(map["i" := segs[1], "j" := segs[2]]) else None
  {
    SumExactMatch(segs);
    if |segs| > 0 && segs[|segs| - 1] == "" {
      SumExactMatch(segs[..|segs| - 1]);
    }
  }

  lemma {:induction false} SumExactMatch(segs: seq<string>)
    ensures MatchExact([Literal("sum"), Parameter("i"), Parameter("j")], segs) ==
            if |segs| == 3 && Lower(segs[0]) == "sum" && segs[1] != "" && segs[2] != ""
            then Some(map["i" := segs[1], "j" := segs[2]]) else None
  {
    var p := [Literal("sum"), Parameter("i"), Parameter("j")];
    LowerSum();
    if |segs| == 3 && Lower(segs[0]) == "sum" && segs[1] != "" && segs[2] != "" {
      var s2 := segs[1..][1..];
      assert p[1..] == [Parameter("i"), Parameter("j")] && p[1..][1..] == [Parameter("j")];
      assert s2 == [segs[2]] && s2[1..] == [] && p[1..][1..][1..] == [];
      assert MatchExact([], s2[1..]) == Some(map[]);
      assert map["j" := segs[2]] + map[] == map["j" := segs[2]];
      assert MatchExact(p[1..][1..], s2) == Some(map["j" := segs[2]]);
      assert map["i" := segs[1]] + map["j" := segs[2]] == map["i" := segs[1], "j" := segs[2]];
    } else if |segs| >= 1 && Lower(segs[0]) == "sum" && |segs| >= 2 && segs[1] != "" {
      assert p[1..] == [Parameter("i"), Parameter("j")] && p[1..][1..] == [Parameter("j")];
      assert MatchExact(p[1..][1..], segs[1..][1..]).None?;
    }
  }

  // ---------------------------------------------------------------------------
  // Serving requests with the application's stack

  /** The request is a GET or HEAD whose path (the URL before any '?') is
      "/health" in any ASCII case, with at most one trailing '/'. */
  predicate IsHealthRequest(req: Request) {
    Handles("GET", req.verb) && RequestSegments(req.url).Some? && IsHealthPath(RequestSegments(req.url).value)
  }

  /** The request is a GET or HEAD whose path (the URL before any '?') is
      "/sum/<i>/<j>", "sum" in any ASCII case, with two non-empty segments and at
      most one trailing '/'. */
  predicate IsSumRequest(req: Request) {
    Handles("GET", req.verb) && RequestSegments(req.url).Some? && IsSumPath(RequestSegments(req.url).value)
  }

  /** The route parameters of a sum request: the two segments after "sum". */
  function SumParams(req: Request): map<string, string>
    requires IsSumRequest(req)
  {
    var segs := RequestSegments(req.url).value;
    map["i" := segs[1], "j" := segs[2]]
  }

  /** What the application does with a request, written as a table rather than
      as a walk over the stack: health requests get the health body, sum
      requests go to getSum once (a throw there becomes the 500 body), and
      everything else gets the 404 body without any route handler running. */
  function RouteTable(req: Request, env: Env): Served {
    if IsHealthRequest(req) then
      Served(Some(Reply(200, HealthBody(env.timestamp))), [Invocation(HealthCheck, map[])])
    else if IsSumRequest(req) then
      var params := SumParams(req);
      match env.getSum(params)
      case Responded(r) => Served(Some(r), [Invocation(SumController, params)])
      case HandlerThrew => Served(Some(Reply(500, InternalErrorBody)), [Invocation(SumController, params)])
    else
      Served(Some(Reply(404, NotFoundBody(req))), [])
  }

  /** The last two layers: the catch-all answers 404 unless a handler threw,
      and then the error handler answers 500. */
  lemma FallbackLayers(req: Request, env: Env, failed: bool)
    ensures Run(AppLayers[3..], req, env, failed) ==
            if failed then Served(Some(Reply(500, InternalErrorBody)), [])
            else Served(Some(Reply(404, NotFoundBody(req))), [])
  {
    var tail := AppLayers[3..];
    assert tail == [UseLayer(NotFoundFallback), UseLayer(ErrorHandler)];
    assert tail[1..] == [UseLayer(ErrorHandler)];
    assert tail[1..][1..] == [];
  }

  lemma SumLayer(req: Request, env: Env)
    ensures Run(AppLayers[2..], req, env, false) ==
            if IsSumRequest(req) then RouteTable(req, env)
            else Served(Some(Reply(404, NotFoundBody(req))), [])
  {
    if IsSumRequest(req) {
      SumLayerTaken(req, env);
    } else {
      SumLayerPassed(req, env);
    }
  }

  lemma SumLayerTaken(req: Request, env: Env)
    requires IsSumRequest(req)
    ensures Run(AppLayers[2..], req, env, false) == RouteTable(req, env)
  {
    var layers := AppLayers[2..];
    assert layers[0] == Route("GET", SumRoutePath, SumPattern, SumController);
    assert layers[1..] == AppLayers[3..];
    var segs := RequestSegments(req.url).value;
    SumRouteMatch(segs);
    HealthRouteMatch(segs);
    assert !IsHealthRequest(req);
    var params := SumParams(req);
    assert RouteMatch(SumPattern, req.url) == Some(params);
    assert Invoke(SumController, params, env) == env.getSum(params);
    match env.getSum(params)
    case Responded(r) =>
      assert Run(layers, req, env, false) == Served(Some(r), [Invocation(SumController, params)]);
    case HandlerThrew =>
      FallbackLayers(req, env, true);
      assert Run(layers, req, env, false) ==
             Served(Some(Reply(500, InternalErrorBody)), [Invocation(SumController, params)] + []);
  }

  lemma SumLayerPassed(req: Request, env: Env)
    requires !IsSumRequest(req)
    ensures Run(AppLayers[2..], req, env, false) == Served(Some(Reply(404, NotFoundBody(req))), [])
  {
    var layers := AppLayers[2..];
    assert layers[0] == Route("GET", SumRoutePath, SumPattern, SumController);
    assert layers[1..] == AppLayers[3..];
    FallbackLayers(req, env, false);
    if Handles("GET", req.verb) && RequestSegments(req.url).Some? {
      SumRouteMatch(RequestSegments(req.url).value);
    }
    assert req.verb != "GET" || RouteMatch(SumPattern, req.url).None?;
    assert Run(layers, req, env, false) == Run(layers[1..], req, env, false);
  }

  lemma HealthLayer(req: Request, env: Env)
    ensures Run(AppLayers[1..], req, env, false) ==
            if IsHealthRequest(req) then RouteTable(req, env)
            else Run(AppLayers[2..], req, env, false)
  {
    var layers := AppLayers[1..];
    assert layers[0] == Route("GET", HealthRoutePath, HealthPattern, HealthCheck);
    assert layers[1..] == AppLayers[2..];
    match RequestSegments(req.url)
    case None =>
    case Some(segs) =>
      HealthRouteMatch(segs);
  }

  /** The stack createApp builds serves every request as the table says. */
  lemma ServeFollowsRouteTable(req: Request, env: Env)
    ensures Serve(AppLayers, req, env) == RouteTable(req, env)
  {
    assert AppLayers[0] == UseLayer(JsonBodyParser);
    HealthLayer(req, env);
    SumLayer(req, env);
    if RequestSegments(req.url).Some? {
      var segs := RequestSegments(req.url).value;
      assert !(IsHealthPath(segs) && IsSumPath(segs));
    }
  }

  // ---------------------------------------------------------------------------
  // Consequences

  /** getSum runs for a request exactly when it is a sum request (a GET or HEAD
      of "/sum/<i>/<j>" in any ASCII case, with at most one trailing '/' and any
      query string), and then exactly once, with the raw segments as `i` and `j`. */
  lemma GetSumReachedIff(req: Request, env: Env)
    ensures (exists k :: 0 <= k < |Serve(AppLayers, req, env).invoked| &&
                         Serve(AppLayers, req, env).invoked[k].handler == SumController)
            <==> IsSumRequest(req)
    ensures IsSumRequest(req) ==> Serve(AppLayers, req, env).invoked == [Invocation(SumController, SumParams(req))]
  {
    ServeFollowsRouteTable(req, env);
    var served := Serve(AppLayers, req, env);
    if IsSumRequest(req) {
      assert served.invoked[0].handler == SumController;
    }
  }

  /** Every request gets a reply from the application's own layers; none falls
      through to Express's built-in final handler. */
  lemma EveryRequestAnswered(req: Request, env: Env)
    ensures Serve(AppLayers, req, env).reply.Some?
  {
    ServeFollowsRouteTable(req, env);
  }

  /** A request no route takes gets the 404 body naming its method and URL, and
      no route handler runs. */
  lemma UnroutedIsNotFound(req: Request, env: Env)
    requires !IsHealthRequest(req) && !IsSumRequest(req)
    ensures Serve(AppLayers, req, env) ==
            Served(Some(Reply(404, JObject([("error", JString("Not Found")),
                                            ("message", JString("Route " + req.verb + " " + req.url + " not found"))]))), [])
  {
    ServeFollowsRouteTable(req, env);
  }

  /** A getSum that throws produces the error handler's 500 body. */
  lemma ThrowingGetSumGives500(req: Request, env: Env)
    requires IsSumRequest(req) && env.getSum(SumParams(req)) == HandlerThrew
    ensures Serve(AppLayers, req, env).reply ==
            Some(Reply(500, JObject([("error", JString("Internal Server Error")),
                                     ("message", JString("An unexpected error occurred"))])))
  {
    ServeFollowsRouteTable(req, env);
  }

  /** "/sum/<a>/<b>", with a and b non-empty and slash-free, has the segments
      "sum", a and b. */
  lemma SumUrlPath(a: string, b: string)
    requires a != "" && b != "" && '/' !in a && '/' !in b
    ensures PathSegments("/sum/" + a + "/" + b) == Some(["sum", a, b])
  {
    var parts := ["", "sum", a, b];
    assert parts[1..] == ["sum", a, b] && parts[1..][1..] == [a, b] && parts[1..][1..][1..] == [b];
    assert Join([a, b]) == a + "/" + b;
    assert Join(["sum", a, b]) == "sum" + "/" + (a + "/" + b);
    assert Join(parts) == "" + "/" + ("sum" + "/" + (a + "/" + b));
    assert "" + "/" + ("sum" + "/" + (a + "/" + b)) == "/sum/" + a + "/" + b;
    SplitJoin(parts);
    assert Split("/sum/" + a + "/" + b)[1..] == ["sum", a, b];
  }

  /** GET or HEAD of "/sum/<a>/<b>", with a and b non-empty and free of '/' and
      '?', is a sum request whose parameters are a and b; so is the same URL
      with a query string after it. */
  lemma SumUrl(verb: string, a: string, b: string, q: string)
    requires Handles("GET", verb)
    requires a != "" && b != "" && '/' !in a && '/' !in b && '?' !in a && '?' !in b
    ensures IsSumRequest(Request(verb, "/sum/" + a + "/" + b))
    ensures SumParams(Request(verb, "/sum/" + a + "/" + b)) == map["i" := a, "j" := b]
    ensures IsSumRequest(Request(verb, "/sum/" + a + "/" + b + "?" + q))
    ensures SumParams(Request(verb, "/sum/" + a + "/" + b + "?" + q)) == map["i" := a, "j" := b]
  {
    var u := "/sum/" + a + "/" + b;
    assert '?' !in u;
    PathOfQuery(u, q);
    SumUrlPath(a, b);
    LowerSum();
  }

  /** A health request is answered 200 by the health handler with the status
      text and the clock's timestamp. */
  lemma HealthServed(req: Request, env: Env)
    requires IsHealthRequest(req)
    ensures Serve(AppLayers, req, env) ==
            Served(Some(Reply(200, JObject([("status", JString("healthy")), ("timestamp", JString(env.timestamp))]))),
                   [Invocation(HealthCheck, map[])])
  {
    ServeFollowsRouteTable(req, env);
  }

  /** GET or HEAD of "/x", where x lower-cases to "health", is a health
      request, with or without a query string after it. */
  lemma HealthUrl(verb: string, x: string, q: string, env: Env)
    requires Handles("GET", verb)
    requires '/' !in x && '?' !in x && Lower(x) == "health"
    ensures Serve(AppLayers, Request(verb, "/" + x), env) ==
            Served(Some(Reply(200, HealthBody(env.timestamp))), [Invocation(HealthCheck, map[])])
    ensures Serve(AppLayers, Request(verb, "/" + x + "?" + q), env) ==
            Served(Some(Reply(200, HealthBody(env.timestamp))), [Invocation(HealthCheck, map[])])
  {
    OneSegmentPath(x);
    PathOfQuery("/" + x, q);
    HealthServed(Request(verb, "/" + x), env);
    HealthServed(Request(verb, "/" + x + "?" + q), env);
  }

  /** GET /health is a health request. */
  lemma HealthRequest(env: Env)
    ensures Serve(AppLayers, Request("GET", "/health"), env) ==
            Served(Some(Reply(200, HealthBody(env.timestamp))), [Invocation(HealthCheck, map[])])
  {
    LowerHealth();
    HealthUrl("GET", "health", "", env);
    assert "/" + "health" == "/health";
  }

  /** HEAD /health is answered by the GET route. */
  lemma HeadHealthRequest(env: Env)
    ensures Serve(AppLayers, Request("HEAD", "/health"), env) ==
            Served(Some(Reply(200, HealthBody(env.timestamp))), [Invocation(HealthCheck, map[])])
  {
    LowerHealth();
    HealthUrl("HEAD", "health", "", env);
    assert "/" + "health" == "/health";
  }

  /** "HEALTH" and "health" lower-case to "health". */
  lemma LowerHealth()
    ensures Lower("HEALTH") == "health"
    ensures Lower("health") == "health"
  {
    var l := Lower("HEALTH");
    assert l[0] == 'h' && l[1] == 'e' && l[2] == 'a' && l[3] == 'l' && l[4] == 't' && l[5] == 'h';
    var m := Lower("health");
    assert m[0] == 'h' && m[1] == 'e' && m[2] == 'a' && m[3] == 'l' && m[4] == 't' && m[5] == 'h';
  }

  /** "sum" lower-cases to itself. */
  lemma LowerSum()
    ensures Lower("sum") == "sum"
  {
    var l := Lower("sum");
    assert l[0] == 's' && l[1] == 'u' && l[2] == 'm';
  }

  /** GET /HEALTH is answered by the health route: routing ignores case. */
  lemma UpperCaseHealthRequest(env: Env)
    ensures Serve(AppLayers, Request("GET", "/HEALTH"), env) ==
            Served(Some(Reply(200, HealthBody(env.timestamp))), [Invocation(HealthCheck, map[])])
  {
    LowerHealth();
    HealthUrl("GET", "HEALTH", "", env);
    assert "/" + "HEALTH" == "/HEALTH";
  }

  /** GET /health?x=1 is answered by the health route: the query string takes
      no part in routing. */
  lemma HealthQueryRequest(env: Env)
    ensures Serve(AppLayers, Request("GET", "/health?x=1"), env) ==
            Served(Some(Reply(200, HealthBody(env.timestamp))), [Invocation(HealthCheck, map[])])
  {
    LowerHealth();
    HealthUrl("GET", "health", "x=1", env);
    assert "/" + "health" + "?" + "x=1" == "/health?x=1";
  }

  /** GET /sum/1/2 calls getSum once with {i: '1', j: '2'} and sends its reply. */
  lemma SumRequestReachesGetSum(env: Env, r: Reply)
    requires env.getSum(map["i" := "1", "j" := "2"]) == Responded(r)
    ensures Serve(AppLayers, Request("GET", "/sum/1/2"), env) ==
            Served(Some(r), [Invocation(SumController, map["i" := "1", "j" := "2"])])
  {
    SumUrl("GET", "1", "2", "");
    assert "/sum/" + "1" + "/" + "2" == "/sum/1/2";
    ServeFollowsRouteTable(Request("GET", "/sum/1/2"), env);
  }

  /** GET /sum/1/2?x=3 calls getSum with {i: '1', j: '2'}: the query string is
      not part of the second parameter. */
  lemma SumQueryRequest(env: Env, r: Reply)
    requires env.getSum(map["i" := "1", "j" := "2"]) == Responded(r)
    ensures Serve(AppLayers, Request("GET", "/sum/1/2?x=3"), env) ==
            Served(Some(r), [Invocation(SumController, map["i" := "1", "j" := "2"])])
  {
    SumUrl("GET", "1", "2", "x=3");
    assert "/sum/" + "1" + "/" + "2" + "?" + "x=3" == "/sum/1/2?x=3";
    ServeFollowsRouteTable(Request("GET", "/sum/1/2?x=3"), env);
  }

  /** "/" never reaches getSum and gets the 404 body. */
  lemma RootNotFound(env: Env)
    ensures Serve(AppLayers, Request("GET", "/"), env) ==
            Served(Some(Reply(404, NotFoundBody(Request("GET", "/")))), [])
  {
    SplitJoin(["", ""]);
    UnroutedIsNotFound(Request("GET", "/"), env);
  }

  /** "/sum", which lacks the two operands, never reaches getSum and gets the
      404 body. */
  lemma BareSumNotFound(env: Env)
    ensures Serve(AppLayers, Request("GET", "/sum"), env) ==
            Served(Some(Reply(404, NotFoundBody(Request("GET", "/sum")))), [])
  {
    LowerSum();
    UnroutedOneSegment("GET", "sum", env);
    assert "/" + "sum" == "/sum";
  }

  /** "/sum/", which lacks the two operands, never reaches getSum and gets the
      404 body. */
  lemma SumSlashNotFound(env: Env)
    ensures Serve(AppLayers, Request("GET", "/sum/"), env) ==
            Served(Some(Reply(404, NotFoundBody(Request("GET", "/sum/")))), [])
  {
    var parts := ["", "sum", ""];
    SplitJoin(parts);
    assert Join(parts) == "/sum/";
    PathOfQuery("/sum/", "");
    UnroutedIsNotFound(Request("GET", "/sum/"), env);
  }

  /** A request whose method no GET route takes gets the 404, whatever its URL. */
  lemma UnroutedMethod(verb: string, url: string, env: Env)
    requires !Handles("GET", verb)
    ensures Serve(AppLayers, Request(verb, url), env) ==
            Served(Some(Reply(404, NotFoundBody(Request(verb, url)))), [])
  {
    UnroutedIsNotFound(Request(verb, url), env);
  }

  /** POST /sum/1/2 gets the 404 body naming it: only GET and HEAD are routed. */
  lemma PostSumNotFound(env: Env)
    ensures Serve(AppLayers, Request("POST", "/sum/1/2"), env).reply ==
            Some(Reply(404, JObject([("error", JString("Not Found")), ("message", JString("Route POST /sum/1/2 not found"))])))
  {
    UnroutedMethod("POST", "/sum/1/2", env);
    assert NotFoundMessage(Request("POST", "/sum/1/2")) == "Route POST /sum/1/2 not found";
  }

  /** DELETE /health gets the 404 body naming it. */
  lemma DeleteHealthNotFound(env: Env)
    ensures Serve(AppLayers, Request("DELETE", "/health"), env).reply ==
            Some(Reply(404, JObject([("error", JString("Not Found")), ("message", JString("Route DELETE /health not found"))])))
  {
    UnroutedMethod("DELETE", "/health", env);
    assert NotFoundMessage(Request("DELETE", "/health")) == "Route DELETE /health not found";
  }

  /** "/x", for x free of '/' and '?', is the one segment x. */
  lemma OneSegmentPath(x: string)
    requires '/' !in x && '?' !in x
    ensures PathSegments("/" + x) == Some([x])
    ensures RequestSegments("/" + x) == Some([x])
  {
    PathOfQuery("/" + x, "");
    assert Join(["", x]) == "/" + x;
    SplitJoin(["", x]);
  }

  /** GET /unknown-route gets the 404 body naming its method and path. */
  lemma UnknownRouteNotFound(env: Env)
    ensures Serve(AppLayers, Request("GET", "/unknown-route"), env).reply ==
            Some(Reply(404, JObject([("error", JString("Not Found")), ("message", JString("Route GET /unknown-route not found"))])))
  {
    UnknownRouteMessage();
    UnroutedOneSegment("GET", "unknown-route", env);
    assert "/" + "unknown-route" == "/unknown-route";
  }

  /** A path of one segment other than "health" (in any case) is not routed,
      whatever the method. */
  lemma UnroutedOneSegment(verb: string, x: string, env: Env)
    requires '/' !in x && '?' !in x && Lower(x) != "health"
    ensures Serve(AppLayers, Request(verb, "/" + x), env) ==
            Served(Some(Reply(404, NotFoundBody(Request(verb, "/" + x)))), [])
  {
    OneSegmentPath(x);
    UnroutedIsNotFound(Request(verb, "/" + x), env);
  }

  /** The 404 message for GET /unknown-route, spelled out. */
  lemma UnknownRouteMessage()
    ensures NotFoundMessage(Request("GET", "/unknown-route")) == "Route GET /unknown-route not found"
  {
  }

  /** The (method, path) pairs of the registered routes, in order. */
  function RoutesOf(stack: seq<Layer>): seq<(string, string)> {
    if |stack| == 0 then []
    else
      match stack[0]
      case Route(m, path, _, _) => [(m, path)] + RoutesOf(stack[1..])
      case UseLayer(_) => RoutesOf(stack[1..])
  }

  /** Exactly two routes are registered, GET /health before GET /sum/:i/:j;
      there is no route for '' or '/'. */
  lemma RegisteredRoutes()
    ensures RoutesOf(AppLayers) == [("GET", "/health"), ("GET", "/sum/:i/:j")]
    ensures forall k :: 0 <= k < |RoutesOf(AppLayers)| ==> RoutesOf(AppLayers)[k].1 !in {"", "/"}
  {
    var l4 := [UseLayer(ErrorHandler)];
    assert RoutesOf(l4) == [] by { assert l4[1..] == []; }
    var l3 := [UseLayer(NotFoundFallback)] + l4;
    assert RoutesOf(l3) == [] by { assert l3[1..] == l4; }
    var l2 := [Route("GET", SumRoutePath, SumPattern, SumController)] + l3;
    assert RoutesOf(l2) == [("GET", SumRoutePath)] by { assert l2[1..] == l3; }
    var l1 := [Route("GET", HealthRoutePath, HealthPattern, HealthCheck)] + l2;
    assert RoutesOf(l1) == [("GET", HealthRoutePath), ("GET", SumRoutePath)] by { assert l1[1..] == l2; }
    assert AppLayers == [UseLayer(JsonBodyParser)] + l1;
    assert AppLayers[1..] == l1;
  }

  // ---------------------------------------------------------------------------
  // The application with the real controller

  /** getSum as the controller implements it, answering on a fresh response. */
  function ControllerHandler(number: string -> AdderController.Parsed,
                             service: (AdderService.SafeInt, AdderService.SafeInt) -> AdderController.Completion)
    : map<string, string> -> HandlerResult
  {
    params => Responded(AdderController.ReplyOf(AdderController.Outcome(params, number, service)))
  }

  /** GET /sum/<a>/<b> served end to end: the reply is the controller's reply for
      the raw parameters {i: a, j: b}. */
  lemma SumEndToEnd(a: string, b: string, timestamp: string,
                    number: string -> AdderController.Parsed,
                    service: (AdderService.SafeInt, AdderService.SafeInt) -> AdderController.Completion)
    requires a != "" && b != "" && '/' !in a && '/' !in b && '?' !in a && '?' !in b
    ensures Serve(AppLayers, Request("GET", "/sum/" + a + "/" + b), Env(timestamp, ControllerHandler(number, service))).reply ==
            Some(AdderController.ReplyOf(AdderController.Outcome(map["i" := a, "j" := b], number, service)))
  {
    SumUrl("GET", a, b, "");
    ServeFollowsRouteTable(Request("GET", "/sum/" + a + "/" + b), Env(timestamp, ControllerHandler(number, service)));
  }
}
